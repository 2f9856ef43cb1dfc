// The guarantees of Apply and Teardown: what a successful call leaves, what a sequence of
// calls leaves, what stays available while a call is under way, and what a failed sweep leaves.
module CrossnsCalls {
  import opened Strings
  import opened Rbac
  import opened CrossnsProgram
  import opened CrossnsApply

  // ---- What a job asks for ---------------------------------------------------------------------

  // The content the last of the first n rule sets naming k asks for.
  function WantedBy(job: Job, n: nat, k: Key): Option<Body>
    requires n <= |job.sets|
  {
    if n == 0 then None
    else
      var rs := job.sets[n - 1];
      if k == RoleKey(rs) then Some(Rules(rs.rules))
      else if k == BindingKey(rs) then Some(Grant(RefTo(rs), SubjectsOf(job.subject)))
      else WantedBy(job, n - 1, k)
  }

  function Wanted(job: Job, k: Key): Option<Body> {
    WantedBy(job, |job.sets|, k)
  }

  // A binding whose roleRef differs from the wanted one is deleted and created anew.
  predicate Replaced(old_: Obj, body: Body) {
    body.Grant? && !(old_.body.Grant? && old_.body.ref == body.ref)
  }

  function LabelsAfter(s: Store, job: Job, k: Key, body: Body): map<string, string> {
    if k in s.objs && !Replaced(s.objs[k], body) then s.objs[k].labels + ManagedLabels(job.owner)
    else ManagedLabels(job.owner)
  }

  predicate Same(s: Store, s': Store, k: Key) {
    (k in s.objs <==> k in s'.objs) && (k in s.objs ==> s'.objs[k] == s.objs[k])
  }

  predicate InPlace(s: Store, s': Store, job: Job, k: Key, body: Body) {
    k in s'.objs && s'.objs[k].body == body && s'.objs[k].labels == LabelsAfter(s, job, k, body)
  }

  // Object k of store a, once the first n rule sets are applied to store s.
  predicate Placed(s: Store, a: Store, job: Job, n: nat, k: Key)
    requires n <= |job.sets|
  {
    match WantedBy(job, n, k)
    case None => Same(s, a, k)
    case Some(body) => InPlace(s, a, job, k, body)
  }

  lemma SuffixInjective(name: string, name': string)
    ensures name + SUFFIX == name' + SUFFIX <==> name == name'
  {
    if name + SUFFIX == name' + SUFFIX {
      assert name == (name + SUFFIX)[..|name|] && name' == (name' + SUFFIX)[..|name|];
    }
  }

  // Whatever an object is wanted for, the roleRef wanted of it is the same.
  lemma {:induction false} OneRef(job: Job, n: nat, k: Key, rs: RuleSet)
    requires n <= |job.sets| && k == BindingKey(rs) && WantedBy(job, n, k).Some?
    ensures WantedBy(job, n, k).value == Grant(RefTo(rs), SubjectsOf(job.subject))
  {
    var last := job.sets[n - 1];
    SuffixInjective(last.roleName, rs.roleName);
    if k != BindingKey(last) {
      OneRef(job, n - 1, k, rs);
    }
  }

  lemma {:induction false} RoleWanted(job: Job, n: nat, rs: RuleSet)
    requires n <= |job.sets| && WantedBy(job, n, RoleKey(rs)).Some?
    ensures WantedBy(job, n, RoleKey(rs)).value.Rules?
  {
    if RoleKey(rs) != RoleKey(job.sets[n - 1]) {
      RoleWanted(job, n - 1, rs);
    }
  }

  lemma RoleStepPlaces(s: Store, a: Store, job: Job, n: nat)
    requires n < |job.sets| && Placed(s, a, job, n, RoleKey(job.sets[n]))
    ensures InPlace(s, RoleStep(a, job, job.sets[n]), job, RoleKey(job.sets[n]), Rules(job.sets[n].rules))
  {
    var k := RoleKey(job.sets[n]);
    if WantedBy(job, n, k).Some? {
      RoleWanted(job, n, job.sets[n]);
      assert LabelsAfter(s, job, k, Rules(job.sets[n].rules)) + ManagedLabels(job.owner)
          == LabelsAfter(s, job, k, Rules(job.sets[n].rules));
    }
  }

  lemma BindingStepPlaces(s: Store, a: Store, job: Job, n: nat)
    requires n < |job.sets| && Placed(s, a, job, n, BindingKey(job.sets[n]))
    ensures InPlace(s, BindingStep(a, job, job.sets[n]), job, BindingKey(job.sets[n]),
                    Grant(RefTo(job.sets[n]), SubjectsOf(job.subject)))
  {
    var k := BindingKey(job.sets[n]);
    var body := Grant(RefTo(job.sets[n]), SubjectsOf(job.subject));
    if WantedBy(job, n, k).Some? {
      OneRef(job, n, k, job.sets[n]);
      assert LabelsAfter(s, job, k, body) + ManagedLabels(job.owner) == LabelsAfter(s, job, k, body);
    }
  }

  lemma OtherKeys(a: Store, job: Job, rs: RuleSet, k: Key)
    ensures k != RoleKey(rs) ==> Same(a, RoleStep(a, job, rs), k)
    ensures k != BindingKey(rs) ==> Same(a, BindingStep(a, job, rs), k)
  {}

  lemma SetStepPlaces(s: Store, a: Store, job: Job, n: nat, k: Key)
    requires n < |job.sets| && Placed(s, a, job, n, k)
    ensures Placed(s, SetStep(a, job, job.sets[n]), job, n + 1, k)
  {
    var rs := job.sets[n];
    var b := RoleStep(a, job, rs);
    OtherKeys(a, job, rs, k);
    OtherKeys(b, job, rs, k);
    if k == RoleKey(rs) {
      RoleStepPlaces(s, a, job, n);
    } else if k == BindingKey(rs) {
      assert Placed(s, b, job, n, k);
      BindingStepPlaces(s, b, job, n);
    }
  }

  lemma AppliedPlaces(s: Store, job: Job, n: nat, k: Key)
    requires n <= |job.sets|
    ensures Placed(s, Applied(s, job, n), job, n, k)
  {
    for i := 0 to n
      invariant Placed(s, Applied(s, job, i), job, i, k)
    {
      SetStepPlaces(s, Applied(s, job, i), job, i, k);
      AppliedUp(s, job, i);
    }
  }

  // ---- What the sweep keeps -------------------------------------------------------------------------

  // A binding without the suffix is kept when its own name is that of a wanted Role.
  predicate Stray(job: Job, k: Key) {
    k.kind.BindingKind? && TrimSuffix(k.name, SUFFIX) == k.name && Wanted(job, Key(RoleKind, k.ns, k.name)).Some?
  }

  lemma {:induction false} WantedIff(job: Job, n: nat, k: Key)
    requires n <= |job.sets|
    ensures WantedBy(job, n, k).Some? <==>
              exists j | 0 <= j < n :: k == RoleKey(job.sets[j]) || k == BindingKey(job.sets[j])
  {
    if n > 0 {
      WantedIff(job, n - 1, k);
    }
  }

  // The sweep keeps exactly what is wanted, and strays.
  lemma KeptIff(job: Job, k: Key)
    requires SetsClean(job, |job.sets|) && '/' !in k.ns
    ensures Kept(job, k) <==> Wanted(job, k).Some? || Stray(job, k)
  {
    var role := Key(RoleKind, k.ns, RoleNameOf(k));
    WantedIff(job, |job.sets|, k);
    WantedIff(job, |job.sets|, role);
    forall j | 0 <= j < |job.sets|
      ensures DesiredKey(k.ns, RoleNameOf(k)) == DesiredKey(job.sets[j].ns, job.sets[j].roleName)
         <==> role == RoleKey(job.sets[j])
      ensures k == BindingKey(job.sets[j]) ==> role == RoleKey(job.sets[j])
    {
      DesiredKeyInjective(k.ns, RoleNameOf(k), job.sets[j].ns, job.sets[j].roleName);
      TrimUndoesAdd(job.sets[j].roleName);
    }
    assert k.kind.BindingKind? && RoleNameOf(k) != k.name ==> k.name == RoleNameOf(k) + SUFFIX;
  }

  // Two bindings without the suffix that no call wants: the one named like the Role is kept,
  // any other is swept.
  lemma BindingsWithoutSuffix(owner: OwnerLabel, subject: SubjectRef, rules: seq<PolicyRule>)
    ensures var job := Job(owner, subject, [RuleSet("reader", "team", rules)]);
            var named, other := Key(BindingKind, "team", "reader"), Key(BindingKind, "team", "writer");
            && Wanted(job, named).None? && Kept(job, named)
            && Wanted(job, other).None? && !Kept(job, other)
  {
    var job := Job(owner, subject, [RuleSet("reader", "team", rules)]);
    var named, other := Key(BindingKind, "team", "reader"), Key(BindingKind, "team", "writer");
    assert |BindingKey(job.sets[0]).name| == 6 + |SUFFIX|;
    WantedIff(job, 1, named);
    WantedIff(job, 1, other);
    WantedIff(job, 1, Key(RoleKind, "team", "reader"));
    WantedIff(job, 1, Key(RoleKind, "team", "writer"));
    assert "reader"[0] == 'r' && "writer"[0] == 'w';
    KeptIff(job, named);
    KeptIff(job, other);
  }

  lemma LabelsMatch(s: Store, job: Job, k: Key, body: Body)
    ensures Matches(LabelsAfter(s, job, k, body), ManagedLabels(job.owner))
  {}

  // ---- One call ---------------------------------------------------------------------------------------

  // Object k after a call that got as far as the sweep: wanted objects are in place, the
  // owner's other objects are gone unless listing or deleting them failed, the rest is as it was.
  predicate Settled(s: Store, s': Store, job: Job, errs: seq<Failure>, k: Key) {
    match Wanted(job, k)
    case Some(body) => InPlace(s, s', job, k, body)
    case None =>
      if Owned(s, job.owner, k) && !Stray(job, k) && !Failed(errs, k) then k !in s'.objs else Same(s, s', k)
  }

  lemma SweptSettles(s: Store, job: Job, s': Store, errs: seq<Failure>, k: Key)
    requires StoreClean(s) && Swept(s, job, s', Fin(errs))
    ensures Settled(s, s', job, errs, k)
  {
    var a := Applied(s, job, |job.sets|);
    AppliedPlaces(s, job, |job.sets|, k);
    if Wanted(job, k).Some? {
      LabelsMatch(s, job, k, Wanted(job, k).value);
      WantedClean(job, |job.sets|, k);
      KeptIff(job, k);
    } else if k in s.objs {
      KeptIff(job, k);
    }
  }

  lemma {:induction false} WantedClean(job: Job, n: nat, k: Key)
    requires n <= |job.sets| && SetsClean(job, n) && WantedBy(job, n, k).Some?
    ensures '/' !in k.ns
  {
    if k != RoleKey(job.sets[n - 1]) && k != BindingKey(job.sets[n - 1]) {
      WantedClean(job, n - 1, k);
    }
  }

  // Whatever fails, an Apply that ends without an apply error leaves every object exactly so;
  // when it returns nil, no failure spares anything.
  lemma ApplyExact(s: Store, job: Job, os: seq<Oracle>, k: Key)
    requires StoreClean(s) && ValidJob(job)
    requires Run(s, ApplyStart(job), os).1.Fin?
    requires forall e | e in Run(s, ApplyStart(job), os).1.errs :: !e.ApplyFailed?
    ensures Settled(s, Run(s, ApplyStart(job), os).0, job, Run(s, ApplyStart(job), os).1.errs, k)
  {
    var (s', p') := Run(s, ApplyStart(job), os);
    CallTracked(s, job, os);
    assert !Broken(s, job, s', p'.errs) by {
      if |p'.errs| == 1 {
        assert p'.errs[0] in p'.errs;
      }
    }
    SweptSettles(s, job, s', p'.errs, k);
  }

  // Teardown removes exactly the owner's objects, but for those whose listing or deletion failed.
  lemma TeardownExact(s: Store, owner: OwnerLabel, os: seq<Oracle>, k: Key)
    requires StoreClean(s) && Run(s, TeardownStart(owner), os).1.Fin?
    ensures var (s', p') := Run(s, TeardownStart(owner), os);
            if Owned(s, owner, k) && !Failed(p'.errs, k) then k !in s'.objs else Same(s, s', k)
  {
    var (s', p') := Run(s, TeardownStart(owner), os);
    TeardownTracked(s, owner, os);
    SweptSettles(s, TeardownStart(owner).job, s', p'.errs, k);
  }

  // ---- When a call returns nil -------------------------------------------------------------------------

  // No call of the run fails but for a missing object.
  ghost predicate Healthy(s: Store, p: Proc, os: seq<Oracle>)
    requires Calls(p) || p.Fin?
    decreases |os|
  {
    os == [] || p.Fin?
    || (Exec(s, Next(p), os[0]).1 != Err(Transient)
        && Healthy(Step(s, p, os[0]).0, Step(s, p, os[0]).1, os[1..]))
  }

  function ErrsOf(p: Proc): seq<Failure> {
    match p
    case Fin(errs) => errs
    case At(_, SweepList(_, errs)) => errs
    case At(_, Sweep(_, _, errs)) => errs
    case At(_, _) => []
  }

  lemma RoleNil(a: Store, job: Job, s: Store, pc: Pc, o: Oracle)
    requires OnRole(pc) && pc.i < |job.sets| && RoleUnderway(a, job, job.sets[pc.i], s, pc)
    ensures ErrsOf(Step(s, At(job, pc), o).1) == [] <==> Exec(s, Next(At(job, pc)), o).1 != Err(Transient)
  {}

  lemma BindingNil(a: Store, job: Job, s: Store, pc: Pc, o: Oracle)
    requires Applying(pc) && !OnRole(pc) && pc.i < |job.sets| && BindingUnderway(a, job, job.sets[pc.i], s, pc)
    ensures ErrsOf(Step(s, At(job, pc), o).1) == [] <==> Exec(s, Next(At(job, pc)), o).1 != Err(Transient)
  {}

  lemma SweepNil(s: Store, p: Proc, o: Oracle)
    requires Calls(p) && !Applying(p.pc)
    ensures ErrsOf(Step(s, p, o).1) == [] <==> ErrsOf(p) == [] && Exec(s, Next(p), o).1 != Err(Transient)
  {}

  lemma NilStep(s0: Store, job: Job, s: Store, p: Proc, o: Oracle)
    requires Calls(p) && Tracked(s0, job, s, p)
    ensures ErrsOf(Step(s, p, o).1) == [] <==> ErrsOf(p) == [] && Exec(s, Next(p), o).1 != Err(Transient)
  {
    if !Applying(p.pc) {
      SweepNil(s, p, o);
    } else if OnRole(p.pc) {
      RoleNil(Applied(s0, job, p.pc.i), job, s, p.pc, o);
    } else {
      BindingNil(RoleStep(Applied(s0, job, p.pc.i), job, job.sets[p.pc.i]), job, s, p.pc, o);
    }
  }

  lemma {:induction false} RunNil(s0: Store, job: Job, s: Store, p: Proc, os: seq<Oracle>)
    requires (Calls(p) || p.Fin?) && StoreClean(s) && Tracked(s0, job, s, p)
    ensures ErrsOf(Run(s, p, os).1) == [] <==> ErrsOf(p) == [] && Healthy(s, p, os)
    decreases |os|
  {
    if os != [] && !p.Fin? {
      NilStep(s0, job, s, p, os[0]);
      RunTracked(s0, job, s, p, [os[0]]);
      var (s', p') := Step(s, p, os[0]);
      assert Run(s, p, [os[0]]) == (s', p') by {
        assert Run(s', p', [os[0]][1..]) == (s', p');
      }
      RunNil(s0, job, s', p', os[1..]);
    }
  }

  // ---- Sequences of calls ---------------------------------------------------------------------------------

  // A call by the owner's Reconciler and the server's choices during it.
  datatype Invocation = Invocation(job: Job, teardown: bool, os: seq<Oracle>)

  function Begin(c: Invocation): (p: Proc)
    ensures Calls(p) || p.Fin?
  {
    if c.teardown then TeardownStart(c.job.owner) else ApplyStart(c.job)
  }

  // A finished Teardown, or Apply of a valid job, returns nil if and only if no API call of it failed.
  lemma NilIffNothingFailed(s: Store, c: Invocation)
    requires StoreClean(s) && (c.teardown || ValidJob(c.job)) && Run(s, Begin(c), c.os).1.Fin?
    ensures Run(s, Begin(c), c.os).1.errs == [] <==> Healthy(s, Begin(c), c.os)
  {
    TrackedNext(s, Request(c), 0);
    RunNil(s, Request(c), s, Begin(c), c.os);
  }

  // What the call asks for: nothing when it is a Teardown.
  function Request(c: Invocation): Job {
    if c.teardown then TeardownStart(c.job.owner).job else c.job
  }

  ghost function After(s: Store, calls: seq<Invocation>): Store {
    if calls == [] then s
    else Run(After(s, calls[..|calls| - 1]), Begin(calls[|calls| - 1]), calls[|calls| - 1].os).0
  }

  ghost function ResultOf(s: Store, calls: seq<Invocation>): Proc
    requires calls != []
  {
    Run(After(s, calls[..|calls| - 1]), Begin(calls[|calls| - 1]), calls[|calls| - 1].os).1
  }

  predicate NamedIn(calls: seq<Invocation>, k: Key) {
    exists c | c in calls :: Wanted(Request(c), k).Some?
  }

  // Where the objects of a partial Apply stand.
  lemma UnderwayFrame(s: Store, job: Job, s': Store, pc: Pc, k: Key)
    requires Applying(pc) && pc.i < |job.sets| && Underway(s, job, s', pc) && Wanted(job, k).None?
    ensures Same(s, s', k)
  {
    AppliedPlaces(s, job, pc.i, k);
    WantedIff(job, pc.i, k);
    WantedIff(job, |job.sets|, k);
    OtherKeys(Applied(s, job, pc.i), job, job.sets[pc.i], k);
  }

  // A call, finished or not, keeps what it does not want, or removes it as the owner's.
  lemma TrackedFrame(s: Store, job: Job, s': Store, p: Proc, k: Key)
    requires StoreClean(s) && Tracked(s, job, s', p) && Wanted(job, k).None?
    ensures Same(s, s', k) || (Owned(s, job.owner, k) && k !in s'.objs)
  {
    if p.At? && Applying(p.pc) {
      UnderwayFrame(s, job, s', p.pc, k);
    } else if p.Fin? && Broken(s, job, s', p.errs) {
      var pc :| Applying(pc) && pc.i < |job.sets| && Underway(s, job, s', pc);
      UnderwayFrame(s, job, s', pc, k);
    } else {
      AppliedPlaces(s, job, |job.sets|, k);
    }
  }

  lemma InvocationTracked(s: Store, c: Invocation)
    requires StoreClean(s)
    ensures StoreClean(Run(s, Begin(c), c.os).0)
    ensures Run(s, Begin(c), c.os) == (s, Fin([Invalid]))
         || Tracked(s, Request(c), Run(s, Begin(c), c.os).0, Run(s, Begin(c), c.os).1)
  {
    if c.teardown {
      TeardownTracked(s, c.job.owner, c.os);
    } else if ValidJob(c.job) {
      CallTracked(s, c.job, c.os);
    }
  }

  // Failed or not, calls leave alone what none of them names, and own only what some call named.
  lemma {:induction false} HistoryFrame(s: Store, owner: OwnerLabel, calls: seq<Invocation>, k: Key)
    requires StoreClean(s) && (forall k :: !Owned(s, owner, k)) && forall c | c in calls :: c.job.owner == owner
    ensures StoreClean(After(s, calls))
    ensures NamedIn(calls, k) || (Same(s, After(s, calls), k) && !Owned(After(s, calls), owner, k))
    decreases |calls|
  {
    if calls != [] {
      var init, c := calls[..|calls| - 1], calls[|calls| - 1];
      assert calls == init + [c];
      HistoryFrame(s, owner, init, k);
      InvocationTracked(After(s, init), c);
      if !NamedIn(calls, k) {
        assert forall d | d in init :: d in calls;
        assert c in calls && Wanted(Request(c), k).None? && !NamedIn(init, k);
        if Run(After(s, init), Begin(c), c.os) != (After(s, init), Fin([Invalid])) {
          TrackedFrame(After(s, init), Request(c), After(s, calls), ResultOf(s, calls), k);
        }
      }
    }
  }

  lemma {:induction false} WantedHasSuffix(job: Job, n: nat, k: Key)
    requires n <= |job.sets| && WantedBy(job, n, k).Some? && k.kind.BindingKind?
    ensures TrimSuffix(k.name, SUFFIX) != k.name
  {
    if k == BindingKey(job.sets[n - 1]) {
      TrimUndoesAdd(job.sets[n - 1].roleName);
    } else {
      WantedHasSuffix(job, n - 1, k);
    }
  }

  // One call that returned nil, from a store whose owned bindings carry the suffix.
  lemma SuccessOwns(s: Store, c: Invocation, k: Key)
    requires StoreClean(s) && Run(s, Begin(c), c.os).1 == Fin([])
    requires Owned(s, c.job.owner, k) && k.kind.BindingKind? ==> TrimSuffix(k.name, SUFFIX) != k.name
    ensures var s' := Run(s, Begin(c), c.os).0;
      && (Owned(s', c.job.owner, k) <==> Wanted(Request(c), k).Some?)
      && (Owned(s', c.job.owner, k) ==> Some(s'.objs[k].body) == Wanted(Request(c), k))
  {
    InvocationTracked(s, c);
    SweptSettles(s, Request(c), Run(s, Begin(c), c.os).0, [], k);
    if Wanted(Request(c), k).Some? {
      LabelsMatch(s, Request(c), k, Wanted(Request(c), k).value);
    }
  }

  // A binding the owner has before a call was named by an earlier one, so it carries the suffix.
  lemma OwnedHasSuffix(s: Store, owner: OwnerLabel, calls: seq<Invocation>, k: Key)
    requires StoreClean(s) && (forall k :: !Owned(s, owner, k)) && forall c | c in calls :: c.job.owner == owner
    requires Owned(After(s, calls), owner, k) && k.kind.BindingKind?
    ensures TrimSuffix(k.name, SUFFIX) != k.name
  {
    HistoryFrame(s, owner, calls, k);
    var c :| c in calls && Wanted(Request(c), k).Some?;
    WantedHasSuffix(Request(c), |Request(c).sets|, k);
  }

  lemma LastCallOwns(s: Store, owner: OwnerLabel, init: seq<Invocation>, c: Invocation, k: Key)
    requires StoreClean(s) && (forall k :: !Owned(s, owner, k)) && (forall d | d in init :: d.job.owner == owner)
    requires c.job.owner == owner && Run(After(s, init), Begin(c), c.os).1 == Fin([])
    ensures var s' := Run(After(s, init), Begin(c), c.os).0;
      && (Owned(s', owner, k) <==> Wanted(Request(c), k).Some?)
      && (Owned(s', owner, k) ==> Some(s'.objs[k].body) == Wanted(Request(c), k))
  {
    HistoryFrame(s, owner, init, k);
    if Owned(After(s, init), owner, k) && k.kind.BindingKind? {
      OwnedHasSuffix(s, owner, init, k);
    }
    SuccessOwns(After(s, init), c, k);
  }

  // After any sequence of calls, failed ones included, of which the last returned nil: the
  // owner's objects are exactly those the last call asks for, with the content of the last
  // rule set for each, and objects no call named are as they were at the start.
  lemma LastCallWins(s: Store, owner: OwnerLabel, calls: seq<Invocation>, k: Key)
    requires StoreClean(s) && (forall k :: !Owned(s, owner, k)) && forall c | c in calls :: c.job.owner == owner
    requires calls != [] && ResultOf(s, calls) == Fin([])
    ensures var s', last := After(s, calls), Request(calls[|calls| - 1]);
      && (Owned(s', owner, k) <==> Wanted(last, k).Some?)
      && (Owned(s', owner, k) ==> Some(s'.objs[k].body) == Wanted(last, k))
      && (!NamedIn(calls, k) ==> Same(s, s', k))
  {
    HistoryFrame(s, owner, calls, k);
    var init, c := calls[..|calls| - 1], calls[|calls| - 1];
    InitOfOwner(calls, owner);
    LastCallOwns(s, owner, init, c, k);
  }

  lemma InitOfOwner(calls: seq<Invocation>, owner: OwnerLabel)
    requires calls != [] && forall c | c in calls :: c.job.owner == owner
    ensures forall c | c in calls[..|calls| - 1] :: c.job.owner == owner
    ensures calls[|calls| - 1].job.owner == owner
  {
    assert forall c | c in calls[..|calls| - 1] :: c in calls;
    assert calls[|calls| - 1] in calls;
  }

  // ---- Make before break ------------------------------------------------------------------------------------

  // What an Apply under way shows at key k: the earlier content, or that of a rule set it has reached.
  predicate Shows(job: Job, before: Body, now: Body, k: Key) {
    now == before || exists n | 0 <= n <= |job.sets| :: WantedBy(job, n, k) == Some(now)
  }

  lemma AppliedShows(s: Store, job: Job, n: nat, k: Key)
    requires n <= |job.sets| && k in s.objs
    ensures k in Applied(s, job, n).objs && Shows(job, s.objs[k].body, Applied(s, job, n).objs[k].body, k)
  {
    AppliedPlaces(s, job, n, k);
  }

  lemma RoleAppliedShows(s: Store, job: Job, n: nat, k: Key)
    requires n < |job.sets| && k in s.objs
    ensures var t := RoleStep(Applied(s, job, n), job, job.sets[n]);
            k in t.objs && Shows(job, s.objs[k].body, t.objs[k].body, k)
  {
    AppliedShows(s, job, n, k);
    OtherKeys(Applied(s, job, n), job, job.sets[n], k);
    if k == RoleKey(job.sets[n]) {
      AppliedPlaces(s, job, n, k);
      RoleStepPlaces(s, Applied(s, job, n), job, n);
      assert WantedBy(job, n + 1, k) == Some(Rules(job.sets[n].rules));
    }
  }

  // A binding that already has the roleRef the job wants is never taken away to be replaced.
  lemma ShownNotDrifted(job: Job, before: Body, o: Obj, k: Key, rs: RuleSet)
    requires k == BindingKey(rs) && Shows(job, before, o.body, k)
    requires before.Grant? && before.ref == RefTo(rs)
    ensures !Drifted(o, rs)
  {
    if o.body != before {
      var n :| 0 <= n <= |job.sets| && WantedBy(job, n, k) == Some(o.body);
      OneRef(job, n, k, rs);
    }
  }

  lemma UnderwayHolds(s: Store, job: Job, s': Store, pc: Pc, k: Key, a: Job)
    requires Applying(pc) && pc.i < |job.sets| && Underway(s, job, s', pc)
    requires k in s.objs && Some(s.objs[k].body) == Wanted(a, k)
    ensures k in s'.objs && Shows(job, s.objs[k].body, s'.objs[k].body, k)
  {
    AppliedShows(s, job, pc.i, k);
    RoleAppliedShows(s, job, pc.i, k);
    if pc.BindingRecreate? && k == BindingKey(job.sets[pc.i]) {
      OneRef(a, |a.sets|, k, job.sets[pc.i]);
      ShownNotDrifted(job, s.objs[k].body, RoleStep(Applied(s, job, pc.i), job, job.sets[pc.i]).objs[k], k, job.sets[pc.i]);
    }
  }

  // After a completed Apply of a, at every point of a following Apply of b, finished or not,
  // whatever fails: no object wanted by both is missing, and each shows what a or a rule set
  // of b asks for.
  lemma MakeBeforeBreak(s: Store, a: Job, osA: seq<Oracle>, b: Job, osB: seq<Oracle>, k: Key)
    requires StoreClean(s) && Run(s, ApplyStart(a), osA).1 == Fin([])
    requires Wanted(a, k).Some? && Wanted(b, k).Some?
    ensures var s1 := Run(s, ApplyStart(a), osA).0;
            var s2 := Run(s1, ApplyStart(b), osB).0;
            k in s2.objs && Shows(b, Wanted(a, k).value, s2.objs[k].body, k)
  {
    var s1 := Run(s, ApplyStart(a), osA).0;
    CallTracked(s, a, osA);
    SweptSettles(s, a, s1, [], k);
    if ValidJob(b) {
      CallTracked(s1, b, osB);
      var (s2, p) := Run(s1, ApplyStart(b), osB);
      if p.At? && Applying(p.pc) {
        UnderwayHolds(s1, b, s2, p.pc, k, a);
      } else if p.Fin? && Broken(s1, b, s2, p.errs) {
        var pc :| Applying(pc) && pc.i < |b.sets| && Underway(s1, b, s2, pc);
        UnderwayHolds(s1, b, s2, pc, k, a);
      } else {
        SweptHasWanted(s1, b, s2, p, k);
      }
    }
  }

  lemma SweptHasWanted(s: Store, job: Job, s': Store, p: Proc, k: Key)
    requires (p.At? ==> !Applying(p.pc)) && Swept(s, job, s', p) && Wanted(job, k).Some?
    ensures InPlace(s, s', job, k, Wanted(job, k).value)
    ensures Owned(s', job.owner, k)
  {
    AppliedPlaces(s, job, |job.sets|, k);
    WantedClean(job, |job.sets|, k);
    KeptIff(job, k);
    LabelsMatch(s, job, k, Wanted(job, k).value);
  }

  // Nothing is swept before every wanted object is in place: at any point of an Apply, either
  // all of them are, or the sweep has not begun and no object has gone but, for a moment, a
  // binding whose roleRef has to be replaced.
  lemma SweepComesLast(s: Store, job: Job, os: seq<Oracle>)
    requires StoreClean(s) && ValidJob(job)
    ensures var (s', p) := Run(s, ApplyStart(job), os);
      || (forall k | Wanted(job, k).Some? :: InPlace(s, s', job, k, Wanted(job, k).value))
      || (forall k | k in s.objs && k !in s'.objs :: Wanted(job, k).Some? && Replaced(s.objs[k], Wanted(job, k).value))
  {
    CallTracked(s, job, os);
    var (s', p) := Run(s, ApplyStart(job), os);
    if p.At? && Applying(p.pc) {
      UnderwayLoses(s, job, s', p.pc);
    } else if p.Fin? && Broken(s, job, s', p.errs) {
      var pc :| Applying(pc) && pc.i < |job.sets| && Underway(s, job, s', pc);
      UnderwayLoses(s, job, s', pc);
    } else {
      forall k | Wanted(job, k).Some? ensures InPlace(s, s', job, k, Wanted(job, k).value) {
        SweptHasWanted(s, job, s', p, k);
      }
    }
  }

  lemma UnderwayLoses(s: Store, job: Job, s': Store, pc: Pc)
    requires Applying(pc) && pc.i < |job.sets| && Underway(s, job, s', pc)
    ensures forall k | k in s.objs && k !in s'.objs :: Wanted(job, k).Some? && Replaced(s.objs[k], Wanted(job, k).value)
  {
    forall k | k in s.objs && k !in s'.objs ensures Wanted(job, k).Some? && Replaced(s.objs[k], Wanted(job, k).value) {
      var rs := job.sets[pc.i];
      AppliedShows(s, job, pc.i, k);
      RoleAppliedShows(s, job, pc.i, k);
      assert pc.BindingRecreate? && k == BindingKey(rs);
      WantedIff(job, |job.sets|, k);
      OneRef(job, |job.sets|, k, rs);
      if s.objs[k].body.Grant? && s.objs[k].body.ref == RefTo(rs) {
        ShownNotDrifted(job, s.objs[k].body, RoleStep(Applied(s, job, pc.i), job, job.sets[pc.i]).objs[k], k, rs);
      }
    }
  }
}
