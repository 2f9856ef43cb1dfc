// What one run of Apply or Teardown does to the store, whatever calls fail on the way.
module CrossnsApply {
  import opened Rbac
  import opened CrossnsProgram

  // ---- The applying phase, in closed form ------------------------------------------------------

  function RoleStep(s: Store, job: Job, rs: RuleSet): Store {
    var key := RoleKey(rs);
    if key !in s.objs then Put(s, key, RoleObj(job, rs))
    else if Updated(s.objs[key], RoleObj(job, rs)) == s.objs[key] then s
    else Put(s, key, Updated(s.objs[key], RoleObj(job, rs)))
  }

  function BindingStep(s: Store, job: Job, rs: RuleSet): Store {
    var key := BindingKey(rs);
    if key !in s.objs || Drifted(s.objs[key], rs) then Put(s, key, BindingObj(job, rs))
    else if Updated(s.objs[key], BindingObj(job, rs)) == s.objs[key] then s
    else Put(s, key, Updated(s.objs[key], BindingObj(job, rs)))
  }

  function SetStep(s: Store, job: Job, rs: RuleSet): Store {
    BindingStep(RoleStep(s, job, rs), job, rs)
  }

  // The store once the first n rule sets are in place.
  function Applied(s: Store, job: Job, n: nat): Store
    requires n <= |job.sets|
  {
    if n == 0 then s else SetStep(Applied(s, job, n - 1), job, job.sets[n - 1])
  }

  predicate SetsClean(job: Job, n: nat)
    requires n <= |job.sets|
  {
    forall j | 0 <= j < n :: '/' !in job.sets[j].ns
  }

  ghost predicate StoreClean(s: Store) {
    forall k | k in s.objs :: '/' !in k.ns
  }

  predicate OnRole(pc: Pc) { pc.RoleGet? || pc.RoleCreate? || pc.RoleUpdate? }

  // The store while the Role of rs is applied, begun in store a.
  predicate RoleUnderway(a: Store, job: Job, rs: RuleSet, s: Store, pc: Pc)
    requires OnRole(pc)
  {
    && s == a
    && match pc
       case RoleGet(_, n) => n == 1
       case RoleCreate(_) => RoleKey(rs) !in a.objs
       case RoleUpdate(_, _, base) =>
         RoleKey(rs) in a.objs && a.objs[RoleKey(rs)] == base && Updated(base, RoleObj(job, rs)) != base
  }

  // The store while the RoleBinding of rs is applied, begun in store a.
  predicate BindingUnderway(a: Store, job: Job, rs: RuleSet, s: Store, pc: Pc)
    requires Applying(pc) && !OnRole(pc)
  {
    var key := BindingKey(rs);
    && '/' !in rs.ns
    && (if pc.BindingRecreate? then s == a.(objs := a.objs - {key}) else s == a)
    && match pc
       case BindingGet(_, n) => n == 1
       case BindingCreate(_) => key !in a.objs
       case BindingDelete(_) => key in a.objs && Drifted(a.objs[key], rs)
       case BindingRecreate(_) => key in a.objs && Drifted(a.objs[key], rs)
       case BindingUpdate(_, _, base) =>
         && key in a.objs && a.objs[key] == base && !Drifted(base, rs) && Updated(base, BindingObj(job, rs)) != base
  }

  // The store while pc applies rule sets, given the store s0 the call began with.
  predicate Underway(s0: Store, job: Job, s: Store, pc: Pc)
    requires Applying(pc) && pc.i < |job.sets|
  {
    var a, rs := Applied(s0, job, pc.i), job.sets[pc.i];
    && SetsClean(job, pc.i)
    && if OnRole(pc) then RoleUnderway(a, job, rs, s, pc) else BindingUnderway(RoleStep(a, job, rs), job, rs, s, pc)
  }

  lemma Replace(s: Store, key: Key, obj: Obj)
    requires key in s.objs
    ensures Put(s.(objs := s.objs - {key}), key, obj) == Put(s, key, obj)
  {
    var rv := TickOf(s, key);
    assert (s.objs - {key})[key := obj.(rv := rv)] == s.objs[key := obj.(rv := rv)];
  }

  // One call for the Role: it fails and changes nothing, or goes on.
  lemma RoleCall(a: Store, job: Job, s: Store, pc: Pc, o: Oracle)
    requires OnRole(pc) && pc.i < |job.sets| && RoleUnderway(a, job, job.sets[pc.i], s, pc) && StoreClean(s)
    ensures var rs := job.sets[pc.i];
            var (s', p') := Step(s, At(job, pc), o);
            || (s' == s && p' == Fin([ApplyFailed(RoleKey(rs))]))
            || (p'.At? && OnRole(p'.pc) && p'.pc.i == pc.i && RoleUnderway(a, job, rs, s', p'.pc))
            || (p' == At(job, BindingGet(pc.i, 1)) && s' == RoleStep(a, job, rs) && '/' !in rs.ns)
  {}

  // One call for the RoleBinding: it fails and changes nothing, goes on, or completes the set.
  lemma BindingCall(a: Store, job: Job, s: Store, pc: Pc, o: Oracle)
    requires Applying(pc) && !OnRole(pc) && pc.i < |job.sets| && BindingUnderway(a, job, job.sets[pc.i], s, pc)
    ensures var rs := job.sets[pc.i];
            var (s', p') := Step(s, At(job, pc), o);
            || (s' == s && p' == Fin([ApplyFailed(BindingKey(rs))]))
            || (p'.At? && Applying(p'.pc) && !OnRole(p'.pc) && p'.pc.i == pc.i && BindingUnderway(a, job, rs, s', p'.pc))
            || (p' == ApplyFrom(job, pc.i + 1) && s' == BindingStep(a, job, rs))
  {
    if pc.BindingRecreate? {
      Replace(a, BindingKey(job.sets[pc.i]), BindingObj(job, job.sets[pc.i]));
    }
  }

  // ---- The sweep -----------------------------------------------------------------------------------

  // What a sweep begun in store a is to remove: labelled for the owner, and not wanted.
  function Doomed(a: Store, job: Job): set<Key> {
    set k | k in a.objs && Matches(a.objs[k].labels, ManagedLabels(job.owner)) && !Kept(job, k)
  }

  predicate Failed(errs: seq<Failure>, k: Key) {
    ListFailed(k.kind) in errs || DeleteFailed(k) in errs
  }

  // What the sweep has not removed of the things it should: not reached yet, or failed.
  predicate Spared(p: Proc, k: Key)
    requires p.At? ==> !Applying(p.pc)
  {
    match p
    case Fin(errs) => Failed(errs, k)
    case At(_, SweepList(kind, errs)) => k.kind.BindingKind? || kind.RoleKind? || Failed(errs, k)
    case At(_, Sweep(kind, todo, errs)) =>
      if k.kind == kind then k in todo || Failed(errs, k) else k.kind.BindingKind? || Failed(errs, k)
  }

  // No failure has been reported yet for what is still to be swept.
  ghost predicate Ahead(doomed: set<Key>, p: Proc)
    requires p.At? ==> !Applying(p.pc)
  {
    match p
    case Fin(_) => true
    case At(_, SweepList(kind, errs)) =>
      forall k: Key | k.kind == kind || k.kind.BindingKind? :: !Failed(errs, k)
    case At(_, Sweep(kind, todo, errs)) =>
      && todo != []
      && (forall i, j | 0 <= i < j < |todo| :: todo[i] != todo[j])
      && (forall k | k in todo :: k.kind == kind && k in doomed && !Failed(errs, k))
      && (forall k: Key | kind.RoleKind? && k.kind.BindingKind? :: !Failed(errs, k))
  }

  // The sweep that began in store a, to remove doomed, stands in store s.
  ghost predicate Sweeping(a: Store, doomed: set<Key>, s: Store, p: Proc)
    requires p.At? ==> !Applying(p.pc)
  {
    && s.ticks == a.ticks
    && (forall k | k in s.objs :: k in a.objs && s.objs[k] == a.objs[k])
    && (forall k | k in a.objs :: k in s.objs <==> k !in doomed || Spared(p, k))
    && Ahead(doomed, p)
  }

  lemma {:induction false} UnwantedExact(job: Job, keys: seq<Key>)
    ensures forall k :: k in Unwanted(job, keys) <==> k in keys && !Kept(job, k)
    ensures (forall i, j | 0 <= i < j < |keys| :: keys[i] != keys[j]) ==>
              forall i, j | 0 <= i < j < |Unwanted(job, keys)| :: Unwanted(job, keys)[i] != Unwanted(job, keys)[j]
  {
    if keys != [] {
      UnwantedExact(job, keys[1..]);
    }
  }

  // What a listing leaves to delete is what is doomed and still there.
  lemma ListedDoomed(a: Store, job: Job, s: Store, kind: Kind, errs: seq<Failure>, order: seq<Key>)
    requires Sweeping(a, Doomed(a, job), s, At(job, SweepList(kind, errs)))
    requires Lists(s, kind, ManagedLabels(job.owner), order)
    ensures var todo := Unwanted(job, order);
            && (forall k :: k in todo <==> k in s.objs && k in Doomed(a, job) && k.kind == kind)
            && (forall i, j | 0 <= i < j < |todo| :: todo[i] != todo[j])
  {
    UnwantedExact(job, order);
  }

  lemma SweepListCall(a: Store, job: Job, s: Store, kind: Kind, errs: seq<Failure>, o: Oracle)
    requires Sweeping(a, Doomed(a, job), s, At(job, SweepList(kind, errs)))
    ensures var (s', p') := Step(s, At(job, SweepList(kind, errs)), o);
            Sweeping(a, Doomed(a, job), s', p')
  {
    if o.Answer? && Lists(s, kind, ManagedLabels(job.owner), o.order) {
      ListedDoomed(a, job, s, kind, errs, o.order);
      ListedSweep(a, Doomed(a, job), job, s, kind, errs, Unwanted(job, o.order));
    } else {
      UnlistedSweep(a, Doomed(a, job), job, s, kind, errs);
    }
  }

  lemma ListedSweep(a: Store, doomed: set<Key>, job: Job, s: Store, kind: Kind, errs: seq<Failure>, todo: seq<Key>)
    requires Sweeping(a, doomed, s, At(job, SweepList(kind, errs)))
    requires forall k :: k in todo <==> k in s.objs && k in doomed && k.kind == kind
    requires forall i, j | 0 <= i < j < |todo| :: todo[i] != todo[j]
    ensures Sweeping(a, doomed, s, SweepFrom(job, kind, todo, errs))
  {}

  lemma UnlistedSweep(a: Store, doomed: set<Key>, job: Job, s: Store, kind: Kind, errs: seq<Failure>)
    requires Sweeping(a, doomed, s, At(job, SweepList(kind, errs)))
    ensures Sweeping(a, doomed, s, SweepFrom(job, kind, [], errs + [ListFailed(kind)]))
  {
    var errs' := errs + [ListFailed(kind)];
    assert forall k: Key :: Failed(errs', k) <==> Failed(errs, k) || k.kind == kind;
  }

  lemma RemovedSweep(a: Store, doomed: set<Key>, job: Job, s: Store, kind: Kind, todo: seq<Key>, errs: seq<Failure>)
    requires todo != [] && Sweeping(a, doomed, s, At(job, Sweep(kind, todo, errs)))
    ensures Sweeping(a, doomed, s.(objs := s.objs - {todo[0]}), SweepFrom(job, kind, todo[1..], errs))
  {
    var gone := todo[0];
    assert gone in todo && forall k :: k in todo <==> k == gone || k in todo[1..];
    assert forall k :: k in todo[1..] ==> k != gone;
  }

  lemma StuckSweep(a: Store, doomed: set<Key>, job: Job, s: Store, kind: Kind, todo: seq<Key>, errs: seq<Failure>)
    requires todo != [] && Sweeping(a, doomed, s, At(job, Sweep(kind, todo, errs)))
    ensures Sweeping(a, doomed, s, SweepFrom(job, kind, todo[1..], errs + [DeleteFailed(todo[0])]))
  {
    var gone := todo[0];
    assert gone in todo && forall k :: k in todo <==> k == gone || k in todo[1..];
    var errs' := errs + [DeleteFailed(gone)];
    assert forall k: Key :: Failed(errs', k) <==> Failed(errs, k) || k == gone;
    assert forall k :: k in todo[1..] ==> k != gone;
  }

  lemma SweepDeleteCall(a: Store, doomed: set<Key>, job: Job, s: Store, kind: Kind, todo: seq<Key>,
                        errs: seq<Failure>, o: Oracle)
    requires todo != [] && Sweeping(a, doomed, s, At(job, Sweep(kind, todo, errs)))
    ensures var (s', p') := Step(s, At(job, Sweep(kind, todo, errs)), o);
            Sweeping(a, doomed, s', p')
  {
    assert todo[0] in todo;
    if o.Answer? {
      RemovedSweep(a, doomed, job, s, kind, todo, errs);
    } else {
      StuckSweep(a, doomed, job, s, kind, todo, errs);
    }
  }

  // ---- Tracking a run ----------------------------------------------------------------------------------

  // A failed call for rule set pc.i ended the run before any sweep.
  ghost predicate Broken(s0: Store, job: Job, s: Store, errs: seq<Failure>) {
    && |errs| == 1 && errs[0].ApplyFailed?
    && exists pc :: Applying(pc) && pc.i < |job.sets| && Underway(s0, job, s, pc)
  }

  ghost predicate Swept(s0: Store, job: Job, s: Store, p: Proc)
    requires p.At? ==> !Applying(p.pc)
  {
    var a := Applied(s0, job, |job.sets|);
    SetsClean(job, |job.sets|) && (p.At? ==> p.job == job) && Sweeping(a, Doomed(a, job), s, p)
  }

  // Where a run of the job that began in s0 can stand.
  ghost predicate Tracked(s0: Store, job: Job, s: Store, p: Proc) {
    if p.At? && Applying(p.pc) then p.job == job && p.pc.i < |job.sets| && Underway(s0, job, s, p.pc)
    else (p.Fin? && Broken(s0, job, s, p.errs)) || Swept(s0, job, s, p)
  }

  lemma TrackedNext(s0: Store, job: Job, i: nat)
    requires i <= |job.sets| && SetsClean(job, i)
    ensures Tracked(s0, job, Applied(s0, job, i), ApplyFrom(job, i))
  {
    if i == |job.sets| {
      assert Swept(s0, job, Applied(s0, job, i), ApplyFrom(job, i));
    } else {
      assert Underway(s0, job, Applied(s0, job, i), RoleGet(i, 1));
    }
  }

  lemma BrokenTracked(s0: Store, job: Job, s: Store, pc: Pc, key: Key)
    requires Applying(pc) && pc.i < |job.sets| && Underway(s0, job, s, pc)
    ensures Tracked(s0, job, s, Fin([ApplyFailed(key)]))
  {
    assert Broken(s0, job, s, [ApplyFailed(key)]);
  }

  lemma RoleTracked(s0: Store, job: Job, s: Store, pc: Pc, s': Store, p': Proc)
    requires OnRole(pc) && pc.i < |job.sets| && Underway(s0, job, s, pc)
    requires var a, rs := Applied(s0, job, pc.i), job.sets[pc.i];
      || (s' == s && p' == Fin([ApplyFailed(RoleKey(rs))]))
      || (p'.At? && p'.job == job && OnRole(p'.pc) && p'.pc.i == pc.i && RoleUnderway(a, job, rs, s', p'.pc))
      || (p' == At(job, BindingGet(pc.i, 1)) && s' == RoleStep(a, job, rs) && '/' !in rs.ns)
    ensures Tracked(s0, job, s', p')
  {
    BrokenTracked(s0, job, s, pc, RoleKey(job.sets[pc.i]));
  }

  lemma BindingTracked(s0: Store, job: Job, s: Store, pc: Pc, s': Store, p': Proc)
    requires Applying(pc) && !OnRole(pc) && pc.i < |job.sets| && Underway(s0, job, s, pc)
    requires var a, rs := RoleStep(Applied(s0, job, pc.i), job, job.sets[pc.i]), job.sets[pc.i];
      || (s' == s && p' == Fin([ApplyFailed(BindingKey(rs))]))
      || (p'.At? && p'.job == job && Applying(p'.pc) && !OnRole(p'.pc) && p'.pc.i == pc.i
          && BindingUnderway(a, job, rs, s', p'.pc))
    ensures Tracked(s0, job, s', p')
  {
    BrokenTracked(s0, job, s, pc, BindingKey(job.sets[pc.i]));
  }

  lemma AppliedUp(s0: Store, job: Job, i: nat)
    requires i < |job.sets|
    ensures Applied(s0, job, i + 1) == SetStep(Applied(s0, job, i), job, job.sets[i])
  {}

  lemma SetTracked(s0: Store, job: Job, i: nat)
    requires i < |job.sets| && SetsClean(job, i) && '/' !in job.sets[i].ns
    ensures Tracked(s0, job, SetStep(Applied(s0, job, i), job, job.sets[i]), ApplyFrom(job, i + 1))
  {
    AppliedUp(s0, job, i);
    TrackedNext(s0, job, i + 1);
  }

  // What BindingCall gives, in terms of the run.
  lemma BindingStepTracked(s0: Store, job: Job, s: Store, pc: Pc, o: Oracle)
    requires Applying(pc) && !OnRole(pc) && pc.i < |job.sets| && Underway(s0, job, s, pc)
    ensures Tracked(s0, job, Step(s, At(job, pc), o).0, Step(s, At(job, pc), o).1)
  {
    var b, rs := RoleStep(Applied(s0, job, pc.i), job, job.sets[pc.i]), job.sets[pc.i];
    var (s', p') := Step(s, At(job, pc), o);
    BindingCall(b, job, s, pc, o);
    SetTracked(s0, job, pc.i);
    if p' != ApplyFrom(job, pc.i + 1) || s' != BindingStep(b, job, rs) {
      BindingTracked(s0, job, s, pc, s', p');
    }
  }

  lemma ApplyTracked(s0: Store, job: Job, s: Store, pc: Pc, o: Oracle)
    requires Applying(pc) && pc.i < |job.sets| && Underway(s0, job, s, pc) && StoreClean(s)
    ensures Tracked(s0, job, Step(s, At(job, pc), o).0, Step(s, At(job, pc), o).1)
  {
    var a := Applied(s0, job, pc.i);
    var (s', p') := Step(s, At(job, pc), o);
    if OnRole(pc) {
      RoleCall(a, job, s, pc, o);
      RoleTracked(s0, job, s, pc, s', p');
    } else {
      BindingStepTracked(s0, job, s, pc, o);
    }
  }

  lemma SweepTracked(s0: Store, job: Job, s: Store, p: Proc, o: Oracle)
    requires Calls(p) && !Applying(p.pc) && Swept(s0, job, s, p)
    ensures Swept(s0, job, Step(s, p, o).0, Step(s, p, o).1)
  {
    var a := Applied(s0, job, |job.sets|);
    match p.pc
    case SweepList(kind, errs) => SweepListCall(a, job, s, kind, errs, o);
    case Sweep(kind, todo, errs) => SweepDeleteCall(a, Doomed(a, job), job, s, kind, todo, errs, o);
  }

  lemma ExecClean(s: Store, c: Call, o: Oracle)
    requires StoreClean(s)
    ensures StoreClean(Exec(s, c, o).0)
  {}

  lemma {:induction false} RunTracked(s0: Store, job: Job, s: Store, p: Proc, os: seq<Oracle>)
    requires Calls(p) || p.Fin?
    requires StoreClean(s) && Tracked(s0, job, s, p)
    ensures StoreClean(Run(s, p, os).0) && Tracked(s0, job, Run(s, p, os).0, Run(s, p, os).1)
    decreases |os|
  {
    if os != [] && !p.Fin? {
      ExecClean(s, Next(p), os[0]);
      if Applying(p.pc) {
        ApplyTracked(s0, job, s, p.pc, os[0]);
      } else {
        SweepTracked(s0, job, s, p, os[0]);
      }
      var (s', p') := Step(s, p, os[0]);
      RunTracked(s0, job, s', p', os[1..]);
    }
  }

  lemma CallTracked(s0: Store, job: Job, os: seq<Oracle>)
    requires StoreClean(s0) && ValidJob(job)
    ensures StoreClean(Run(s0, ApplyStart(job), os).0)
    ensures Tracked(s0, job, Run(s0, ApplyStart(job), os).0, Run(s0, ApplyStart(job), os).1)
  {
    TrackedNext(s0, job, 0);
    RunTracked(s0, job, s0, ApplyStart(job), os);
  }

  lemma TeardownTracked(s0: Store, owner: OwnerLabel, os: seq<Oracle>)
    requires StoreClean(s0)
    ensures var job := TeardownStart(owner).job;
      && StoreClean(Run(s0, TeardownStart(owner), os).0)
      && Tracked(s0, job, Run(s0, TeardownStart(owner), os).0, Run(s0, TeardownStart(owner), os).1)
  {
    TrackedNext(s0, TeardownStart(owner).job, 0);
    RunTracked(s0, TeardownStart(owner).job, s0, TeardownStart(owner), os);
  }
}
