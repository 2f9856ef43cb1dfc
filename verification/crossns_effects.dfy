// What Apply and Teardown do, told by the labels, names and grants a cluster administrator sees.
module CrossnsEffects {
  import opened Strings
  import opened Rbac
  import opened CrossnsProgram
  import opened CrossnsApply
  import opened CrossnsCalls

  // ---- Vocabulary -------------------------------------------------------------------------------

  // The object carries the managed label and, where the owner has a key, the owner's label.
  predicate Marked(obj: Obj, owner: OwnerLabel) {
    && "operator-rbac-toolkit.io/crossns-managed" in obj.labels
    && obj.labels["operator-rbac-toolkit.io/crossns-managed"] == "true"
    && (owner.key != "" ==> owner.key in obj.labels && obj.labels[owner.key] == owner.value)
  }

  // An owner that does not take the managed label for its own with another value.
  predicate Proper(owner: OwnerLabel) {
    owner.key == "operator-rbac-toolkit.io/crossns-managed" ==> owner.value == "true"
  }

  predicate MarkedAt(s: Store, owner: OwnerLabel, k: Key) {
    k in s.objs && Marked(s.objs[k], owner)
  }

  lemma MarkedMatches(owner: OwnerLabel, obj: Obj)
    requires Proper(owner)
    ensures Matches(obj.labels, ManagedLabels(owner)) <==> Marked(obj, owner)
  {
    assert MANAGED_KEY in ManagedLabels(owner) && ManagedLabels(owner)[MANAGED_KEY] == "true";
    assert owner.key != "" ==> owner.key in ManagedLabels(owner) && ManagedLabels(owner)[owner.key] == owner.value;
  }

  // What the owner's sweeps take for its own are the marked objects, if and only if its key is
  // not the managed label with another value.
  lemma OwnedMeansMarked(owner: OwnerLabel)
    ensures (forall s, k :: Owned(s, owner, k) <==> MarkedAt(s, owner, k)) <==> Proper(owner)
  {
    if Proper(owner) {
      forall s, k ensures Owned(s, owner, k) <==> MarkedAt(s, owner, k) {
        if k in s.objs {
          MarkedMatches(owner, s.objs[k]);
        }
      }
    } else {
      ReservedKey(owner.value);
    }
  }

  // With the managed label as its key, an owner takes for its own an object that is not managed.
  lemma ReservedKey(value: string)
    requires value != "true"
    ensures var owner := OwnerLabel("operator-rbac-toolkit.io/crossns-managed", value);
            var k := Key(RoleKind, "team", "reader");
            var s := Store(map[k := Obj(map["operator-rbac-toolkit.io/crossns-managed" := value], Rules([]), 0)], map[]);
            Owned(s, owner, k) && !MarkedAt(s, owner, k)
  {}

  // The call names k: as the Role of one of its rule sets, or as the binding beside it.
  predicate Names(job: Job, k: Key) {
    exists rs | rs in job.sets :: k == Key(RoleKind, rs.ns, rs.roleName) || k == Key(BindingKind, rs.ns, rs.roleName + "-binding")
  }

  lemma NamesIff(job: Job, k: Key)
    ensures Names(job, k) <==> Wanted(job, k).Some?
  {
    WantedIff(job, |job.sets|, k);
    if rs :| rs in job.sets && (k == RoleKey(rs) || k == BindingKey(rs)) {
      var j :| 0 <= j < |job.sets| && job.sets[j] == rs;
    }
    if j :| 0 <= j < |job.sets| && (k == RoleKey(job.sets[j]) || k == BindingKey(job.sets[j])) {
      assert job.sets[j] in job.sets;
    }
  }

  // ---- What is never touched ----------------------------------------------------------------------

  // A call that is refused: nobody to grant to, or a rule set without a name or a namespace.
  predicate Malformed(job: Job) {
    job.subject.name == "" || exists rs | rs in job.sets :: rs.roleName == "" || rs.ns == ""
  }

  lemma InvalidStep(p: Proc, r: Reply)
    requires Calls(p) && Invalid !in ErrsOf(p)
    ensures Invalid !in ErrsOf(Resume(p, r))
  {}

  lemma {:induction false} NeverInvalid(s: Store, p: Proc, os: seq<Oracle>)
    requires (Calls(p) || p.Fin?) && Invalid !in ErrsOf(p)
    ensures Invalid !in ErrsOf(Run(s, p, os).1)
    decreases |os|
  {
    if os != [] && !p.Fin? {
      InvalidStep(p, Exec(s, Next(p), os[0]).1);
      NeverInvalid(Step(s, p, os[0]).0, Step(s, p, os[0]).1, os[1..]);
    }
  }

  // Such an Apply reports it and does nothing; no other Apply reports it.
  lemma RefusedIffMalformed(s: Store, job: Job, os: seq<Oracle>)
    ensures Malformed(job) ==> Run(s, ApplyStart(job), os) == (s, Fin([Invalid]))
    ensures !Malformed(job) ==> ValidJob(job) && Run(s, ApplyStart(job), os).1 != Fin([Invalid])
  {
    if !Malformed(job) {
      NeverInvalid(s, ApplyStart(job), os);
      assert Invalid in [Invalid];
    }
  }

  // Whatever the replies and however far a call got: an object it does not name and that is not
  // marked for its owner is exactly as it was.
  lemma SparesOthers(s: Store, c: Invocation, k: Key)
    requires StoreClean(s) && Proper(c.job.owner)
    requires !MarkedAt(s, c.job.owner, k) && (c.teardown || !Names(c.job, k))
    ensures Same(s, Run(s, Begin(c), c.os).0, k)
  {
    OwnedMeansMarked(c.job.owner);
    assert Owned(s, c.job.owner, k) <==> MarkedAt(s, c.job.owner, k);
    InvocationTracked(s, c);
    NamesIff(c.job, k);
    var (s', p) := Run(s, Begin(c), c.os);
    if (s', p) != (s, Fin([Invalid])) {
      TrackedFrame(s, Request(c), s', p, k);
    }
  }

  // An object the call names never goes missing either, but for a binding with another roleRef
  // than the wanted one, which has to be replaced.
  lemma KeepsNamed(s: Store, job: Job, os: seq<Oracle>, k: Key)
    requires StoreClean(s) && Names(job, k) && k in s.objs
    ensures var s' := Run(s, ApplyStart(job), os).0;
            k !in s'.objs ==>
              k.kind.BindingKind?
              && exists rs | rs in job.sets :: k == Key(BindingKind, rs.ns, rs.roleName + "-binding")
                   && s.objs[k].body != Grant(RoleRef("rbac.authorization.k8s.io", "Role", rs.roleName), GranteesOf(s.objs[k]))
  {
    NamesIff(job, k);
    if ValidJob(job) {
      SweepComesLast(s, job, os);
      if k !in Run(s, ApplyStart(job), os).0.objs {
        ReplacedNamed(s, job, k);
      }
    }
  }

  function GranteesOf(obj: Obj): seq<Subject> {
    match obj.body
    case Grant(_, subjects) => subjects
    case Rules(_) => []
  }

  lemma ReplacedNamed(s: Store, job: Job, k: Key)
    requires k in s.objs && Wanted(job, k).Some? && Replaced(s.objs[k], Wanted(job, k).value)
    ensures exists rs | rs in job.sets :: k == BindingKey(rs) && s.objs[k].body != Grant(RefTo(rs), GranteesOf(s.objs[k]))
    ensures k.kind.BindingKind?
  {
    WantedIff(job, |job.sets|, k);
    var j :| 0 <= j < |job.sets| && (k == RoleKey(job.sets[j]) || k == BindingKey(job.sets[j]));
    if k == RoleKey(job.sets[j]) {
      RoleWanted(job, |job.sets|, job.sets[j]);
    }
    OneRef(job, |job.sets|, k, job.sets[j]);
    assert job.sets[j] in job.sets;
  }

  // ---- What a call that returns nil leaves ------------------------------------------------------------

  // The Role roleName for one service account and nobody else.
  predicate GrantsRole(obj: Obj, roleName: string, ns: string, name: string) {
    && obj.body.Grant?
    && obj.body.ref.apiGroup == "rbac.authorization.k8s.io" && obj.body.ref.kind == "Role" && obj.body.ref.name == roleName
    && |obj.body.subjects| == 1 && obj.body.subjects[0].kind == "ServiceAccount"
    && obj.body.subjects[0].ns == ns && obj.body.subjects[0].name == name
  }

  // Rule set j is the last for its Role.
  predicate LastFor(job: Job, j: int) {
    0 <= j < |job.sets| && forall i | j < i < |job.sets| ::
      !(job.sets[i].ns == job.sets[j].ns && job.sets[i].roleName == job.sets[j].roleName)
  }

  // Every rule set has its Role, with the rules of the last rule set for it, and beside it the
  // binding of that Role to the subject alone; both are marked.
  lemma ApplyGrants(s: Store, job: Job, os: seq<Oracle>, j: nat)
    requires StoreClean(s) && Proper(job.owner) && Run(s, ApplyStart(job), os).1 == Fin([]) && j < |job.sets|
    ensures var s' := Run(s, ApplyStart(job), os).0;
            var rs := job.sets[j];
            var (role, binding) := (Key(RoleKind, rs.ns, rs.roleName), Key(BindingKind, rs.ns, rs.roleName + "-binding"));
            && MarkedAt(s', job.owner, role) && MarkedAt(s', job.owner, binding)
            && (LastFor(job, j) ==> s'.objs[role].body == Rules(rs.rules))
            && GrantsRole(s'.objs[binding], rs.roleName, job.subject.ns, job.subject.name)
  {
    var s' := Run(s, ApplyStart(job), os).0;
    var rs := job.sets[j];
    CallTracked(s, job, os);
    WantedIff(job, |job.sets|, RoleKey(rs));
    WantedIff(job, |job.sets|, BindingKey(rs));
    OneRef(job, |job.sets|, BindingKey(rs), rs);
    SweptHasWanted(s, job, s', Fin([]), RoleKey(rs));
    SweptHasWanted(s, job, s', Fin([]), BindingKey(rs));
    OwnedMeansMarked(job.owner);
    assert Owned(s', job.owner, RoleKey(rs)) && Owned(s', job.owner, BindingKey(rs));
    if LastFor(job, j) {
      LastWins(job, |job.sets|, j);
    }
  }

  lemma {:induction false} LastWins(job: Job, n: nat, j: nat)
    requires j < n <= |job.sets| && LastFor(job, j)
    ensures WantedBy(job, n, RoleKey(job.sets[j])) == Some(Rules(job.sets[j].rules))
  {
    if j < n - 1 {
      LastWins(job, n - 1, j);
    }
  }

  // Nothing else marked for the owner survives, but for bindings that carry the name of a
  // wanted Role without the suffix.
  lemma ApplySweeps(s: Store, job: Job, os: seq<Oracle>, k: Key)
    requires StoreClean(s) && Proper(job.owner) && Run(s, ApplyStart(job), os).1 == Fin([])
    requires MarkedAt(Run(s, ApplyStart(job), os).0, job.owner, k) && !Names(job, k)
    ensures k.kind.BindingKind? && Names(job, Key(RoleKind, k.ns, k.name))
  {
    var s' := Run(s, ApplyStart(job), os).0;
    CallTracked(s, job, os);
    SweptSettles(s, job, s', [], k);
    NamesIff(job, k);
    NamesIff(job, Key(RoleKind, k.ns, k.name));
    OwnedMeansMarked(job.owner);
    assert Owned(s', job.owner, k) && (Owned(s, job.owner, k) <==> MarkedAt(s, job.owner, k));
  }

  // A finished Teardown leaves none of the marked objects whose listing and deletion worked, and
  // every other object exactly as it was.
  lemma TeardownRemovesMarked(s: Store, owner: OwnerLabel, os: seq<Oracle>, k: Key)
    requires StoreClean(s) && Proper(owner) && Run(s, TeardownStart(owner), os).1.Fin?
    ensures var (s', p') := Run(s, TeardownStart(owner), os);
            if MarkedAt(s, owner, k) && ListFailed(k.kind) !in p'.errs && DeleteFailed(k) !in p'.errs
            then k !in s'.objs else Same(s, s', k)
  {
    TeardownExact(s, owner, os, k);
    OwnedMeansMarked(owner);
    assert Owned(s, owner, k) <==> MarkedAt(s, owner, k);
  }

  // After any sequence of calls whose last returned nil, the marked objects are exactly those
  // that call names.
  lemma MarkedAreNamed(s: Store, owner: OwnerLabel, calls: seq<Invocation>, k: Key)
    requires StoreClean(s) && Proper(owner) && (forall k :: !MarkedAt(s, owner, k)) && forall c | c in calls :: c.job.owner == owner
    requires calls != [] && ResultOf(s, calls) == Fin([])
    ensures var last := calls[|calls| - 1];
            MarkedAt(CrossnsCalls.After(s, calls), owner, k) <==> !last.teardown && Names(last.job, k)
  {
    OwnedMeansMarked(owner);
    forall x ensures !Owned(s, owner, x) {
      assert Owned(s, owner, x) <==> MarkedAt(s, owner, x);
    }
    LastCallWins(s, owner, calls, k);
    NamesIff(calls[|calls| - 1].job, k);
    assert Owned(CrossnsCalls.After(s, calls), owner, k) <==> MarkedAt(CrossnsCalls.After(s, calls), owner, k);
  }

  // ---- Retries ------------------------------------------------------------------------------------------

  // A conflict is answered by reading the object again, for the next try; the fifth is final.
  lemma FifthConflictFails(job: Job, pc: Pc)
    requires (pc.RoleUpdate? || pc.BindingUpdate?) && pc.i < |job.sets|
    ensures var p := At(job, pc);
            var q := Resume(p, Err(Conflict));
            if pc.n < 5
            then Calls(q) && Next(q) == Get(Next(p).key) && (q.pc.RoleGet? || q.pc.BindingGet?) && q.pc.n == pc.n + 1
            else q == Fin([ApplyFailed(Next(p).key)])
  {}
}
