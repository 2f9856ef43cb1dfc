// Convergence of cross-namespace grants: from any reachable store, reconciling every CR once
// and cleaning up once leaves exactly the bindings, owners and grants the CRs ask for.
module ScoperConvergence {
  import opened Strings
  import opened Ownership
  import opened ScoperTypes
  import opened ScoperActors
  import opened ScoperSolo
  import opened ScoperLaws
  import opened ScoperCleanup
  import opened ScoperSystem
  import opened ScoperOwners
  import opened ScoperSafety
  import opened ScoperGrants
  import opened ScoperEffects

  // ---- What holds of the bindings of one target ------------------------------------------------------

  predicate CrossTarget(t: Target) {
    StaticTarget(t) && t.nsField.Some?
  }

  ghost predicate CrossRb(born: map<string, CrId>, t: Target, rb: RoleBinding) {
    && Managed(rb) && rb.roleRef == ExpectedRef(t) && rb.subjects == ExpectedSubjects(t.sa)
    && PENDING_KEY !in rb.annotations
    && EntriesGood(born, Entries(rb)) && Entries(rb) != []
  }

  ghost predicate CrossStore(born: map<string, CrId>, t: Target, s: Store) {
    && (forall id | id in s.crs :: s.crs[id].id == id && CrGood(born, s.crs[id]))
    && (forall k | k in s.rbs && k.name == t.rbName :: CrossRb(born, t, s.rbs[k]))
  }

  // Every store reachable by actors and environment, without tampering, is one.
  lemma ReachableIsCross(cfg: Config, states: seq<Sys>, moves: seq<Move>, n: nat, t: Target)
    requires ConfigOk(cfg) && IsRun(cfg, states, moves) && Init(states[0]) && n < |states|
    requires forall i | 0 <= i < n :: !moves[i].Tampered?
    requires t in cfg.targets && t.nsField.Some?
    ensures CrossTarget(t) && CrossStore(states[n].born, t, states[n].store)
  {
    RunIsSafe(cfg, states, moves, n);
    var s := states[n];
    forall k | k in s.store.rbs && k.name == t.rbName ensures CrossRb(s.born, t, s.store.rbs[k]) {
      SafeIsGood(cfg, s.trace, t, k, s.store.rbs[k]);
    }
  }

  // ---- Reconciling ----------------------------------------------------------------------------------------

  lemma CrossKept(born: map<string, CrId>, t: Target, rb: RoleBinding, rb': RoleBinding, cr: Cr)
    requires CrossRb(born, t, rb) && CrGood(born, cr) && Entries(rb') == Add(Entries(rb), EntryOf(cr))
    requires rb'.labels == rb.labels && rb'.roleRef == rb.roleRef && rb'.subjects == rb.subjects
    requires PENDING_KEY !in rb'.annotations
    ensures CrossRb(born, t, rb')
  {
    AddLaws(Entries(rb), EntryOf(cr));
  }

  lemma EnsureKnown(born: map<string, CrId>, s: Store, t: Target, cr: Cr, ns: string)
    requires CrossTarget(t) && CrossStore(born, t, s) && CrGood(born, cr) && Key(ns, t.rbName) in s.rbs
    ensures EnsureSpec(s, t, cr, ns, t.sa) == EntryStep(s, cr, Key(ns, t.rbName))
  {
    assert CrossRb(born, t, s.rbs[Key(ns, t.rbName)]);
  }

  lemma EnsureNew(born: map<string, CrId>, s: Store, t: Target, cr: Cr, ns: string)
    requires CrossTarget(t) && CrGood(born, cr) && Key(ns, t.rbName) !in s.rbs
    ensures var s' := EnsureSpec(s, t, cr, ns, t.sa);
            Key(ns, t.rbName) in s'.rbs && CrossRb(born, t, s'.rbs[Key(ns, t.rbName)])
  {
    FormatThenParse([EntryOf(cr)]);
  }

  // The effect of one reconcile on the binding it reaches: nothing but one more owner.
  lemma EnsureCross(born: map<string, CrId>, s: Store, t: Target, cr: Cr, ns: string)
    requires CrossTarget(t) && CrossStore(born, t, s) && CrGood(born, cr)
    ensures var s' := EnsureSpec(s, t, cr, ns, t.sa);
            var key := Key(ns, t.rbName);
            && Touches(s, s', key)
            && CrossRb(born, t, s'.rbs[key])
            && Entries(s'.rbs[key]) == Add(EntriesAt(s, key), EntryOf(cr))
  {
    var key := Key(ns, t.rbName);
    EnsureFrame(s, t, cr, ns, t.sa);
    EnsuredEntries(s, t, cr, ns, t.sa);
    if key in s.rbs {
      EnsureKnown(born, s, t, cr, ns);
      assert CrossRb(born, t, s.rbs[key]);
      CrossKept(born, t, s.rbs[key], EntryStep(s, cr, key).rbs[key], cr);
    } else {
      EnsureNew(born, s, t, cr, ns);
    }
  }

  ghost predicate Holds(s: Store, key: Key, e: OwnerEntry) {
    key in s.rbs && e in Entries(s.rbs[key])
  }

  lemma ReconcileCross(born: map<string, CrId>, s: Store, t: Target, deny: DenyList, id: CrId)
    requires CrossTarget(t) && CrossStore(born, t, s)
    ensures var s' := ReconcileSpec(s, t, deny, id).0;
            && SameWorld(s, s') && CrossStore(born, t, s')
            && (forall key, e | Holds(s, key, e) && key.name == t.rbName :: Holds(s', key, e))
            && (Reaches(s, t, deny, id) ==>
                  Holds(s', Key(TargetNs(t, s.crs[id]).value, t.rbName), EntryOf(s.crs[id])))
  {
    ReconcileIs(s, t, deny, id);
    if Reaches(s, t, deny, id) {
      var cr := s.crs[id];
      var ns := TargetNs(t, cr).value;
      EnsureCross(born, s, t, cr, ns);
      var s' := EnsureSpec(s, t, cr, ns, t.sa);
      var key := Key(ns, t.rbName);
      OwnerHeld(born, EntriesAt(s, key), cr);
      forall k | k in s'.rbs && k.name == t.rbName ensures CrossRb(born, t, s'.rbs[k]) {
        if k != key { assert s'.rbs[k] == s.rbs[k]; }
      }
      forall k, e | Holds(s, k, e) && k.name == t.rbName ensures Holds(s', k, e) {
        if k != key { assert s'.rbs[k] == s.rbs[k]; }
      }
    }
  }

  // With true entries, an owner with the UID of cr is the entry of cr.
  lemma OwnerHeld(born: map<string, CrId>, es: seq<OwnerEntry>, cr: Cr)
    requires CrGood(born, cr) && EntriesGood(born, es)
    ensures EntryOf(cr) in Add(es, EntryOf(cr))
  {
    if cr.uid in Uids(es) {
      var e :| e in es && e.uid == cr.uid;
      assert e == EntryOf(cr);
    }
  }

  lemma {:induction false} ReconcilesCross(born: map<string, CrId>, s: Store, t: Target, deny: DenyList, ids: seq<CrId>)
    requires CrossTarget(t) && CrossStore(born, t, s)
    ensures var s' := Reconciles(s, t, deny, ids);
            && SameWorld(s, s') && CrossStore(born, t, s')
            && (forall key, e | Holds(s, key, e) && key.name == t.rbName :: Holds(s', key, e))
            && (forall id | id in ids && Reaches(s, t, deny, id) ::
                  Holds(s', Key(TargetNs(t, s.crs[id]).value, t.rbName), EntryOf(s.crs[id])))
    decreases |ids|
  {
    if ids != [] {
      var s1 := ReconcileSpec(s, t, deny, ids[0]).0;
      ReconcileCross(born, s, t, deny, ids[0]);
      ReconcilesCross(born, s1, t, deny, ids[1..]);
      forall id | id in ids && Reaches(s, t, deny, id)
        ensures Holds(Reconciles(s, t, deny, ids), Key(TargetNs(t, s.crs[id]).value, t.rbName), EntryOf(s.crs[id]))
      {
        if id == ids[0] {
          assert Holds(s1, Key(TargetNs(t, s.crs[id]).value, t.rbName), EntryOf(s.crs[id]));
        } else {
          assert id in ids[1..];
          ReachesStable(s, s1, t, deny, id);
        }
      }
    }
  }

  // ---- Cleaning up ----------------------------------------------------------------------------------------------

  // The CRs that ask for a grant in ns.
  ghost predicate Asks(s: Store, t: Target, ns: string, cr: Cr) {
    cr.id in s.crs && s.crs[cr.id] == cr && cr.id.gvk == t.gvk && TargetNs(t, cr) == Some(ns)
  }

  lemma LiveMeansAsking(born: map<string, CrId>, s: Store, t: Target, ns: string, e: OwnerEntry)
    requires CrossTarget(t) && CrossStore(born, t, s)
    ensures OwnerLive(s, t, e, ns) <==> exists cr :: Asks(s, t, ns, cr) && EntryOf(cr) == e
  {
    var id := CrId(t.gvk, e.ns, e.name);
    if OwnerLive(s, t, e, ns) {
      assert Asks(s, t, ns, s.crs[id]) && EntryOf(s.crs[id]) == e;
    }
    if cr :| Asks(s, t, ns, cr) && EntryOf(cr) == e {
      assert cr.id == id;
    }
  }

  // The bindings of t after a full pass are as after the pass over t alone.
  lemma {:induction false} CleanedElsewhere(s: Store, ts: seq<Target>, now: nat, s': Store, key: Key)
    requires CleanedAll(s, ts, now, s') && forall u | u in ts :: u.rbName != key.name
    ensures SameWorld(s, s') && Same(s, s', key)
    decreases |ts|
  {
    if ts != [] {
      var mid :| Cleaned(s, ts[0], now, mid) && CleanedAll(mid, ts[1..], now, s');
      assert ts[0] in ts;
      CleanedElsewhere(mid, ts[1..], now, s', key);
    }
  }

  ghost predicate NamesDistinct(ts: seq<Target>) {
    forall i, j | 0 <= i < j < |ts| :: ts[i].rbName != ts[j].rbName
  }

  lemma {:induction false} CleanedOnce(s: Store, ts: seq<Target>, now: nat, s': Store, t: Target, key: Key)
    requires CleanedAll(s, ts, now, s') && NamesDistinct(ts) && t in ts && key.name == t.rbName
    ensures SameWorld(s, s')
    ensures key in s.rbs && Managed(s.rbs[key]) ==> Ruled(s, s', key, VerdictOn(s, t, now, key, s.rbs[key]))
    ensures key !in s.rbs ==> key !in s'.rbs
    decreases |ts|
  {
    var mid :| Cleaned(s, ts[0], now, mid) && CleanedAll(mid, ts[1..], now, s');
    if ts[0].rbName == key.name {
      assert forall u | u in ts[1..] :: u.rbName != key.name;
      assert t == ts[0] by {
        var i :| 0 <= i < |ts| && ts[i] == t;
        if i != 0 { assert ts[0].rbName != ts[i].rbName; }
      }
      CleanedElsewhere(mid, ts[1..], now, s', key);
    } else {
      assert t in ts[1..];
      CleanedOnce(mid, ts[1..], now, s', t, key);
      assert Same(s, mid, key);
      if key in s.rbs {
        VerdictWorld(s, mid, t, now, key, s.rbs[key]);
      }
    }
  }

  lemma PrunedEntries(s: Store, t: Target, ns: string, rb: RoleBinding, rv: nat)
    ensures var live := LiveOnes(s, t, ns, Entries(rb));
            live != [] ==> Entries(WithEntries(rb, live).(rv := rv)) == live
  {
    ParsedAreCarried(Ann(rb, OWNERS_KEY));
    LiveOnesShort(s, t, ns, Entries(rb));
    FormatThenParse(LiveOnes(s, t, ns, Entries(rb)));
  }

  // What cleanup leaves at one binding of a cross-namespace target.
  lemma AfterCleanup(born: map<string, CrId>, s: Store, ts: seq<Target>, now: nat, s': Store, t: Target, ns: string)
    requires CrossTarget(t) && CrossStore(born, t, s) && CleanedAll(s, ts, now, s') && NamesDistinct(ts) && t in ts
    ensures var key := Key(ns, t.rbName);
            && SameWorld(s, s')
            && (key in s'.rbs ==>
                  && key in s.rbs && Entries(s'.rbs[key]) != []
                  && s'.rbs[key].roleRef == ExpectedRef(t) && s'.rbs[key].subjects == ExpectedSubjects(t.sa)
                  && forall e :: e in Entries(s'.rbs[key]) <==> e in Entries(s.rbs[key]) && OwnerLive(s, t, e, ns))
            && ((exists e :: Holds(s, key, e) && OwnerLive(s, t, e, ns)) ==> key in s'.rbs)
  {
    var key := Key(ns, t.rbName);
    CleanedOnce(s, ts, now, s', t, key);
    if key in s.rbs {
      var rb := s.rbs[key];
      assert CrossRb(born, t, rb);
      LiveOnesShort(s, t, ns, Entries(rb));
      if key in s'.rbs {
        PrunedEntries(s, t, ns, rb, s'.rbs[key].rv);
      }
    }
  }

  // ---- The theorem ---------------------------------------------------------------------------------------------------

  lemma {:induction false} CleanupNamesDistinct(ts: seq<Target>)
    requires NamesDistinct(ts)
    ensures NamesDistinct(CleanupTargets(ts))
  {
    if ts != [] {
      assert forall i, j | 0 <= i < j < |ts[1..]| :: ts[1..][i].rbName != ts[1..][j].rbName;
      CleanupNamesDistinct(ts[1..]);
      CleanupTargetsExact(ts[1..]);
      assert forall u | u in CleanupTargets(ts[1..]) :: u.rbName != ts[0].rbName by {
        forall u | u in CleanupTargets(ts[1..]) ensures u.rbName != ts[0].rbName {
          assert u in ts[1..];
        }
      }
    }
  }

  // Every CR that asks for a grant in ns and is reconciled is recorded there.
  ghost predicate AsksRecorded(s: Store, t: Target, deny: DenyList, ns: string, mid: Store) {
    forall cr | Asks(s, t, ns, cr) && Reaches(s, t, deny, cr.id) :: Holds(mid, Key(ns, t.rbName), EntryOf(cr))
  }

  lemma AsksAlike(s: Store, mid: Store, t: Target, ns: string, born: map<string, CrId>)
    requires CrossTarget(t) && CrossStore(born, t, mid) && SameWorld(s, mid)
    ensures forall e :: OwnerLive(mid, t, e, ns) <==> exists cr :: Asks(s, t, ns, cr) && EntryOf(cr) == e
  {
    forall e ensures OwnerLive(mid, t, e, ns) <==> exists cr :: Asks(s, t, ns, cr) && EntryOf(cr) == e {
      LiveMeansAsking(born, mid, t, ns, e);
      assert forall cr :: Asks(s, t, ns, cr) <==> Asks(mid, t, ns, cr);
    }
  }

  // At the end: a binding exists in ns, if it may, exactly when some CR asks for it, and lists
  // exactly those; where it may no longer, no owner survives that does not ask.
  ghost predicate AskedOnly(s: Store, t: Target, deny: DenyList, ns: string, s': Store) {
    var key := Key(ns, t.rbName);
    && (NsAllowed(s, t, deny, ns) && RoleUsable(s, t) ==>
          && (key in s'.rbs <==> exists cr :: Asks(s, t, ns, cr))
          && (key in s'.rbs ==>
                forall e :: e in Entries(s'.rbs[key]) <==> exists cr :: Asks(s, t, ns, cr) && EntryOf(cr) == e))
    && (key in s'.rbs ==>
          && s'.rbs[key].roleRef == ExpectedRef(t) && s'.rbs[key].subjects == ExpectedSubjects(t.sa)
          && Entries(s'.rbs[key]) != []
          && forall e | e in Entries(s'.rbs[key]) :: exists cr :: Asks(s, t, ns, cr) && EntryOf(cr) == e)
  }

  // What is left of mid, in which every CR is recorded, after a cleanup pass.
  lemma CleanedToAsked(born: map<string, CrId>, s: Store, mid: Store, ts: seq<Target>, now: nat, s': Store,
                       t: Target, deny: DenyList, ns: string)
    requires CrossTarget(t) && CrossStore(born, t, mid) && SameWorld(s, mid) && AsksRecorded(s, t, deny, ns, mid)
    requires CleanedAll(mid, ts, now, s') && NamesDistinct(ts) && t in ts
    ensures AskedOnly(s, t, deny, ns, s')
  {
    var key := Key(ns, t.rbName);
    AfterCleanup(born, mid, ts, now, s', t, ns);
    AsksAlike(s, mid, t, ns, born);
    if NsAllowed(s, t, deny, ns) && RoleUsable(s, t) {
      forall cr | Asks(s, t, ns, cr) ensures Holds(mid, key, EntryOf(cr)) && OwnerLive(mid, t, EntryOf(cr), ns) {
        assert Reaches(s, t, deny, cr.id);
      }
    }
    if key in s'.rbs {
      var e := Entries(s'.rbs[key])[0];
      assert e in Entries(s'.rbs[key]);
    }
  }

  // A CR of the watched kind that asks for a grant in ns.
  ghost predicate Wants(s: Store, t: Target, ns: string, cr: Cr) {
    cr.id in s.crs && s.crs[cr.id] == cr && cr.id.gvk == t.gvk && AsksFor(t, cr, ns)
  }

  // e is the entry of a CR that asks for a grant in ns.
  ghost predicate WantedEntry(s: Store, t: Target, ns: string, e: OwnerEntry) {
    exists cr :: Wants(s, t, ns, cr) && e == OwnerEntry(cr.id.ns, cr.id.name, cr.uid)
  }

  lemma WantsIff(s: Store, t: Target, ns: string)
    ensures forall cr :: Wants(s, t, ns, cr) <==> Asks(s, t, ns, cr)
    ensures forall e :: WantedEntry(s, t, ns, e) <==> exists cr :: Asks(s, t, ns, cr) && EntryOf(cr) == e
  {
    forall cr ensures Wants(s, t, ns, cr) <==> Asks(s, t, ns, cr) {
      AsksForIff(t, cr, ns);
    }
  }

  // The same, told without the functions of the program.
  ghost predicate Converged(s: Store, t: Target, deny: DenyList, ns: string, s': Store) {
    var key := Key(ns, t.rbName);
    && (Open(s, t, deny, ns) ==>
          && (key in s'.rbs <==> exists cr :: Wants(s, t, ns, cr))
          && (key in s'.rbs ==> forall e :: e in OwnersOf(s'.rbs[key].annotations) <==> WantedEntry(s, t, ns, e)))
    && (key in s'.rbs ==>
          && GrantsOnly(s'.rbs[key], t.clusterRole, t.sa.ns, t.sa.name)
          && OwnersOf(s'.rbs[key].annotations) != []
          && forall e | e in OwnersOf(s'.rbs[key].annotations) :: WantedEntry(s, t, ns, e))
  }

  lemma AskedIsConverged(s: Store, t: Target, deny: DenyList, ns: string, s': Store)
    requires AskedOnly(s, t, deny, ns, s')
    ensures Converged(s, t, deny, ns, s')
  {
    WantsIff(s, t, ns);
    PermittedIff(ns, deny);
    if Key(ns, t.rbName) in s'.rbs {
      ExpectedGrants(s'.rbs[Key(ns, t.rbName)], t, t.sa);
    }
  }

  // From any reachable store, one undisturbed reconcile of every CR and one cleanup pass: a
  // binding exists in an open namespace if and only if some CR asks for it, admits exactly the
  // target's service account to exactly its ClusterRole, and lists exactly the CRs that ask. In
  // a namespace no longer open nothing survives but owners that still ask.
  lemma Convergence(cfg: Config, states: seq<Sys>, moves: seq<Move>, n: nat, t: Target,
                    ids: seq<CrId>, os: seq<Oracle>, ns: string)
    requires ConfigOk(cfg) && IsRun(cfg, states, moves) && Init(states[0]) && n < |states|
    requires forall i | 0 <= i < n :: !moves[i].Tampered?
    requires t in cfg.targets && t.nsField.Some?
    requires forall id | id in states[n].store.crs && id.gvk == t.gvk :: id in ids
    requires Healthy(Reconciles(states[n].store, t, cfg.deny, ids), CleanStart(CleanupTargets(cfg.targets)), os, states[n].clock)
    ensures var s := states[n].store;
            var s' := Run(Reconciles(s, t, cfg.deny, ids), CleanStart(CleanupTargets(cfg.targets)), os, states[n].clock).0;
            Converged(s, t, cfg.deny, ns, s')
  {
    var s, born := states[n].store, states[n].born;
    var mid := Reconciles(s, t, cfg.deny, ids);
    var ts := CleanupTargets(cfg.targets);
    ReachableIsCross(cfg, states, moves, n, t);
    ReconcilesCross(born, s, t, cfg.deny, ids);
    CleanupNamesDistinct(cfg.targets);
    CleanupTargetsExact(cfg.targets);
    CleanupExact(mid, ts, 0, os, states[n].clock);
    var s' := Run(mid, CleanStart(ts), os, states[n].clock).0;
    CleanedToAsked(born, s, mid, ts, states[n].clock, s', t, cfg.deny, ns);
    AskedIsConverged(s, t, cfg.deny, ns, s');
  }

  // The binding created for a cluster-scoped CR shows no owner when it is read, so no cleanup
  // pass ever removes it, whatever has become of the CR.
  lemma ClusterScopedIsKept(s: Store, t: Target, deny: DenyList, id: CrId, later: Store, now: nat)
    requires Reaches(s, t, deny, id) && t.nsField.Some? && s.crs[id].id.ns == ""
    requires var e := EntryOf(s.crs[id]);
             !Delimited(e) && e.uid != "" && ',' !in e.uid && !IsSpace(e.uid[|e.uid| - 1])
    requires RecKey(t, s.crs[id], TargetNs(t, s.crs[id]).value) !in s.rbs
    ensures var key := RecKey(t, s.crs[id], TargetNs(t, s.crs[id]).value);
            var s' := ReconcileSpec(s, t, deny, id).0;
            key in s'.rbs && VerdictOn(later, t, now, key, s'.rbs[key]) == Keep
  {
    ReconcileIs(s, t, deny, id);
    NamelessIsLost(EntryOf(s.crs[id]));
  }
}
