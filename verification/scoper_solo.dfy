// What one undisturbed, fault-free run of an actor does to the store, in closed form.
module ScoperSolo {
  import opened Strings
  import opened Ownership
  import opened ScoperTypes
  import opened ScoperActors

  predicate FaultFree(os: seq<Oracle>) {
    forall o :: o in os ==> o.Answer?
  }

  predicate RoleUsable(s: Store, t: Target) {
    t.clusterRole in s.clusterRoles && !s.clusterRoles[t.clusterRole]
  }

  predicate NsAllowed(s: Store, t: Target, deny: DenyList, ns: string) {
    && !IsDenied(ns, deny)
    && (t.selector.Some? ==> ns in s.namespaces && Selects(t.selector.value, s.namespaces[ns]))
  }

  function FreshPut(s: Store, key: Key, rb: RoleBinding): Store {
    Put(s, key, rb.(uid := s.version))
  }

  // ---- The CR reconciler ---------------------------------------------------------------------

  function FixStep(s: Store, t: Target, key: Key, sa: Sa): Store
    requires key in s.rbs
  {
    var rb := s.rbs[key];
    if rb.roleRef != ExpectedRef(t) then FreshPut(s, key, RecreatedRb(t, sa, rb))
    else if rb.subjects != ExpectedSubjects(sa) then Put(s, key, rb.(subjects := ExpectedSubjects(sa)))
    else s
  }

  function BackfillStep(s: Store, cr: Cr, key: Key): Store
    requires key in s.rbs
  {
    if BackfillDue(s.rbs[key], cr) then Put(s, key, Backfilled(s.rbs[key], cr)) else s
  }

  function OwnerStep(s: Store, cr: Cr, key: Key): Store
    requires key in s.rbs
  {
    var rb := s.rbs[key];
    if HasOwner(rb.owners, cr.uid) then s else Put(s, key, rb.(owners := SetOwner(rb.owners, RefOf(cr))))
  }

  function EntryStep(s: Store, cr: Cr, key: Key): Store
    requires key in s.rbs
  {
    if Unlisted(s.rbs[key], cr) then Put(s, key, Listed(s.rbs[key], cr)) else s
  }

  function AdoptSpec(s: Store, t: Target, cr: Cr, ns: string): Store
    requires RecKey(t, cr, ns) in s.rbs
  {
    var key := RecKey(t, cr, ns);
    if SameNamespace(t, cr, ns) then OwnerStep(BackfillStep(s, cr, key), cr, key) else EntryStep(s, cr, key)
  }

  function EnsureSpec(s: Store, t: Target, cr: Cr, ns: string, sa: Sa): Store {
    var key := RecKey(t, cr, ns);
    if key !in s.rbs then FreshPut(s, key, CreatedRb(t, cr, ns, sa))
    else AdoptSpec(FixStep(s, t, key, sa), t, cr, ns)
  }

  function ReconcileSpec(s: Store, t: Target, deny: DenyList, id: CrId): (Store, Outcome) {
    if id !in s.crs then (s, Success)
    else
      var cr := s.crs[id];
      match TargetNs(t, cr)
      case None => (s, Success)
      case Some(ns) =>
        if !NsAllowed(s, t, deny, ns) then (s, Success)
        else if !RoleUsable(s, t) then (s, Requeue)
        else
          match ResolveSa(t, cr)
          case None => (s, Failure)
          case Some(sa) => (EnsureSpec(s, t, cr, ns, sa), Success)
  }

  lemma RunOne(s: Store, p: Proc, os: seq<Oracle>, now: nat)
    requires Calls(p) && os != [] && FaultFree(os)
    ensures var (s', p') := Step(s, p, os[0], now);
            Run(s, p, os, now) == Run(s', p', os[1..], now)
    ensures os[0].Answer? && FaultFree(os[1..])
  {}

  lemma SoloOwner(s: Store, t: Target, deny: DenyList, id: CrId, cr: Cr, ns: string, os: seq<Oracle>, now: nat)
    requires RecKey(t, cr, ns) in s.rbs && FaultFree(os) && |os| >= 2
    ensures Run(s, Rec(t, deny, id, OwnerGet(cr, ns, 1)), os, now)
         == (OwnerStep(s, cr, RecKey(t, cr, ns)), Fin(Success))
  {
    var p := Rec(t, deny, id, OwnerGet(cr, ns, 1));
    RunOne(s, p, os, now);
    var (s1, p1) := Step(s, p, os[0], now);
    if !p1.Fin? {
      RunOne(s1, p1, os[1..], now);
    }
  }

  lemma SoloBackfill(s: Store, t: Target, deny: DenyList, id: CrId, cr: Cr, ns: string, os: seq<Oracle>, now: nat)
    requires RecKey(t, cr, ns) in s.rbs && FaultFree(os) && |os| >= 4
    ensures Run(s, Rec(t, deny, id, BackfillGet(cr, ns, 1)), os, now)
         == (OwnerStep(BackfillStep(s, cr, RecKey(t, cr, ns)), cr, RecKey(t, cr, ns)), Fin(Success))
  {
    var p := Rec(t, deny, id, BackfillGet(cr, ns, 1));
    RunOne(s, p, os, now);
    var (s1, p1) := Step(s, p, os[0], now);
    if BackfillDue(s.rbs[RecKey(t, cr, ns)], cr) {
      RunOne(s1, p1, os[1..], now);
      var (s2, _) := Step(s1, p1, os[1], now);
      assert os[1..][1..] == os[2..];
      SoloOwner(s2, t, deny, id, cr, ns, os[2..], now);
    } else {
      SoloOwner(s1, t, deny, id, cr, ns, os[1..], now);
    }
  }

  lemma SoloPutEntry(s: Store, t: Target, deny: DenyList, id: CrId, cr: Cr, ns: string, os: seq<Oracle>, now: nat)
    requires RecKey(t, cr, ns) in s.rbs && FaultFree(os) && |os| >= 1
    ensures Run(s, Rec(t, deny, id, EntryPut(cr, ns, 1, s.rbs[RecKey(t, cr, ns)])), os, now)
         == (Put(s, RecKey(t, cr, ns), Listed(s.rbs[RecKey(t, cr, ns)], cr)), Fin(Success))
  {
    RunOne(s, Rec(t, deny, id, EntryPut(cr, ns, 1, s.rbs[RecKey(t, cr, ns)])), os, now);
  }

  lemma SoloEntry(s: Store, t: Target, deny: DenyList, id: CrId, cr: Cr, ns: string, os: seq<Oracle>, now: nat)
    requires RecKey(t, cr, ns) in s.rbs && FaultFree(os) && |os| >= 2
    ensures Run(s, Rec(t, deny, id, EntryGet(cr, ns, 1)), os, now)
         == (EntryStep(s, cr, RecKey(t, cr, ns)), Fin(Success))
  {
    RunOne(s, Rec(t, deny, id, EntryGet(cr, ns, 1)), os, now);
    if Unlisted(s.rbs[RecKey(t, cr, ns)], cr) {
      SoloPutEntry(s, t, deny, id, cr, ns, os[1..], now);
    }
  }

  lemma SoloAdopt(s: Store, t: Target, deny: DenyList, id: CrId, cr: Cr, ns: string, os: seq<Oracle>, now: nat)
    requires RecKey(t, cr, ns) in s.rbs && FaultFree(os) && |os| >= 4
    ensures Run(s, Rec(t, deny, id, Adopt(t, cr, ns)), os, now)
         == (AdoptSpec(s, t, cr, ns), Fin(Success))
  {
    if SameNamespace(t, cr, ns) {
      SoloBackfill(s, t, deny, id, cr, ns, os, now);
    } else {
      SoloEntry(s, t, deny, id, cr, ns, os, now);
    }
  }

  // Delete and recreate is one replacement.
  lemma Replace(s: Store, key: Key, rb: RoleBinding)
    requires key in s.rbs
    ensures Exec(s.(rbs := s.rbs - {key}), CreateRb(key, rb), Answer([])) == (FreshPut(s, key, rb), Ok)
  {
    assert (s.rbs - {key})[key := rb.(uid := s.version, rv := s.version)]
        == s.rbs[key := rb.(uid := s.version, rv := s.version)];
  }

  lemma SoloRecreate(s: Store, t: Target, deny: DenyList, id: CrId, cr: Cr, ns: string, sa: Sa,
                     os: seq<Oracle>, now: nat)
    requires RecKey(t, cr, ns) in s.rbs && FaultFree(os) && |os| >= 6
    requires s.rbs[RecKey(t, cr, ns)].roleRef != ExpectedRef(t)
    ensures Run(s, Rec(t, deny, id, DeleteOld(cr, ns, sa, s.rbs[RecKey(t, cr, ns)])), os, now)
         == (AdoptSpec(FixStep(s, t, RecKey(t, cr, ns), sa), t, cr, ns), Fin(Success))
  {
    var key := RecKey(t, cr, ns);
    var rb := s.rbs[key];
    var p := Rec(t, deny, id, DeleteOld(cr, ns, sa, rb));
    RunOne(s, p, os, now);
    var gone := s.(rbs := s.rbs - {key});
    var q := Rec(t, deny, id, Recreate(cr, ns, sa, rb));
    assert Step(s, p, os[0], now) == (gone, q);
    RunOne(gone, q, os[1..], now);
    Replace(s, key, RecreatedRb(t, sa, rb));
    assert Exec(gone, Next(q), os[1..][0]) == (FixStep(s, t, key, sa), Ok);
    assert os[1..][1..] == os[2..];
    SoloAdopt(FixStep(s, t, key, sa), t, deny, id, cr, ns, os[2..], now);
  }

  lemma SoloSubjects(s: Store, t: Target, deny: DenyList, id: CrId, cr: Cr, ns: string, sa: Sa,
                     os: seq<Oracle>, now: nat)
    requires RecKey(t, cr, ns) in s.rbs && FaultFree(os) && |os| >= 6
    requires s.rbs[RecKey(t, cr, ns)].roleRef == ExpectedRef(t)
    requires s.rbs[RecKey(t, cr, ns)].subjects != ExpectedSubjects(sa)
    ensures Run(s, Rec(t, deny, id, SubjectsGet(cr, ns, sa, 1)), os, now)
         == (AdoptSpec(FixStep(s, t, RecKey(t, cr, ns), sa), t, cr, ns), Fin(Success))
  {
    var key := RecKey(t, cr, ns);
    var p := Rec(t, deny, id, SubjectsGet(cr, ns, sa, 1));
    RunOne(s, p, os, now);
    var q := Rec(t, deny, id, SubjectsPut(cr, ns, sa, 1, s.rbs[key]));
    assert Step(s, p, os[0], now) == (s, q);
    RunOne(s, q, os[1..], now);
    assert Exec(s, Next(q), os[1..][0]) == (FixStep(s, t, key, sa), Ok);
    assert os[1..][1..] == os[2..];
    SoloAdopt(FixStep(s, t, key, sa), t, deny, id, cr, ns, os[2..], now);
  }

  lemma SoloEnsure(s: Store, t: Target, deny: DenyList, id: CrId, cr: Cr, ns: string, sa: Sa,
                   os: seq<Oracle>, now: nat)
    requires FaultFree(os) && |os| >= 8
    ensures Run(s, Rec(t, deny, id, Lookup(cr, ns, sa)), os, now) == (EnsureSpec(s, t, cr, ns, sa), Fin(Success))
  {
    var key := RecKey(t, cr, ns);
    var p := Rec(t, deny, id, Lookup(cr, ns, sa));
    RunOne(s, p, os, now);
    var (s1, p1) := Step(s, p, os[0], now);
    assert s1 == s;
    if key !in s.rbs {
      RunOne(s, p1, os[1..], now);
    } else if s.rbs[key].roleRef != ExpectedRef(t) {
      RunOne(s, p1, os[1..], now);
      assert Step(s, p1, os[1..][0], now) == (s, Rec(t, deny, id, DeleteOld(cr, ns, sa, s.rbs[key])));
      assert os[1..][1..] == os[2..];
      SoloRecreate(s, t, deny, id, cr, ns, sa, os[2..], now);
    } else if s.rbs[key].subjects != ExpectedSubjects(sa) {
      SoloSubjects(s, t, deny, id, cr, ns, sa, os[1..], now);
    } else {
      SoloAdopt(s, t, deny, id, cr, ns, os[1..], now);
    }
  }

  // An undisturbed fault-free reconcile finishes within 11 calls, in exactly this state.
  lemma SoloReconcile(s: Store, t: Target, deny: DenyList, id: CrId, os: seq<Oracle>, now: nat)
    requires FaultFree(os) && |os| >= 11
    ensures var (s', outcome) := ReconcileSpec(s, t, deny, id);
            Run(s, RecStart(t, deny, id), os, now) == (s', Fin(outcome))
  {
    var p := RecStart(t, deny, id);
    RunOne(s, p, os, now);
    var (_, p1) := Step(s, p, os[0], now);
    if p1.Rec? {
      var cr := s.crs[id];
      var ns := TargetNs(t, cr).value;
      var rest := os[1..];
      if t.selector.Some? {
        RunOne(s, p1, rest, now);
        rest := os[2..];
        assert os[1..][1..] == rest;
      }
      if NsAllowed(s, t, deny, ns) {
        SoloFetchRole(s, t, deny, id, cr, ns, rest, now);
      }
    }
  }

  lemma SoloFetchRole(s: Store, t: Target, deny: DenyList, id: CrId, cr: Cr, ns: string, os: seq<Oracle>, now: nat)
    requires FaultFree(os) && |os| >= 9
    ensures Run(s, Rec(t, deny, id, FetchRole(cr, ns)), os, now)
         == if !RoleUsable(s, t) then (s, Fin(Requeue))
            else if ResolveSa(t, cr).None? then (s, Fin(Failure))
            else (EnsureSpec(s, t, cr, ns, ResolveSa(t, cr).value), Fin(Success))
  {
    RunOne(s, Rec(t, deny, id, FetchRole(cr, ns)), os, now);
    if RoleUsable(s, t) && ResolveSa(t, cr).Some? {
      SoloEnsure(s, t, deny, id, cr, ns, ResolveSa(t, cr).value, os[1..], now);
    }
  }

  // ---- The label trigger -----------------------------------------------------------------------

  function OrphanStep(s: Store, key: Key): Store {
    if key in s.rbs && Ann(s.rbs[key], CREATED_BY_KEY) == BY_LABEL_TRIGGER && s.rbs[key].owners == []
    then s.(rbs := s.rbs - {key}) else s
  }

  function DriftStep(s: Store, t: Target, key: Key): Store
    requires key in s.rbs
  {
    var rb := s.rbs[key];
    if rb.owners != [] then s
    else if rb.roleRef != ExpectedRef(t) then FreshPut(s, key, TriggerRb(t))
    else if rb.subjects != ExpectedSubjects(t.sa) then Put(s, key, rb.(subjects := ExpectedSubjects(t.sa)))
    else s
  }

  function LabelSpec(s: Store, t: Target, deny: DenyList, ns: string): (Store, Outcome) {
    var key := Key(ns, t.rbName);
    if ns !in s.namespaces then (s, Success)
    else if !Triggers(t, deny, ns, s.namespaces[ns]) then (OrphanStep(s, key), Success)
    else if !RoleUsable(s, t) then (s, Requeue)
    else if key !in s.rbs then (FreshPut(s, key, TriggerRb(t)), Success)
    else (DriftStep(s, t, key), Success)
  }

  lemma SoloReplace(s: Store, t: Target, deny: DenyList, ns: string, os: seq<Oracle>, now: nat)
    requires Key(ns, t.rbName) in s.rbs && FaultFree(os) && |os| >= 2
    ensures Run(s, Lab(t, deny, ns, LabDriftDelete), os, now)
         == (FreshPut(s, Key(ns, t.rbName), TriggerRb(t)), Fin(Success))
  {
    var key := Key(ns, t.rbName);
    var gone := s.(rbs := s.rbs - {key});
    RunOne(s, Lab(t, deny, ns, LabDriftDelete), os, now);
    assert Step(s, Lab(t, deny, ns, LabDriftDelete), os[0], now) == (gone, Lab(t, deny, ns, LabDriftCreate));
    RunOne(gone, Lab(t, deny, ns, LabDriftCreate), os[1..], now);
    Replace(s, key, TriggerRb(t));
  }

  lemma SoloLabSubjects(s: Store, t: Target, deny: DenyList, ns: string, os: seq<Oracle>, now: nat)
    requires Key(ns, t.rbName) in s.rbs && FaultFree(os) && |os| >= 2
    ensures Run(s, Lab(t, deny, ns, LabSubjectsGet(1)), os, now)
         == (Put(s, Key(ns, t.rbName), s.rbs[Key(ns, t.rbName)].(subjects := ExpectedSubjects(t.sa))), Fin(Success))
  {
    var p := Lab(t, deny, ns, LabSubjectsGet(1));
    var q := Lab(t, deny, ns, LabSubjectsPut(1, s.rbs[Key(ns, t.rbName)]));
    RunOne(s, p, os, now);
    assert Step(s, p, os[0], now) == (s, q);
    RunOne(s, q, os[1..], now);
  }

  lemma SoloDrift(s: Store, t: Target, deny: DenyList, ns: string, os: seq<Oracle>, now: nat)
    requires Key(ns, t.rbName) in s.rbs && FaultFree(os) && |os| >= 3
    ensures Run(s, Lab(t, deny, ns, LabDriftGet), os, now) == (DriftStep(s, t, Key(ns, t.rbName)), Fin(Success))
  {
    var rb := s.rbs[Key(ns, t.rbName)];
    RunOne(s, Lab(t, deny, ns, LabDriftGet), os, now);
    if rb.owners == [] {
      if rb.roleRef != ExpectedRef(t) {
        SoloReplace(s, t, deny, ns, os[1..], now);
      } else if rb.subjects != ExpectedSubjects(t.sa) {
        SoloLabSubjects(s, t, deny, ns, os[1..], now);
      }
    }
  }

  lemma SoloOrphan(s: Store, t: Target, deny: DenyList, ns: string, os: seq<Oracle>, now: nat)
    requires FaultFree(os) && |os| >= 2
    ensures Run(s, Lab(t, deny, ns, LabOrphanGet), os, now) == (OrphanStep(s, Key(ns, t.rbName)), Fin(Success))
  {
    var p := Lab(t, deny, ns, LabOrphanGet);
    RunOne(s, p, os, now);
    if OrphanStep(s, Key(ns, t.rbName)) != s {
      assert Step(s, p, os[0], now) == (s, Lab(t, deny, ns, LabOrphanDelete));
      RunOne(s, Lab(t, deny, ns, LabOrphanDelete), os[1..], now);
    }
  }

  lemma SoloTriggered(s: Store, t: Target, deny: DenyList, ns: string, os: seq<Oracle>, now: nat)
    requires FaultFree(os) && |os| >= 4
    ensures Run(s, Lab(t, deny, ns, LabCreate), os, now)
         == (if Key(ns, t.rbName) in s.rbs then DriftStep(s, t, Key(ns, t.rbName))
             else FreshPut(s, Key(ns, t.rbName), TriggerRb(t)), Fin(Success))
  {
    RunOne(s, Lab(t, deny, ns, LabCreate), os, now);
    if Key(ns, t.rbName) in s.rbs {
      SoloDrift(s, t, deny, ns, os[1..], now);
    }
  }

  lemma SoloLabel(s: Store, t: Target, deny: DenyList, ns: string, os: seq<Oracle>, now: nat)
    requires FaultFree(os) && |os| >= 6
    ensures var (s', outcome) := LabelSpec(s, t, deny, ns);
            Run(s, LabStart(t, deny, ns), os, now) == (s', Fin(outcome))
  {
    RunOne(s, LabStart(t, deny, ns), os, now);
    if ns in s.namespaces {
      if Triggers(t, deny, ns, s.namespaces[ns]) {
        RunOne(s, Lab(t, deny, ns, LabRole), os[1..], now);
        SoloTriggered(s, t, deny, ns, os[1..][1..], now);
      } else {
        SoloOrphan(s, t, deny, ns, os[1..], now);
      }
    }
  }

  // ---- The webhook -------------------------------------------------------------------------------

  function HookSpec(s: Store, t: Target, deny: DenyList, ns: string, name: string, dryRun: bool, now: nat): Store {
    var key := Key(ns, t.rbName);
    if NsAllowed(s, t, deny, ns) && key !in s.rbs && RoleUsable(s, t) && !dryRun
    then FreshPut(s, key, HookRb(t, ns, name, now)) else s
  }

  lemma SoloLookup(s: Store, t: Target, ns: string, name: string, dryRun: bool, os: seq<Oracle>, now: nat)
    requires FaultFree(os) && |os| >= 3
    ensures Run(s, Hook(t, ns, name, dryRun, HookLookup), os, now)
         == (if Key(ns, t.rbName) !in s.rbs && RoleUsable(s, t) && !dryRun
             then FreshPut(s, Key(ns, t.rbName), HookRb(t, ns, name, now)) else s, Fin(Success))
  {
    RunOne(s, Hook(t, ns, name, dryRun, HookLookup), os, now);
    if Key(ns, t.rbName) !in s.rbs {
      SoloHookRole(s, t, ns, name, dryRun, os[1..], now);
    }
  }

  lemma SoloHookRole(s: Store, t: Target, ns: string, name: string, dryRun: bool, os: seq<Oracle>, now: nat)
    requires FaultFree(os) && |os| >= 2 && Key(ns, t.rbName) !in s.rbs
    ensures Run(s, Hook(t, ns, name, dryRun, HookRole), os, now)
         == (if RoleUsable(s, t) && !dryRun
             then FreshPut(s, Key(ns, t.rbName), HookRb(t, ns, name, now)) else s, Fin(Success))
  {
    RunOne(s, Hook(t, ns, name, dryRun, HookRole), os, now);
    if RoleUsable(s, t) && !dryRun {
      RunOne(s, Hook(t, ns, name, dryRun, HookCreate(now)), os[1..], now);
    }
  }

  lemma SoloHook(s: Store, t: Target, deny: DenyList, ns: string, name: string, dryRun: bool,
                 os: seq<Oracle>, now: nat)
    requires FaultFree(os) && |os| >= 4
    ensures Run(s, HookStart(t, deny, ns, name, dryRun), os, now)
         == (HookSpec(s, t, deny, ns, name, dryRun, now), Fin(Success))
  {
    var p := HookStart(t, deny, ns, name, dryRun);
    if p.Hook? {
      var rest := os;
      if t.selector.Some? {
        RunOne(s, p, os, now);
        rest := os[1..];
      }
      if NsAllowed(s, t, deny, ns) {
        SoloLookup(s, t, ns, name, dryRun, rest, now);
      }
    }
  }
}
