// Laws of undisturbed runs: the steady state, several owners of one binding in any order,
// and the label trigger beside the CR reconciler.
module ScoperLaws {
  import opened Strings
  import opened Ownership
  import opened ScoperTypes
  import opened ScoperActors
  import opened ScoperSolo
  import opened ScoperGrants

  // ---- Steady state -----------------------------------------------------------------------

  // The reconcile of id gets as far as its RoleBinding.
  predicate Reaches(s: Store, t: Target, deny: DenyList, id: CrId) {
    && id in s.crs
    && TargetNs(t, s.crs[id]).Some?
    && NsAllowed(s, t, deny, TargetNs(t, s.crs[id]).value)
    && RoleUsable(s, t)
    && ResolveSa(t, s.crs[id]).Some?
  }

  // The owner entry of cr can be found again by the next reconcile.
  predicate EntryStays(s: Store, key: Key, cr: Cr) {
    || Delimited(EntryOf(cr))
    || UidSurvives(EntryOf(cr))
    || (key in s.rbs && cr.uid in Uids(Entries(s.rbs[key])))
  }

  lemma EntryStepEntries(s: Store, cr: Cr, key: Key)
    requires key in s.rbs
    ensures key in EntryStep(s, cr, key).rbs
    ensures EntryStays(s, key, cr)
       <==> Delimited(EntryOf(cr)) || cr.uid in Uids(Entries(EntryStep(s, cr, key).rbs[key]))
    ensures Carried(EntryOf(cr)) ==> Entries(EntryStep(s, cr, key).rbs[key]) == Add(Entries(s.rbs[key]), EntryOf(cr))
  {
    var e := EntryOf(cr);
    var es := Entries(s.rbs[key]);
    if !Delimited(e) && e.uid !in Uids(es) {
      UidReadBack(Ann(s.rbs[key], OWNERS_KEY), e);
    }
  }

  lemma FixStepKeeps(s: Store, t: Target, key: Key, sa: Sa)
    requires key in s.rbs
    ensures var s' := FixStep(s, t, key, sa);
            && key in s'.rbs
            && s'.rbs[key].roleRef == ExpectedRef(t)
            && s'.rbs[key].subjects == ExpectedSubjects(sa)
            && s'.rbs[key].owners == s.rbs[key].owners
            && Entries(s'.rbs[key]) == Entries(s.rbs[key])
            && (PENDING_KEY in s'.rbs[key].annotations
                <==> PENDING_KEY in s.rbs[key].annotations && s.rbs[key].roleRef == ExpectedRef(t))
  {}

  lemma {:induction false} SetOwnerHas(refs: seq<OwnerRef>, r: OwnerRef)
    ensures HasOwner(SetOwner(refs, r), r.uid)
  {
    SetOwnerAt(refs, r);
    var i :| 0 <= i < |SetOwner(refs, r)| && SetOwner(refs, r)[i] == r;
  }

  lemma OwnerStepHas(s: Store, cr: Cr, key: Key)
    requires key in s.rbs
    ensures key in OwnerStep(s, cr, key).rbs && HasOwner(OwnerStep(s, cr, key).rbs[key].owners, cr.uid)
    ensures OwnerStep(s, cr, key).rbs[key].annotations == s.rbs[key].annotations
    ensures !BackfillDue(BackfillStep(s, cr, key).rbs[key], cr)
  {
    SetOwnerHas(s.rbs[key].owners, RefOf(cr));
  }

  lemma SettleSame(s: Store, t: Target, cr: Cr, ns: string, sa: Sa)
    requires RecKey(t, cr, ns) in s.rbs && SameNamespace(t, cr, ns)
    ensures EnsureSpec(EnsureSpec(s, t, cr, ns, sa), t, cr, ns, sa) == EnsureSpec(s, t, cr, ns, sa)
  {
    var key := RecKey(t, cr, ns);
    var s1 := FixStep(s, t, key, sa);
    FixStepKeeps(s, t, key, sa);
    OwnerStepHas(s1, cr, key);
    OwnerStepHas(BackfillStep(s1, cr, key), cr, key);
  }

  lemma SettleCross(s: Store, t: Target, cr: Cr, ns: string, sa: Sa)
    requires RecKey(t, cr, ns) in s.rbs && !SameNamespace(t, cr, ns)
    ensures EnsureSpec(EnsureSpec(s, t, cr, ns, sa), t, cr, ns, sa) == EnsureSpec(s, t, cr, ns, sa)
       <==> EntryStays(s, RecKey(t, cr, ns), cr)
  {
    FixStepKeeps(s, t, RecKey(t, cr, ns), sa);
    EntryStepEntries(FixStep(s, t, RecKey(t, cr, ns), sa), cr, RecKey(t, cr, ns));
  }

  lemma SettleOne(s: Store, t: Target, cr: Cr, ns: string, sa: Sa)
    ensures EnsureSpec(EnsureSpec(s, t, cr, ns, sa), t, cr, ns, sa) == EnsureSpec(s, t, cr, ns, sa)
       <==> SameNamespace(t, cr, ns) || EntryStays(s, RecKey(t, cr, ns), cr)
  {
    if SameNamespace(t, cr, ns) {
      if RecKey(t, cr, ns) in s.rbs {
        SettleSame(s, t, cr, ns, sa);
      }
    } else if RecKey(t, cr, ns) in s.rbs {
      SettleCross(s, t, cr, ns, sa);
    } else {
      SettleNew(s, t, cr, ns, sa);
    }
  }

  lemma SettleNew(s: Store, t: Target, cr: Cr, ns: string, sa: Sa)
    requires RecKey(t, cr, ns) !in s.rbs && !SameNamespace(t, cr, ns)
    ensures EnsureSpec(EnsureSpec(s, t, cr, ns, sa), t, cr, ns, sa) == EnsureSpec(s, t, cr, ns, sa)
       <==> Delimited(EntryOf(cr)) || UidSurvives(EntryOf(cr))
  {
    var e := EntryOf(cr);
    var key := RecKey(t, cr, ns);
    var rb := EnsureSpec(s, t, cr, ns, sa).rbs[key];
    assert Ann(rb, OWNERS_KEY) == Format([e]);
    if !Delimited(e) {
      UidReadBack("", e);
      assert Parse("") + [e] == [e];
    }
  }

  // A second reconcile performs no write at all, if and only if the owner entry of a
  // cross-namespace CR survives in the annotation.
  predicate OwnerStays(s: Store, t: Target, deny: DenyList, id: CrId) {
    Reaches(s, t, deny, id) ==>
      var cr := s.crs[id];
      var ns := TargetNs(t, cr).value;
      SameNamespace(t, cr, ns) || EntryStays(s, RecKey(t, cr, ns), cr)
  }

  lemma SteadyState(s: Store, t: Target, deny: DenyList, id: CrId)
    ensures ReconcileSpec(ReconcileSpec(s, t, deny, id).0, t, deny, id).0 == ReconcileSpec(s, t, deny, id).0
       <==> OwnerStays(s, t, deny, id)
  {
    var s' := ReconcileSpec(s, t, deny, id).0;
    ReconcileIs(s, t, deny, id);
    ReconcileFrame(s, t, deny, id);
    ReachesStable(s, s', t, deny, id);
    ReconcileIs(s', t, deny, id);
    if Reaches(s, t, deny, id) {
      var cr := s.crs[id];
      SettleOne(s, t, cr, TargetNs(t, cr).value, ResolveSa(t, cr).value);
    }
  }

  // A cluster-scoped CR whose target has a namespace field, not recorded so far.
  ghost predicate NeverRecorded(s: Store, t: Target, deny: DenyList, id: CrId) {
    && Reaches(s, t, deny, id) && t.nsField.Some?
    && s.crs[id].id.ns == "" && !Delimited(EntryOf(s.crs[id]))
    && s.crs[id].uid !in Uids(EntriesAt(s, RecKey(t, s.crs[id], TargetNs(t, s.crs[id]).value)))
  }

  lemma WritesInVain(s: Store, t: Target, deny: DenyList, id: CrId)
    requires NeverRecorded(s, t, deny, id)
    ensures var s' := ReconcileSpec(s, t, deny, id).0;
            s'.version > s.version && NeverRecorded(s', t, deny, id)
  {
    var cr := s.crs[id];
    var ns, sa := TargetNs(t, cr).value, ResolveSa(t, cr).value;
    var key := RecKey(t, cr, ns);
    ReconcileIs(s, t, deny, id);
    ReconcileFrame(s, t, deny, id);
    ReachesStable(s, ReconcileSpec(s, t, deny, id).0, t, deny, id);
    if key in s.rbs {
      FixStepKeeps(s, t, key, sa);
      UidReadBack(Ann(FixStep(s, t, key, sa).rbs[key], OWNERS_KEY), EntryOf(cr));
    } else {
      UidReadBack("", EntryOf(cr));
      assert Parse("") + [EntryOf(cr)] == [EntryOf(cr)];
    }
  }

  // A cluster-scoped CR never settles: its owner entry has no namespace and is dropped when
  // the annotation is read, so after any number of reconciles the next one writes again.
  lemma {:induction false} ClusterScopedNeverSettles(s: Store, t: Target, deny: DenyList, id: CrId, n: nat)
    requires NeverRecorded(s, t, deny, id)
    ensures var u := Reconciles(s, t, deny, seq(n, _ => id));
            ReconcileSpec(u, t, deny, id).0.version > u.version
    decreases n
  {
    WritesInVain(s, t, deny, id);
    if n > 0 {
      assert seq(n, _ => id)[1..] == seq(n - 1, _ => id);
      ClusterScopedNeverSettles(ReconcileSpec(s, t, deny, id).0, t, deny, id, n - 1);
    }
  }

  // ---- What a reconcile touches -----------------------------------------------------------------

  // u differs from s at most at key, where it holds a binding.
  predicate Touches(s: Store, u: Store, key: Key) {
    SameWorld(s, u) && key in u.rbs && u.rbs == s.rbs[key := u.rbs[key]]
  }

  lemma PutTouches(s: Store, key: Key, rb: RoleBinding)
    ensures Touches(s, Put(s, key, rb), key)
  {}

  lemma TouchesTwice(s: Store, u: Store, v: Store, key: Key)
    requires Touches(s, u, key) && Touches(u, v, key)
    ensures Touches(s, v, key)
  {}

  lemma StepsTouch(s: Store, t: Target, cr: Cr, key: Key, sa: Sa)
    requires key in s.rbs
    ensures Touches(s, FixStep(s, t, key, sa), key)
    ensures Touches(s, BackfillStep(s, cr, key), key)
    ensures Touches(s, OwnerStep(s, cr, key), key)
    ensures Touches(s, EntryStep(s, cr, key), key)
  {
    var rb := s.rbs[key];
    assert s.rbs == s.rbs[key := rb];
    PutTouches(s, key, RecreatedRb(t, sa, rb).(uid := s.version));
    PutTouches(s, key, rb.(subjects := ExpectedSubjects(sa)));
    PutTouches(s, key, Backfilled(rb, cr));
    PutTouches(s, key, rb.(owners := SetOwner(rb.owners, RefOf(cr))));
    PutTouches(s, key, WithEntries(rb, Add(Entries(rb), EntryOf(cr))));
  }

  lemma EnsureFrame(s: Store, t: Target, cr: Cr, ns: string, sa: Sa)
    ensures Touches(s, EnsureSpec(s, t, cr, ns, sa), RecKey(t, cr, ns))
  {
    var key := RecKey(t, cr, ns);
    if key in s.rbs {
      StepsTouch(s, t, cr, key, sa);
      var s1 := FixStep(s, t, key, sa);
      StepsTouch(s1, t, cr, key, sa);
      if SameNamespace(t, cr, ns) {
        var s2 := BackfillStep(s1, cr, key);
        StepsTouch(s2, t, cr, key, sa);
        TouchesTwice(s1, s2, OwnerStep(s2, cr, key), key);
      }
      TouchesTwice(s, s1, AdoptSpec(s1, t, cr, ns), key);
    } else {
      PutTouches(s, key, CreatedRb(t, cr, ns, sa).(uid := s.version));
    }
  }

  lemma ReconcileIs(s: Store, t: Target, deny: DenyList, id: CrId)
    ensures ReconcileSpec(s, t, deny, id).0 ==
      if Reaches(s, t, deny, id)
      then EnsureSpec(s, t, s.crs[id], TargetNs(t, s.crs[id]).value, ResolveSa(t, s.crs[id]).value)
      else s
  {}

  lemma ReconcileFrame(s: Store, t: Target, deny: DenyList, id: CrId)
    ensures SameWorld(s, ReconcileSpec(s, t, deny, id).0)
  {
    if Reaches(s, t, deny, id) {
      var cr := s.crs[id];
      EnsureFrame(s, t, cr, TargetNs(t, cr).value, ResolveSa(t, cr).value);
    }
  }

  // The owner references after a same-namespace reconcile.
  function Adopted(refs: seq<OwnerRef>, due: bool, cr: Cr): seq<OwnerRef> {
    var refs' := if due then SetOwner(refs, RefOf(cr)) else refs;
    if HasOwner(refs', cr.uid) then refs' else SetOwner(refs', RefOf(cr))
  }

  lemma EnsuredRb(s: Store, t: Target, cr: Cr, ns: string, sa: Sa)
    ensures var key := RecKey(t, cr, ns);
            var s' := EnsureSpec(s, t, cr, ns, sa);
            && key in s'.rbs && s'.rbs[key].roleRef == ExpectedRef(t) && s'.rbs[key].subjects == ExpectedSubjects(sa)
            && (SameNamespace(t, cr, ns) ==>
                  s'.rbs[key].owners ==
                    if key !in s.rbs then [RefOf(cr)]
                    else Adopted(s.rbs[key].owners, BackfillDue(s.rbs[key], cr) && s.rbs[key].roleRef == ExpectedRef(t), cr))
            && (!SameNamespace(t, cr, ns) && key in s.rbs ==> s'.rbs[key].owners == s.rbs[key].owners)
  {
    var key := RecKey(t, cr, ns);
    if key in s.rbs {
      FixStepKeeps(s, t, key, sa);
    }
  }

  // ---- Several owners, any order -------------------------------------------------------------

  ghost function RefUids(rb: RoleBinding): set<string> {
    set r | r in rb.owners :: r.uid
  }

  function Reconciles(s: Store, t: Target, deny: DenyList, ids: seq<CrId>): Store
    decreases |ids|
  {
    if ids == [] then s else Reconciles(ReconcileSpec(s, t, deny, ids[0]).0, t, deny, ids[1..])
  }

  // id reconciles to the binding key with service account sa.
  predicate SharesBinding(s: Store, t: Target, deny: DenyList, key: Key, sa: Sa, id: CrId) {
    && Reaches(s, t, deny, id)
    && RecKey(t, s.crs[id], TargetNs(t, s.crs[id]).value) == key
    && ResolveSa(t, s.crs[id]) == Some(sa)
    && s.crs[id].id == id && id.gvk == t.gvk
    && s.crs[id].uid != ""
  }

  ghost predicate AllShare(s: Store, t: Target, deny: DenyList, key: Key, sa: Sa, ids: seq<CrId>) {
    forall id {:trigger id in ids} | id in ids :: SharesBinding(s, t, deny, key, sa, id)
  }

  ghost predicate AllCarriedCrs(s: Store, ids: seq<CrId>) {
    forall id {:trigger id in ids} | id in ids :: id in s.crs && Carried(EntryOf(s.crs[id]))
  }

  predicate SameWorld(s: Store, u: Store) {
    s.crs == u.crs && s.namespaces == u.namespaces && s.clusterRoles == u.clusterRoles
  }

  lemma ShareStable(s: Store, u: Store, t: Target, deny: DenyList, key: Key, sa: Sa, ids: seq<CrId>)
    requires SameWorld(s, u) && AllShare(s, t, deny, key, sa, ids) && ids != []
    ensures AllShare(u, t, deny, key, sa, ids[1..])
    ensures SharesBinding(s, t, deny, key, sa, ids[0])
  {
    assert ids[0] in ids;
    forall id | id in ids[1..] ensures SharesBinding(u, t, deny, key, sa, id) {
      assert id in ids;
      ReachesStable(s, u, t, deny, id);
    }
  }

  lemma CarriedStable(s: Store, u: Store, ids: seq<CrId>)
    requires SameWorld(s, u) && AllCarriedCrs(s, ids) && ids != []
    ensures AllCarriedCrs(u, ids[1..])
    ensures ids[0] in s.crs && Carried(EntryOf(s.crs[ids[0]]))
  {
    assert ids[0] in ids;
    assert forall id :: id in ids[1..] ==> id in ids;
  }

  lemma ReachesStable(s: Store, u: Store, t: Target, deny: DenyList, id: CrId)
    requires SameWorld(s, u)
    ensures Reaches(s, t, deny, id) <==> Reaches(u, t, deny, id)
  {}

  // Owner lists as SetOwnerReference leaves them, and UIDs as the API server hands them out.
  ghost predicate RefsTrue(s: Store, refs: seq<OwnerRef>, t: Target, ns: string) {
    && (forall i, j :: 0 <= i < j < |refs| ==> !SameObject(refs[i], refs[j]))
    && (forall r, id | r in refs && id in s.crs && id.ns == ns && id.gvk == t.gvk ::
          r.uid == s.crs[id].uid ==> r == RefOf(s.crs[id]))
  }

  ghost predicate UidsTrue(s: Store) {
    && (forall id | id in s.crs :: s.crs[id].id == id)
    && (forall a, b | a in s.crs && b in s.crs :: s.crs[a].uid == s.crs[b].uid ==> a == b)
  }

  lemma {:induction false} SetOwnerExact(refs: seq<OwnerRef>, r: OwnerRef)
    requires forall i, j :: 0 <= i < j < |refs| ==> !SameObject(refs[i], refs[j])
    ensures var refs' := SetOwner(refs, r);
            && (forall i, j :: 0 <= i < j < |refs'| ==> !SameObject(refs'[i], refs'[j]))
            && (forall x :: x in refs' <==> x == r || (x in refs && !SameObject(x, r)))
  {
    if refs != [] {
      assert refs == [refs[0]] + refs[1..];
      if SameObject(refs[0], r) {
        assert forall x :: x in refs[1..] ==> !SameObject(x, r);
      } else {
        SetOwnerExact(refs[1..], r);
        assert forall x :: x in refs[1..] ==> !SameObject(refs[0], x);
      }
    }
  }

  // The owner references after the covered CRs replaced or joined what was there.
  ghost predicate RefsAfter(before: seq<OwnerRef>, after: seq<OwnerRef>, crs: set<Cr>) {
    forall r :: r in after <==>
      (exists cr | cr in crs :: r == RefOf(cr)) || (r in before && forall cr | cr in crs :: !SameObject(r, RefOf(cr)))
  }

  function OwnersAt(s: Store, key: Key): seq<OwnerRef> {
    if key in s.rbs then s.rbs[key].owners else []
  }

  function EntriesAt(s: Store, key: Key): seq<OwnerEntry> {
    if key in s.rbs then Entries(s.rbs[key]) else []
  }

  // What a same-namespace reconcile makes of a list of owner references.
  lemma AdoptedExact(refs: seq<OwnerRef>, due: bool, cr: Cr)
    requires forall i, j :: 0 <= i < j < |refs| ==> !SameObject(refs[i], refs[j])
    requires forall r :: r in refs && r.uid == cr.uid ==> r == RefOf(cr)
    ensures var refs' := Adopted(refs, due, cr);
            && (forall i, j :: 0 <= i < j < |refs'| ==> !SameObject(refs'[i], refs'[j]))
            && (forall r :: r in refs' <==> r == RefOf(cr) || (r in refs && !SameObject(r, RefOf(cr))))
  {
    var ref := RefOf(cr);
    SetOwnerExact(refs, ref);
    SetOwnerHas(refs, ref);
    if HasOwner(refs, cr.uid) {
      var i :| 0 <= i < |refs| && refs[i].uid == cr.uid;
      assert refs[i] in refs && refs[i] == ref;
      assert forall j :: 0 <= j < |refs| && j != i ==> !SameObject(refs[j], ref);
    }
  }

  lemma OneSameNs(s: Store, t: Target, deny: DenyList, key: Key, sa: Sa, id: CrId)
    requires SharesBinding(s, t, deny, key, sa, id) && t.nsField.None? && UidsTrue(s)
    requires RefsTrue(s, OwnersAt(s, key), t, key.ns)
    ensures var s' := ReconcileSpec(s, t, deny, id).0;
            && key in s'.rbs && s'.rbs[key].roleRef == ExpectedRef(t)
            && s'.rbs[key].subjects == ExpectedSubjects(sa)
            && RefsTrue(s', s'.rbs[key].owners, t, key.ns)
            && (forall r :: r in s'.rbs[key].owners <==>
                  r == RefOf(s.crs[id]) || (r in OwnersAt(s, key) && !SameObject(r, RefOf(s.crs[id]))))
            && SameWorld(s, s')
  {
    var cr := s.crs[id];
    ReconcileIs(s, t, deny, id);
    EnsuredRb(s, t, cr, key.ns, sa);
    EnsureFrame(s, t, cr, key.ns, sa);
    if key in s.rbs {
      AdoptedExact(s.rbs[key].owners, true, cr);
      AdoptedExact(s.rbs[key].owners, false, cr);
    }
  }

  lemma EnsuredEntries(s: Store, t: Target, cr: Cr, ns: string, sa: Sa)
    requires !SameNamespace(t, cr, ns) && Carried(EntryOf(cr))
    ensures EntriesAt(EnsureSpec(s, t, cr, ns, sa), RecKey(t, cr, ns))
         == Add(EntriesAt(s, RecKey(t, cr, ns)), EntryOf(cr))
  {
    var key := RecKey(t, cr, ns);
    if key in s.rbs {
      FixStepKeeps(s, t, key, sa);
      EntryStepEntries(FixStep(s, t, key, sa), cr, key);
    } else {
      UidReadBack("", EntryOf(cr));
      assert Parse("") + [EntryOf(cr)] == [EntryOf(cr)];
    }
  }

  lemma OneCrossNs(s: Store, t: Target, deny: DenyList, key: Key, sa: Sa, id: CrId)
    requires SharesBinding(s, t, deny, key, sa, id) && t.nsField.Some?
    requires Carried(EntryOf(s.crs[id]))
    ensures var s' := ReconcileSpec(s, t, deny, id).0;
            && key in s'.rbs && s'.rbs[key].roleRef == ExpectedRef(t)
            && s'.rbs[key].subjects == ExpectedSubjects(sa)
            && Entries(s'.rbs[key]) == Add(EntriesAt(s, key), EntryOf(s.crs[id]))
            && (key in s.rbs ==> s'.rbs[key].owners == s.rbs[key].owners)
            && SameWorld(s, s')
  {
    ReconcileIs(s, t, deny, id);
    EnsureFrame(s, t, s.crs[id], key.ns, sa);
    EnsuredRb(s, t, s.crs[id], key.ns, sa);
    EnsuredEntries(s, t, s.crs[id], key.ns, sa);
  }

  ghost function CrsOf(s: Store, ids: seq<CrId>): set<Cr>
    requires forall id {:trigger id in ids} | id in ids :: id in s.crs
  {
    set id | id in ids :: s.crs[id]
  }

  ghost function UidsOf(s: Store, ids: seq<CrId>): set<string>
    requires forall id {:trigger id in ids} | id in ids :: id in s.crs
  {
    set id | id in ids :: s.crs[id].uid
  }

  lemma UidsJoin(s: Store, u: Store, ids: seq<CrId>)
    requires SameWorld(s, u) && AllCarriedCrs(s, ids) && ids != [] && AllCarriedCrs(u, ids[1..])
    ensures ids[0] in s.crs
    ensures UidsOf(s, ids) == {s.crs[ids[0]].uid} + UidsOf(u, ids[1..])
  {
    assert ids[0] in ids;
    assert forall id :: id in ids <==> id == ids[0] || id in ids[1..];
  }

  lemma {:induction false} ManySameNs(s: Store, t: Target, deny: DenyList, key: Key, sa: Sa, ids: seq<CrId>)
    requires AllShare(s, t, deny, key, sa, ids)
    requires t.nsField.None? && UidsTrue(s) && RefsTrue(s, OwnersAt(s, key), t, key.ns)
    ensures var s' := Reconciles(s, t, deny, ids);
            && RefsAfter(OwnersAt(s, key), OwnersAt(s', key), CrsOf(s, ids))
            && (ids != [] ==> key in s'.rbs && s'.rbs[key].roleRef == ExpectedRef(t)
                              && s'.rbs[key].subjects == ExpectedSubjects(sa))
    decreases |ids|
  {
    if ids != [] {
      var s1 := ReconcileSpec(s, t, deny, ids[0]).0;
      ReconcileFrame(s, t, deny, ids[0]);
      ShareStable(s, s1, t, deny, key, sa, ids);
      OneSameNs(s, t, deny, key, sa, ids[0]);
      ManySameNs(s1, t, deny, key, sa, ids[1..]);
      var cr := s.crs[ids[0]];
      assert CrsOf(s, ids) == {cr} + CrsOf(s1, ids[1..]);
      RefsJoin(OwnersAt(s, key), OwnersAt(s1, key), OwnersAt(Reconciles(s, t, deny, ids), key), cr, CrsOf(s1, ids[1..]));
    }
  }

  // One CR, then the others: the combined effect. Two live CRs of one kind and namespace
  // that are the same object have the same reference.
  lemma RefsJoin(before: seq<OwnerRef>, mid: seq<OwnerRef>, after: seq<OwnerRef>, cr: Cr, crs: set<Cr>)
    requires forall r :: r in mid <==> r == RefOf(cr) || (r in before && !SameObject(r, RefOf(cr)))
    requires RefsAfter(mid, after, crs)
    requires forall c | c in crs :: SameObject(RefOf(c), RefOf(cr)) ==> RefOf(c) == RefOf(cr)
    ensures RefsAfter(before, after, {cr} + crs)
  {
    forall r ensures r in after <==>
      (exists c | c in {cr} + crs :: r == RefOf(c))
      || (r in before && forall c | c in {cr} + crs :: !SameObject(r, RefOf(c)))
    {
      if r == RefOf(cr) {
        assert cr in {cr} + crs;
        assert r in after;
      } else {
        assert (exists c | c in {cr} + crs :: r == RefOf(c)) <==> (exists c | c in crs :: r == RefOf(c));
      }
    }
  }

  // One CR, then the others, in owner UIDs.
  lemma CrossJoin(s: Store, u: Store, v: Store, key: Key, ids: seq<CrId>)
    requires SameWorld(s, u) && AllCarriedCrs(s, ids) && ids != [] && AllCarriedCrs(u, ids[1..])
    requires ids[0] in s.crs && EntriesAt(u, key) == Add(EntriesAt(s, key), EntryOf(s.crs[ids[0]]))
    requires Uids(EntriesAt(v, key)) == Uids(EntriesAt(u, key)) + UidsOf(u, ids[1..])
    ensures Uids(EntriesAt(v, key)) == Uids(EntriesAt(s, key)) + UidsOf(s, ids)
  {
    assert ids[0] in ids;
    AddLaws(EntriesAt(s, key), EntryOf(s.crs[ids[0]]));
    UidsJoin(s, u, ids);
  }

  lemma {:induction false} ManyCrossNs(s: Store, t: Target, deny: DenyList, key: Key, sa: Sa, ids: seq<CrId>)
    requires AllShare(s, t, deny, key, sa, ids) && AllCarriedCrs(s, ids)
    requires t.nsField.Some?
    ensures var s' := Reconciles(s, t, deny, ids);
            && Uids(EntriesAt(s', key)) == Uids(EntriesAt(s, key)) + UidsOf(s, ids)
            && (ids != [] ==> key in s'.rbs && s'.rbs[key].roleRef == ExpectedRef(t)
                              && s'.rbs[key].subjects == ExpectedSubjects(sa))
    decreases |ids|
  {
    if ids != [] {
      var s1 := ReconcileSpec(s, t, deny, ids[0]).0;
      ReconcileFrame(s, t, deny, ids[0]);
      ShareStable(s, s1, t, deny, key, sa, ids);
      CarriedStable(s, s1, ids);
      OneCrossNs(s, t, deny, key, sa, ids[0]);
      ManyCrossNs(s1, t, deny, key, sa, ids[1..]);
      CrossJoin(s, s1, Reconciles(s, t, deny, ids), key, ids);
    }
  }

  lemma OrderSameNs(s: Store, t: Target, deny: DenyList, key: Key, sa: Sa, ids: seq<CrId>, ids': seq<CrId>)
    requires AllShare(s, t, deny, key, sa, ids) && AllShare(s, t, deny, key, sa, ids') && ids != [] && ids' != []
    requires CrsOf(s, ids) == CrsOf(s, ids')
    requires t.nsField.None? && UidsTrue(s) && RefsTrue(s, OwnersAt(s, key), t, key.ns)
    ensures var (a, b) := (Reconciles(s, t, deny, ids), Reconciles(s, t, deny, ids'));
            && key in a.rbs && key in b.rbs
            && a.rbs[key].roleRef == b.rbs[key].roleRef == ExpectedRef(t)
            && a.rbs[key].subjects == b.rbs[key].subjects == ExpectedSubjects(sa)
            && RefUids(a.rbs[key]) == RefUids(b.rbs[key])
  {
    ManySameNs(s, t, deny, key, sa, ids);
    ManySameNs(s, t, deny, key, sa, ids');
    var a, b := Reconciles(s, t, deny, ids), Reconciles(s, t, deny, ids');
    assert forall r :: r in a.rbs[key].owners <==> r in b.rbs[key].owners;
  }

  // Whatever the order and the repetitions, reconciling the same CRs leaves a shared binding
  // with the same roleRef, subjects and owner UIDs.
  lemma OrderIndependence(s: Store, t: Target, deny: DenyList, key: Key, sa: Sa, ids: seq<CrId>, ids': seq<CrId>)
    requires AllShare(s, t, deny, key, sa, ids)
    requires ids != [] && forall id :: id in ids <==> id in ids'
    requires t.nsField.None? ==> UidsTrue(s) && RefsTrue(s, OwnersAt(s, key), t, key.ns)
    requires t.nsField.Some? ==> AllCarriedCrs(s, ids)
    ensures var (a, b) := (Reconciles(s, t, deny, ids), Reconciles(s, t, deny, ids'));
            && key in a.rbs && key in b.rbs
            && GrantsOnly(a.rbs[key], t.clusterRole, sa.ns, sa.name)
            && GrantsOnly(b.rbs[key], t.clusterRole, sa.ns, sa.name)
            && (t.nsField.None? ==> RefUids(a.rbs[key]) == RefUids(b.rbs[key]))
            && (t.nsField.Some? ==> Uids(Entries(a.rbs[key])) == Uids(Entries(b.rbs[key])))
  {
    assert ids[0] in ids';
    assert CrsOf(s, ids) == CrsOf(s, ids') && UidsOf(s, ids) == UidsOf(s, ids');
    if t.nsField.None? {
      OrderSameNs(s, t, deny, key, sa, ids, ids');
    } else {
      ManyCrossNs(s, t, deny, key, sa, ids);
      ManyCrossNs(s, t, deny, key, sa, ids');
    }
    ExpectedGrants(Reconciles(s, t, deny, ids).rbs[key], t, sa);
    ExpectedGrants(Reconciles(s, t, deny, ids').rbs[key], t, sa);
  }

  // Each reference keeps its place, unless r took the place of one to its own object.
  ghost predicate KeptInPlace(before: seq<OwnerRef>, after: seq<OwnerRef>, r: OwnerRef) {
    && |before| <= |after|
    && (forall i | 0 <= i < |before| :: after[i] == before[i] || (SameObject(before[i], r) && after[i] == r))
    && (forall i | |before| <= i < |after| :: after[i] == r)
  }

  lemma {:induction false} SetOwnerInPlace(refs: seq<OwnerRef>, r: OwnerRef)
    ensures KeptInPlace(refs, SetOwner(refs, r), r)
  {
    if refs != [] && !SameObject(refs[0], r) {
      SetOwnerInPlace(refs[1..], r);
      forall i | 0 < i < |refs|
        ensures SetOwner(refs, r)[i] == refs[i] || (SameObject(refs[i], r) && SetOwner(refs, r)[i] == r)
      {
        assert refs[1..][i - 1] == refs[i];
      }
    }
  }

  lemma AdoptKeeps(refs: seq<OwnerRef>, due: bool, cr: Cr)
    ensures KeptInPlace(refs, Adopted(refs, due, cr), RefOf(cr)) && HasOwner(Adopted(refs, due, cr), cr.uid)
  {
    SetOwnerInPlace(refs, RefOf(cr));
    SetOwnerInPlace(SetOwner(refs, RefOf(cr)), RefOf(cr));
    SetOwnerHas(refs, RefOf(cr));
    SetOwnerHas(SetOwner(refs, RefOf(cr)), RefOf(cr));
  }

  lemma CrossKeeps(s: Store, t: Target, cr: Cr, ns: string, sa: Sa)
    requires RecKey(t, cr, ns) in s.rbs && !SameNamespace(t, cr, ns)
    ensures Entries(s.rbs[RecKey(t, cr, ns)]) <= EntriesAt(EnsureSpec(s, t, cr, ns, sa), RecKey(t, cr, ns))
  {
    var key := RecKey(t, cr, ns);
    FixStepKeeps(s, t, key, sa);
    AppendKeeps(Ann(FixStep(s, t, key, sa).rbs[key], OWNERS_KEY), EntryOf(cr));
  }

  lemma SameKeepsAnnotation(s: Store, t: Target, cr: Cr, ns: string, sa: Sa)
    requires RecKey(t, cr, ns) in s.rbs && SameNamespace(t, cr, ns)
    ensures var key := RecKey(t, cr, ns);
            EntriesAt(EnsureSpec(s, t, cr, ns, sa), key) == Entries(s.rbs[key])
  {
    FixStepKeeps(s, t, RecKey(t, cr, ns), sa);
  }

  lemma RepairForgetsPending(s: Store, t: Target, cr: Cr, ns: string, sa: Sa)
    requires RecKey(t, cr, ns) in s.rbs && s.rbs[RecKey(t, cr, ns)].roleRef != ExpectedRef(t)
    ensures var s' := EnsureSpec(s, t, cr, ns, sa);
            RecKey(t, cr, ns) in s'.rbs && PENDING_KEY !in s'.rbs[RecKey(t, cr, ns)].annotations
  {
    FixStepKeeps(s, t, RecKey(t, cr, ns), sa);
  }

  // Repairing a drifted roleRef recreates the binding but keeps every recorded owner; only a
  // pending owner is forgotten.
  lemma RepairKeepsOwners(s: Store, t: Target, cr: Cr, ns: string, sa: Sa)
    requires RecKey(t, cr, ns) in s.rbs
    ensures var key := RecKey(t, cr, ns);
            var s' := EnsureSpec(s, t, cr, ns, sa);
            && key in s'.rbs
            && (if SameNamespace(t, cr, ns)
                then KeptInPlace(s.rbs[key].owners, s'.rbs[key].owners, RefOf(cr)) && HasOwner(s'.rbs[key].owners, cr.uid)
                else s'.rbs[key].owners == s.rbs[key].owners)
            && Entries(s.rbs[key]) <= Entries(s'.rbs[key])
            && (s.rbs[key].roleRef != ExpectedRef(t) ==> PENDING_KEY !in s'.rbs[key].annotations)
  {
    var key := RecKey(t, cr, ns);
    EnsuredRb(s, t, cr, ns, sa);
    if SameNamespace(t, cr, ns) {
      AdoptKeeps(s.rbs[key].owners, true, cr);
      AdoptKeeps(s.rbs[key].owners, false, cr);
      SameKeepsAnnotation(s, t, cr, ns, sa);
    } else {
      CrossKeeps(s, t, cr, ns, sa);
    }
    if s.rbs[key].roleRef != ExpectedRef(t) {
      RepairForgetsPending(s, t, cr, ns, sa);
    }
  }

  // ---- The label trigger beside the reconciler ---------------------------------------------------

  datatype Facet = Facet(roleRef: RoleRef, subjects: seq<Subject>, owners: set<string>)

  ghost function View(s: Store): map<Key, Facet> {
    map k | k in s.rbs :: Facet(s.rbs[k].roleRef, s.rbs[k].subjects, RefUids(s.rbs[k]))
  }

  predicate SameFacet(a: Store, b: Store, key: Key) {
    && (key in a.rbs <==> key in b.rbs)
    && (key in a.rbs ==>
          && a.rbs[key].roleRef == b.rbs[key].roleRef
          && a.rbs[key].subjects == b.rbs[key].subjects
          && a.rbs[key].owners == b.rbs[key].owners)
  }

  // A target the label trigger accepts: same namespace, static service account.
  predicate TriggerTarget(t: Target) {
    t.nsField.None? && t.saSource.None? && t.saFunc.None?
  }

  lemma LabelKeepsAdopted(s: Store, t: Target, deny: DenyList, ns: string, key: Key)
    requires key in s.rbs && (s.rbs[key].owners != [] || key != Key(ns, t.rbName))
    ensures key in LabelSpec(s, t, deny, ns).0.rbs && LabelSpec(s, t, deny, ns).0.rbs[key] == s.rbs[key]
  {}

  lemma AdoptedNonEmpty(refs: seq<OwnerRef>, due: bool, cr: Cr)
    ensures Adopted(refs, due, cr) != []
    ensures refs == [] ==> Adopted(refs, due, cr) == [RefOf(cr)]
  {
    SetOwnerAt(refs, RefOf(cr));
    if refs == [] {
      assert [RefOf(cr)][0].uid == cr.uid;
    }
  }

  lemma LabelFrame(s: Store, t: Target, deny: DenyList, ns: string)
    ensures var u := LabelSpec(s, t, deny, ns).0;
            && SameWorld(s, u)
            && (forall k | k != Key(ns, t.rbName) :: (k in u.rbs <==> k in s.rbs) && (k in s.rbs ==> u.rbs[k] == s.rbs[k]))
            && (OwnersAt(s, Key(ns, t.rbName)) != [] ==> u == s)
            && (OwnersAt(s, Key(ns, t.rbName)) == [] ==> OwnersAt(u, Key(ns, t.rbName)) == [])
  {}

  lemma DiamondSameKey(s: Store, t: Target, deny: DenyList, ns: string, cr: Cr)
    requires TriggerTarget(t) && RecKey(t, cr, cr.id.ns) == Key(ns, t.rbName)
    ensures View(EnsureSpec(LabelSpec(s, t, deny, ns).0, t, cr, cr.id.ns, t.sa))
         == View(LabelSpec(EnsureSpec(s, t, cr, cr.id.ns, t.sa), t, deny, ns).0)
  {
    var key := Key(ns, t.rbName);
    var l := LabelSpec(s, t, deny, ns).0;
    var r := EnsureSpec(s, t, cr, cr.id.ns, t.sa);
    var lr := EnsureSpec(l, t, cr, cr.id.ns, t.sa);
    EnsureFrame(s, t, cr, cr.id.ns, t.sa);
    EnsureFrame(l, t, cr, cr.id.ns, t.sa);
    EnsuredRb(s, t, cr, cr.id.ns, t.sa);
    EnsuredRb(l, t, cr, cr.id.ns, t.sa);
    LabelFrame(s, t, deny, ns);
    if OwnersAt(s, key) == [] {
      AdoptedNonEmpty([], true, cr);
      AdoptedNonEmpty([], false, cr);
      assert lr.rbs[key].owners == [RefOf(cr)] == r.rbs[key].owners;
    } else {
      AdoptedNonEmpty(OwnersAt(s, key), true, cr);
      AdoptedNonEmpty(OwnersAt(s, key), false, cr);
    }
    LabelFrame(r, t, deny, ns);
    assert View(lr) == View(r) by {
      assert lr.rbs.Keys == r.rbs.Keys;
    }
  }

  lemma DiamondOtherKey(s: Store, t: Target, deny: DenyList, ns: string, cr: Cr)
    requires TriggerTarget(t) && RecKey(t, cr, cr.id.ns) != Key(ns, t.rbName)
    ensures View(EnsureSpec(LabelSpec(s, t, deny, ns).0, t, cr, cr.id.ns, t.sa))
         == View(LabelSpec(EnsureSpec(s, t, cr, cr.id.ns, t.sa), t, deny, ns).0)
  {
    var key := Key(ns, t.rbName);
    var k := RecKey(t, cr, cr.id.ns);
    var l := LabelSpec(s, t, deny, ns).0;
    var r := EnsureSpec(s, t, cr, cr.id.ns, t.sa);
    var lr := EnsureSpec(l, t, cr, cr.id.ns, t.sa);
    var rl := LabelSpec(r, t, deny, ns).0;
    EnsureFrame(s, t, cr, cr.id.ns, t.sa);
    EnsureFrame(l, t, cr, cr.id.ns, t.sa);
    EnsuredRb(s, t, cr, cr.id.ns, t.sa);
    EnsuredRb(l, t, cr, cr.id.ns, t.sa);
    LabelFrame(s, t, deny, ns);
    LabelFrame(r, t, deny, ns);
    LabelLocal(s, r, t, deny, ns);
    ViewsAgree(s, l, r, lr, rl, key, k);
  }

  // Two changes at different bindings commute in view.
  lemma ViewsAgree(s: Store, l: Store, r: Store, lr: Store, rl: Store, key: Key, k: Key)
    requires key != k && Touches(s, r, k) && Touches(l, lr, k)
    requires forall x | x != key :: (x in l.rbs <==> x in s.rbs) && (x in s.rbs ==> l.rbs[x] == s.rbs[x])
    requires forall x | x != key :: (x in rl.rbs <==> x in r.rbs) && (x in r.rbs ==> rl.rbs[x] == r.rbs[x])
    requires SameFacet(l, rl, key) && SameFacet(lr, r, k)
    ensures View(lr) == View(rl)
  {
    assert lr.rbs.Keys == rl.rbs.Keys;
    forall x | x in lr.rbs ensures SameFacet(lr, rl, x) {
      if x != key && x != k {
        assert lr.rbs[x] == l.rbs[x] == s.rbs[x] == r.rbs[x] == rl.rbs[x];
      }
    }
  }

  lemma DriftAt(s: Store, t: Target, key: Key)
    requires key in s.rbs
    ensures var (rb, s') := (s.rbs[key], DriftStep(s, t, key));
            && key in s'.rbs && s'.rbs[key].owners == rb.owners
            && s'.rbs[key].roleRef == (if rb.owners == [] then ExpectedRef(t) else rb.roleRef)
            && s'.rbs[key].subjects == (if rb.owners == [] then ExpectedSubjects(t.sa) else rb.subjects)
  {}

  lemma OrphanLocal(s: Store, u: Store, key: Key)
    requires key in s.rbs <==> key in u.rbs
    requires key in s.rbs ==> s.rbs[key] == u.rbs[key]
    ensures SameFacet(OrphanStep(s, key), OrphanStep(u, key), key)
  {}

  // What the label trigger leaves at its binding depends only on what was there.
  lemma LabelLocal(s: Store, u: Store, t: Target, deny: DenyList, ns: string)
    requires SameWorld(s, u)
    requires Key(ns, t.rbName) in s.rbs <==> Key(ns, t.rbName) in u.rbs
    requires Key(ns, t.rbName) in s.rbs ==> s.rbs[Key(ns, t.rbName)] == u.rbs[Key(ns, t.rbName)]
    ensures SameFacet(LabelSpec(s, t, deny, ns).0, LabelSpec(u, t, deny, ns).0, Key(ns, t.rbName))
  {
    var key := Key(ns, t.rbName);
    OrphanLocal(s, u, key);
    if key in s.rbs {
      DriftAt(s, t, key);
      DriftAt(u, t, key);
    }
  }

  // The label trigger and a reconcile commute: in either order, from any bindings, labels,
  // deny list, selectors and ClusterRole, the same bindings exist with the same roleRef,
  // subjects and owners.
  lemma AdoptionDiamond(s: Store, t: Target, deny: DenyList, ns: string, id: CrId)
    requires TriggerTarget(t)
    ensures View(ReconcileSpec(LabelSpec(s, t, deny, ns).0, t, deny, id).0)
         == View(LabelSpec(ReconcileSpec(s, t, deny, id).0, t, deny, ns).0)
  {
    LabelFrame(s, t, deny, ns);
    ReachesStable(s, LabelSpec(s, t, deny, ns).0, t, deny, id);
    if Reaches(s, t, deny, id) {
      if RecKey(t, s.crs[id], s.crs[id].id.ns) == Key(ns, t.rbName) {
        DiamondSameKey(s, t, deny, ns, s.crs[id]);
      } else {
        DiamondOtherKey(s, t, deny, ns, s.crs[id]);
      }
    }
  }
}
