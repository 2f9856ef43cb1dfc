// What one undisturbed fault-free run of each actor does, told without the functions the
// programs are made of: who is served, what exactly is written, and what stays.
module ScoperEffects {
  import opened Strings
  import opened Ownership
  import opened ScoperTypes
  import opened ScoperActors
  import opened ScoperSolo
  import opened ScoperLaws
  import opened ScoperCleanup
  import opened ScoperGrants

  // ---- The CR reconciler ----------------------------------------------------------------------

  // Nothing forbids a grant of target t in ns: not the deny list, not the labels, not the ClusterRole.
  ghost predicate Open(s: Store, t: Target, deny: DenyList, ns: string) {
    && Permitted(ns, deny)
    && (t.selector.Some? ==> ns in s.namespaces && Passes(t.selector, s.namespaces[ns]))
    && t.clusterRole in s.clusterRoles && s.clusterRoles[t.clusterRole] == false
  }

  // CR id asks for a grant to sa in ns, and may have it.
  ghost predicate Served(s: Store, t: Target, deny: DenyList, id: CrId, ns: string, sa: Sa) {
    id in s.crs && AsksFor(t, s.crs[id], ns) && ActsFor(t, s.crs[id], sa) && Open(s, t, deny, ns)
  }

  lemma ServedIff(s: Store, t: Target, deny: DenyList, id: CrId, ns: string, sa: Sa)
    ensures Served(s, t, deny, id, ns, sa) <==>
              Reaches(s, t, deny, id) && TargetNs(t, s.crs[id]) == Some(ns) && ResolveSa(t, s.crs[id]) == Some(sa)
  {
    PermittedIff(ns, deny);
    if id in s.crs {
      AsksForIff(t, s.crs[id], ns);
      ActsForIff(t, s.crs[id], sa);
    }
  }

  function BindingOf(t: Target, cr: Cr, ns: string): Key {
    Key(ns, match t.nameFunc case Some(f) => f(cr) case None => t.rbName)
  }

  // A CR that is served has its grant afterwards, exactly, and nothing else has changed.
  lemma ReconcileGrants(s: Store, t: Target, deny: DenyList, id: CrId, ns: string, sa: Sa)
    requires Served(s, t, deny, id, ns, sa)
    ensures var s' := ReconcileSpec(s, t, deny, id).0;
            var key := BindingOf(t, s.crs[id], ns);
            && key in s'.rbs && GrantsOnly(s'.rbs[key], t.clusterRole, sa.ns, sa.name)
            && SameWorld(s, s') && (forall k | k != key :: Same(s, s', k))
  {
    ServedIff(s, t, deny, id, ns, sa);
    ReconcileIs(s, t, deny, id);
    EnsureFrame(s, t, s.crs[id], ns, sa);
    EnsuredRb(s, t, s.crs[id], ns, sa);
    ExpectedGrants(ReconcileSpec(s, t, deny, id).0.rbs[RecKey(t, s.crs[id], ns)], t, sa);
  }

  // A CR that is not served, or is not there, changes nothing.
  lemma ReconcileRefuses(s: Store, t: Target, deny: DenyList, id: CrId)
    requires forall ns, sa :: !Served(s, t, deny, id, ns, sa)
    ensures ReconcileSpec(s, t, deny, id).0 == s
  {
    ReconcileIs(s, t, deny, id);
    if Reaches(s, t, deny, id) {
      ServedIff(s, t, deny, id, TargetNs(t, s.crs[id]).value, ResolveSa(t, s.crs[id]).value);
    }
  }

  // The binding made where there was none, field by field.
  lemma ReconcileCreates(s: Store, t: Target, deny: DenyList, id: CrId, ns: string, sa: Sa)
    requires Served(s, t, deny, id, ns, sa) && BindingOf(t, s.crs[id], ns) !in s.rbs
    ensures var s' := ReconcileSpec(s, t, deny, id).0;
            var (cr, key) := (s.crs[id], BindingOf(t, s.crs[id], ns));
            key in s'.rbs &&
            var rb := s'.rbs[key];
            && rb.labels == map["operator-rbac-toolkit.io/managed" := "true"]
            && if t.nsField.None? then
                 && rb.owners == [OwnerRef(cr.id.gvk.group, cr.id.gvk.kind, cr.id.name, cr.uid)]
                 && rb.annotations == map["operator-rbac-toolkit.io/created-by" := "scoper"]
               else
                 && rb.owners == []
                 && rb.annotations == map["operator-rbac-toolkit.io/created-by" := "scoper",
                      "operator-rbac-toolkit.io/scoped-access-owners" := cr.id.ns + "/" + cr.id.name + "/" + cr.uid]
  {
    ServedIff(s, t, deny, id, ns, sa);
    ReconcileIs(s, t, deny, id);
    FormatOne(EntryOf(s.crs[id]));
    if t.nsField.None? {
      AsksForIff(t, s.crs[id], ns);
    }
  }

  lemma FormatOne(e: OwnerEntry)
    ensures Format([e]) == e.ns + "/" + e.name + "/" + e.uid
  {
    TextsAppend([], e);
    assert [] + [e] == [e] && Format([e]) == EntryText(e);
    assert EntryText(e) == e.ns + "/" + (e.name + "/" + e.uid) == e.ns + "/" + e.name + "/" + e.uid;
  }

  lemma {:induction false} FormatAppend(es: seq<OwnerEntry>, e: OwnerEntry)
    requires es != []
    ensures Format(es + [e]) == Format(es) + "," + EntryText(e)
  {
    TextsAppend(es, e);
    JoinAppend(EntryTexts(es), EntryText(e), ',');
  }

  // refs' records cr, as a new owner behind the others if neither its UID nor its object was known
  // to refs; references to other objects keep their places.
  ghost predicate Owns(cr: Cr, refs: seq<OwnerRef>, refs': seq<OwnerRef>) {
    var ref := OwnerRef(cr.id.gvk.group, cr.id.gvk.kind, cr.id.name, cr.uid);
    && (exists i | 0 <= i < |refs'| :: refs'[i].uid == cr.uid)
    && ((forall i | 0 <= i < |refs| :: refs[i].uid != cr.uid && !IsAbout(refs[i], cr)) ==> refs' == refs + [ref])
    && (ref in refs ==> |refs'| == |refs|)
    && (forall i | 0 <= i < |refs| && !IsAbout(refs[i], cr) :: i < |refs'| && refs'[i] == refs[i])
  }

  lemma AdoptedOwns(refs: seq<OwnerRef>, due: bool, cr: Cr)
    ensures Owns(cr, refs, Adopted(refs, due, cr))
  {
    AdoptKeeps(refs, due, cr);
    SetOwnerNew(refs, RefOf(cr));
    SetOwnerKnown(refs, RefOf(cr));
    SetOwnerHas(refs, RefOf(cr));
    if RefOf(cr) in refs {
      var i :| 0 <= i < |refs| && refs[i] == RefOf(cr);
      assert HasOwner(refs, cr.uid);
    }
  }

  // An existing binding of the CR's own namespace records the CR.
  lemma ReconcileOwns(s: Store, t: Target, deny: DenyList, id: CrId, ns: string, sa: Sa)
    requires Served(s, t, deny, id, ns, sa) && BindingOf(t, s.crs[id], ns) in s.rbs && t.nsField.None?
    ensures var s' := ReconcileSpec(s, t, deny, id).0;
            var key := BindingOf(t, s.crs[id], ns);
            key in s'.rbs && Owns(s.crs[id], s.rbs[key].owners, s'.rbs[key].owners)
  {
    var cr, key := s.crs[id], BindingOf(t, s.crs[id], ns);
    ServedIff(s, t, deny, id, ns, sa);
    AsksForIff(t, cr, ns);
    ReconcileIs(s, t, deny, id);
    EnsuredRb(s, t, cr, ns, sa);
    AdoptedOwns(s.rbs[key].owners, true, cr);
    AdoptedOwns(s.rbs[key].owners, false, cr);
  }

  // The reference is to the object cr: its group, kind and name.
  predicate IsAbout(r: OwnerRef, cr: Cr) {
    r.group == cr.id.gvk.group && r.kind == cr.id.gvk.kind && r.name == cr.id.name
  }

  lemma {:induction false} SetOwnerNew(refs: seq<OwnerRef>, r: OwnerRef)
    ensures (forall i | 0 <= i < |refs| :: !SameObject(refs[i], r)) ==> SetOwner(refs, r) == refs + [r]
  {
    if refs != [] && !SameObject(refs[0], r) {
      assert forall i | 0 <= i < |refs[1..]| :: refs[1..][i] == refs[i + 1];
      SetOwnerNew(refs[1..], r);
    }
  }

  lemma {:induction false} SetOwnerKnown(refs: seq<OwnerRef>, r: OwnerRef)
    ensures (exists i | 0 <= i < |refs| :: SameObject(refs[i], r)) ==> |SetOwner(refs, r)| == |refs|
  {
    if refs != [] && !SameObject(refs[0], r) {
      assert forall i | 0 < i < |refs| :: refs[1..][i - 1] == refs[i];
      SetOwnerKnown(refs[1..], r);
    }
  }

  // The owners read from the annotations of a binding.
  function OwnersOf(annotations: map<string, string>): seq<OwnerEntry> {
    var owners := "operator-rbac-toolkit.io/scoped-access-owners";
    Parse(if owners in annotations then annotations[owners] else "")
  }

  // The owner annotation now lists cr: written behind the owners listed so far if its UID is not
  // among theirs and no delimiter in its namespace or name forbids it; otherwise it stays.
  ghost predicate Lists(cr: Cr, a: map<string, string>, a': map<string, string>) {
    var owners := "operator-rbac-toolkit.io/scoped-access-owners";
    var es := OwnersOf(a);
    if (forall e | e in es :: e.uid != cr.uid) && (forall c | c in "/," :: c !in cr.id.ns && c !in cr.id.name) then
      owners in a' && a'[owners] == (if es == [] then "" else Format(es) + ",") + (cr.id.ns + "/" + cr.id.name + "/" + cr.uid)
    else
      (owners in a' <==> owners in a) && (owners in a ==> a'[owners] == a[owners])
  }

  lemma AddedText(es: seq<OwnerEntry>, e: OwnerEntry)
    ensures Format(es + [e]) == (if es == [] then "" else Format(es) + ",") + (e.ns + "/" + e.name + "/" + e.uid)
  {
    assert EntryText(e) == e.ns + "/" + (e.name + "/" + e.uid) == e.ns + "/" + e.name + "/" + e.uid;
    if es == [] {
      FormatOne(e);
      assert es + [e] == [e];
    } else {
      FormatAppend(es, e);
    }
  }

  lemma EntryStepLists(s: Store, cr: Cr, key: Key)
    requires key in s.rbs
    ensures key in EntryStep(s, cr, key).rbs
    ensures Lists(cr, s.rbs[key].annotations, EntryStep(s, cr, key).rbs[key].annotations)
  {
    var es, e := Entries(s.rbs[key]), EntryOf(cr);
    DelimitedIff(e);
    AddedText(es, e);
    assert e.uid in Uids(es) <==> exists x | x in es :: x.uid == e.uid;
  }

  // An existing binding of another namespace lists the CR.
  lemma ReconcileLists(s: Store, t: Target, deny: DenyList, id: CrId, ns: string, sa: Sa)
    requires Served(s, t, deny, id, ns, sa) && BindingOf(t, s.crs[id], ns) in s.rbs && t.nsField.Some?
    ensures var s' := ReconcileSpec(s, t, deny, id).0;
            var key := BindingOf(t, s.crs[id], ns);
            key in s'.rbs && Lists(s.crs[id], s.rbs[key].annotations, s'.rbs[key].annotations)
  {
    var cr, key := s.crs[id], BindingOf(t, s.crs[id], ns);
    ServedIff(s, t, deny, id, ns, sa);
    ReconcileIs(s, t, deny, id);
    FixStepKeeps(s, t, key, sa);
    FixStepAnnotation(s, t, key, sa);
    EntryStepLists(FixStep(s, t, key, sa), cr, key);
  }

  lemma DelimitedIff(e: OwnerEntry)
    ensures Delimited(e) <==> !forall c | c in "/," :: c !in e.ns && c !in e.name
  {
    assert "/,"[0] == '/' && "/,"[1] == ',';
  }

  lemma FixStepAnnotation(s: Store, t: Target, key: Key, sa: Sa)
    requires key in s.rbs
    ensures var (a, b) := (s.rbs[key].annotations, FixStep(s, t, key, sa).rbs[key].annotations);
            && (OWNERS_KEY in a <==> OWNERS_KEY in b) && (OWNERS_KEY in a ==> a[OWNERS_KEY] == b[OWNERS_KEY])
  {}

  // The text of a pending owner: the CR asked for, its kind, and a time in whole seconds.
  function Asked(ns: string, name: string, gvk: Gvk, sec: nat): string {
    ns + "/" + name + "/" + gvk.group + "/" + gvk.version + "/" + gvk.kind + "/" + Digits(sec)
  }

  lemma AskedIs(ns: string, name: string, gvk: Gvk, sec: nat)
    ensures Asked(ns, name, gvk, sec) == PendingText(ns, name, gvk, sec)
  {
    var d := Digits(sec);
    assert Join([d], '/') == d;
    assert Join([gvk.kind, d], '/') == gvk.kind + "/" + d;
    assert Join([gvk.version, gvk.kind, d], '/') == gvk.version + "/" + (gvk.kind + "/" + d);
    assert Join([gvk.group, gvk.version, gvk.kind, d], '/') == gvk.group + "/" + (gvk.version + "/" + (gvk.kind + "/" + d));
    assert Join([name, gvk.group, gvk.version, gvk.kind, d], '/')
        == name + "/" + (gvk.group + "/" + (gvk.version + "/" + (gvk.kind + "/" + d)));
    assert PendingText(ns, name, gvk, sec)
        == ns + "/" + (name + "/" + (gvk.group + "/" + (gvk.version + "/" + (gvk.kind + "/" + d))));
  }

  predicate NoSlash(ns: string, name: string, gvk: Gvk) {
    '/' !in ns && '/' !in name && '/' !in gvk.group && '/' !in gvk.version && '/' !in gvk.kind
  }

  // A pending owner is taken off by a reconcile of the CR it names, once that has a UID, and by
  // no other reconcile.
  lemma ReconcileTakesOver(s: Store, t: Target, deny: DenyList, id: CrId, ns: string, sa: Sa, of: string, name: string, stamp: nat)
    requires Served(s, t, deny, id, ns, sa) && BindingOf(t, s.crs[id], ns) in s.rbs && t.nsField.None?
    requires NoSlash(of, name, t.gvk)
    requires var rb := s.rbs[BindingOf(t, s.crs[id], ns)];
             && rb.roleRef == RoleRef("rbac.authorization.k8s.io", "ClusterRole", t.clusterRole)
             && "operator-rbac-toolkit.io/pending-owner" in rb.annotations
             && rb.annotations["operator-rbac-toolkit.io/pending-owner"] == Asked(of, name, t.gvk, stamp / 1000)
    ensures var s' := ReconcileSpec(s, t, deny, id).0;
            var key := BindingOf(t, s.crs[id], ns);
            key in s'.rbs && s'.rbs[key].annotations
              == if of == s.crs[id].id.ns && name == s.crs[id].id.name && s.crs[id].uid != ""
                 then s.rbs[key].annotations - {"operator-rbac-toolkit.io/pending-owner"}
                 else s.rbs[key].annotations
  {
    var cr, key := s.crs[id], BindingOf(t, s.crs[id], ns);
    ServedIff(s, t, deny, id, ns, sa);
    AsksForIff(t, cr, ns);
    ReconcileIs(s, t, deny, id);
    AskedIs(of, name, t.gvk, stamp / 1000);
    PendingRoundTrip(of, name, t.gvk, stamp);
    BackfillAnnotations(s, t, cr, ns, sa, of, name);
  }

  lemma BackfillAnnotations(s: Store, t: Target, cr: Cr, ns: string, sa: Sa, of: string, name: string)
    requires RecKey(t, cr, ns) in s.rbs && SameNamespace(t, cr, ns)
    requires var rb := s.rbs[RecKey(t, cr, ns)];
             && rb.roleRef == ExpectedRef(t) && PENDING_KEY in rb.annotations
             && ParsePending(rb.annotations[PENDING_KEY]).Some?
             && ParsePending(rb.annotations[PENDING_KEY]).value.ns == of
             && ParsePending(rb.annotations[PENDING_KEY]).value.name == name
    ensures var (s', key) := (EnsureSpec(s, t, cr, ns, sa), RecKey(t, cr, ns));
            key in s'.rbs && s'.rbs[key].annotations
              == if of == cr.id.ns && name == cr.id.name && cr.uid != ""
                 then s.rbs[key].annotations - {PENDING_KEY} else s.rbs[key].annotations
  {
    var key := RecKey(t, cr, ns);
    var s1 := FixStep(s, t, key, sa);
    assert key in s1.rbs && s1.rbs[key].annotations == s.rbs[key].annotations;
    OwnerStepHas(BackfillStep(s1, cr, key), cr, key);
  }

  // What a reconcile keeps of an existing binding, besides its owners and the pending owner: all
  // of it, or, where the roleRef had drifted, the owner annotation alone.
  lemma ReconcileKeeps(s: Store, t: Target, deny: DenyList, id: CrId, ns: string, sa: Sa)
    requires Served(s, t, deny, id, ns, sa) && BindingOf(t, s.crs[id], ns) in s.rbs
    ensures var s' := ReconcileSpec(s, t, deny, id).0;
            var key := BindingOf(t, s.crs[id], ns);
            && key in s'.rbs
            && KeepsRest(t, "scoper", s.rbs[key], s'.rbs[key],
                         {"operator-rbac-toolkit.io/scoped-access-owners", "operator-rbac-toolkit.io/pending-owner"})
            && (t.nsField.None? ==> KeepsAt("operator-rbac-toolkit.io/scoped-access-owners", s.rbs[key], s'.rbs[key]))
            && (t.nsField.Some? ==> s'.rbs[key].owners == s.rbs[key].owners)
            && (t.nsField.Some? && !Drifts(t, s.rbs[key]) ==>
                  KeepsAt("operator-rbac-toolkit.io/pending-owner", s.rbs[key], s'.rbs[key]))
            && (Drifts(t, s.rbs[key]) ==> "operator-rbac-toolkit.io/pending-owner" !in s'.rbs[key].annotations)
  {
    var cr, key := s.crs[id], BindingOf(t, s.crs[id], ns);
    ServedIff(s, t, deny, id, ns, sa);
    AsksForIff(t, cr, ns);
    ReconcileIs(s, t, deny, id);
    var s1 := FixStep(s, t, key, sa);
    FixKeeps(s, t, key, sa);
    AdoptKeepsRest(s1, t, cr, ns);
    FixStepKeeps(s, t, key, sa);
    KeptOnward(s.rbs[key], s1.rbs[key], AdoptSpec(s1, t, cr, ns).rbs[key], {OWNERS_KEY, PENDING_KEY});
  }

  // The binding is to another role than the target's.
  predicate Drifts(t: Target, rb: RoleBinding) {
    rb.roleRef != RoleRef("rbac.authorization.k8s.io", "ClusterRole", t.clusterRole)
  }

  // Labels and annotations, but those of keys, are kept, or those of a new binding where the roleRef had drifted.
  predicate KeepsRest(t: Target, creator: string, rb: RoleBinding, rb': RoleBinding, keys: set<string>) {
    if Drifts(t, rb) then
      && rb'.labels == map["operator-rbac-toolkit.io/managed" := "true"]
      && rb'.annotations - keys == map["operator-rbac-toolkit.io/created-by" := creator]
    else RestKept(rb, rb', keys)
  }

  predicate KeepsAt(k: string, rb: RoleBinding, rb': RoleBinding) {
    (k in rb'.annotations <==> k in rb.annotations) && (k in rb.annotations ==> rb'.annotations[k] == rb.annotations[k])
  }

  // Labels and all annotations but those of keys are the same.
  predicate RestKept(rb: RoleBinding, rb': RoleBinding, keys: set<string>) {
    rb'.labels == rb.labels && rb'.annotations - keys == rb.annotations - keys
  }

  lemma KeptOnward(a: RoleBinding, b: RoleBinding, c: RoleBinding, keys: set<string>)
    requires RestKept(b, c, keys)
    ensures RestKept(a, b, keys) ==> RestKept(a, c, keys)
    ensures forall t, creator :: KeepsRest(t, creator, a, b, keys) ==> KeepsRest(t, creator, a, c, keys)
  {}

  lemma ListedKeeps(rb: RoleBinding, cr: Cr)
    ensures RestKept(rb, Listed(rb, cr), {OWNERS_KEY, PENDING_KEY}) && KeepsAt(PENDING_KEY, rb, Listed(rb, cr))
  {}

  lemma BackfilledKeeps(rb: RoleBinding, cr: Cr)
    ensures RestKept(rb, Backfilled(rb, cr), {OWNERS_KEY, PENDING_KEY}) && KeepsAt(OWNERS_KEY, rb, Backfilled(rb, cr))
  {}

  lemma RecreatedKeeps(t: Target, sa: Sa, rb: RoleBinding)
    requires Drifts(t, rb)
    ensures KeepsRest(t, "scoper", rb, RecreatedRb(t, sa, rb), {OWNERS_KEY, PENDING_KEY})
    ensures KeepsAt(OWNERS_KEY, rb, RecreatedRb(t, sa, rb)) && PENDING_KEY !in RecreatedRb(t, sa, rb).annotations
  {
    var a := RecreatedRb(t, sa, rb).annotations;
    assert a - {OWNERS_KEY, PENDING_KEY} == map[CREATED_BY_KEY := BY_SCOPER];
  }

  lemma FixKeeps(s: Store, t: Target, key: Key, sa: Sa)
    requires key in s.rbs
    ensures var (rb, rb') := (s.rbs[key], FixStep(s, t, key, sa).rbs[key]);
            && KeepsRest(t, "scoper", rb, rb', {OWNERS_KEY, PENDING_KEY}) && KeepsAt(OWNERS_KEY, rb, rb')
            && (if Drifts(t, rb) then PENDING_KEY !in rb'.annotations else rb'.annotations == rb.annotations)
  {
    if Drifts(t, s.rbs[key]) {
      RecreatedKeeps(t, sa, s.rbs[key]);
    }
  }

  lemma AdoptKeepsRest(s: Store, t: Target, cr: Cr, ns: string)
    requires RecKey(t, cr, ns) in s.rbs
    ensures var (s', key) := (AdoptSpec(s, t, cr, ns), RecKey(t, cr, ns));
            && key in s'.rbs
            && RestKept(s.rbs[key], s'.rbs[key], {OWNERS_KEY, PENDING_KEY})
            && if SameNamespace(t, cr, ns)
               then KeepsAt(OWNERS_KEY, s.rbs[key], s'.rbs[key])
                    && (PENDING_KEY !in s.rbs[key].annotations ==> PENDING_KEY !in s'.rbs[key].annotations)
               else s'.rbs[key].owners == s.rbs[key].owners && KeepsAt(PENDING_KEY, s.rbs[key], s'.rbs[key])
  {
    var key := RecKey(t, cr, ns);
    var rb, rb' := s.rbs[key], AdoptSpec(s, t, cr, ns).rbs[key];
    ListedKeeps(rb, cr);
    BackfilledKeeps(rb, cr);
    if SameNamespace(t, cr, ns) {
      assert rb'.labels == rb.labels && rb'.annotations == if BackfillDue(rb, cr) then Backfilled(rb, cr).annotations else rb.annotations;
    } else {
      assert rb'.labels == rb.labels && rb'.annotations == if Unlisted(rb, cr) then Listed(rb, cr).annotations else rb.annotations;
    }
  }

  // ---- The label trigger ------------------------------------------------------------------------

  // The labels of ns ask for the binding, and nothing but the ClusterRole can still forbid it.
  ghost predicate Triggered(s: Store, t: Target, deny: DenyList, ns: string) {
    && ns in s.namespaces && Permitted(ns, deny) && Passes(t.selector, s.namespaces[ns])
    && t.trigger.Some? && t.trigger.value.Matching? && t.trigger.value.test(s.namespaces[ns])
  }

  lemma TriggeredIff(s: Store, t: Target, deny: DenyList, ns: string)
    ensures Triggered(s, t, deny, ns) <==> ns in s.namespaces && Triggers(t, deny, ns, s.namespaces[ns])
  {
    PermittedIff(ns, deny);
  }

  // Labels that fail a test, or a denied namespace: no binding is made, one the label trigger
  // made and nobody owns is gone, and every other is as it was.
  lemma LabelWithdraws(s: Store, t: Target, deny: DenyList, ns: string)
    requires ns in s.namespaces && !Triggered(s, t, deny, ns)
    ensures var s' := LabelSpec(s, t, deny, ns).0;
            && SameWorld(s, s')
            && forall k :: Same(s, s', k) || (k == Key(ns, t.rbName) && k in s.rbs && k !in s'.rbs)
    ensures var (s', key) := (LabelSpec(s, t, deny, ns).0, Key(ns, t.rbName));
            key in s.rbs ==>
              (key !in s'.rbs <==>
                 && "operator-rbac-toolkit.io/created-by" in s.rbs[key].annotations
                 && s.rbs[key].annotations["operator-rbac-toolkit.io/created-by"] == "label-trigger"
                 && s.rbs[key].owners == [])
  {
    TriggeredIff(s, t, deny, ns);
  }

  // Labels that pass, with a ClusterRole that may be bound: the binding is there, and grants
  // exactly that role to the target's service account unless it has owners already.
  lemma LabelGrants(s: Store, t: Target, deny: DenyList, ns: string)
    requires Triggered(s, t, deny, ns) && t.clusterRole in s.clusterRoles && s.clusterRoles[t.clusterRole] == false
    ensures var (s', key) := (LabelSpec(s, t, deny, ns).0, Key(ns, t.rbName));
            && SameWorld(s, s') && (forall k | k != key :: Same(s, s', k))
            && key in s'.rbs
            && (key in s.rbs && s.rbs[key].owners != [] ==> s'.rbs[key] == s.rbs[key])
            && (OwnersAt(s, key) == [] ==> GrantsOnly(s'.rbs[key], t.clusterRole, t.sa.ns, t.sa.name))
            && (key !in s.rbs ==>
                  && s'.rbs[key].labels == map["operator-rbac-toolkit.io/managed" := "true"]
                  && s'.rbs[key].annotations == map["operator-rbac-toolkit.io/created-by" := "label-trigger"]
                  && s'.rbs[key].owners == [])
            && (key in s.rbs && s.rbs[key].owners == [] ==>
                  s'.rbs[key].owners == [] && KeepsRest(t, "label-trigger", s.rbs[key], s'.rbs[key], {}))
  {
    TriggeredIff(s, t, deny, ns);
    LabelFrame(s, t, deny, ns);
    var key := Key(ns, t.rbName);
    if key in s.rbs {
      DriftAt(s, t, key);
    }
    ExpectedGrants(LabelSpec(s, t, deny, ns).0.rbs[key], t, t.sa);
  }

  // Without the namespace, or with a ClusterRole that may not be bound, nothing changes.
  lemma LabelWaits(s: Store, t: Target, deny: DenyList, ns: string)
    requires ns in s.namespaces ==>
               Triggered(s, t, deny, ns) && !(t.clusterRole in s.clusterRoles && s.clusterRoles[t.clusterRole] == false)
    ensures LabelSpec(s, t, deny, ns).0 == s
  {
    TriggeredIff(s, t, deny, ns);
  }

  // ---- The webhook ----------------------------------------------------------------------------------

  // A request in an open namespace without a binding gets one, with the object it is about as
  // pending owner and the time the webhook read; a dry run, and any other request, gets nothing.
  lemma HookGrants(s: Store, t: Target, deny: DenyList, ns: string, name: string, dryRun: bool, now: nat)
    ensures var (s', key) := (HookSpec(s, t, deny, ns, name, dryRun, now), Key(ns, t.rbName));
            if !dryRun && key !in s.rbs && Open(s, t, deny, ns) then
              && SameWorld(s, s') && (forall k | k != key :: Same(s, s', k)) && key in s'.rbs
              && GrantsOnly(s'.rbs[key], t.clusterRole, t.sa.ns, t.sa.name) && s'.rbs[key].owners == []
              && s'.rbs[key].labels == map["operator-rbac-toolkit.io/managed" := "true"]
              && s'.rbs[key].annotations == map["operator-rbac-toolkit.io/created-by" := "webhook",
                   "operator-rbac-toolkit.io/pending-owner" := Asked(ns, name, t.gvk, now / 1000)]
            else s' == s
  {
    PermittedIff(ns, deny);
    AskedIs(ns, name, t.gvk, now / 1000);
    if !dryRun && Key(ns, t.rbName) !in s.rbs && Open(s, t, deny, ns) {
      ExpectedGrants(HookSpec(s, t, deny, ns, name, dryRun, now).rbs[Key(ns, t.rbName)], t, t.sa);
    }
  }

  // ---- Cleanup ----------------------------------------------------------------------------------------

  // Owner e of a binding in ns still asks: its CR is there, with the same UID, asking for ns.
  ghost predicate StillAsks(s: Store, t: Target, ns: string, e: OwnerEntry) {
    && CrId(t.gvk, e.ns, e.name) in s.crs
    && var cr := s.crs[CrId(t.gvk, e.ns, e.name)];
       cr.uid == e.uid && (t.nsField.Some? ==> ValueAt(cr, t.nsField.value, ns))
  }

  // A binding with a pending owner is dropped if that CR is not there and more than thirty seconds
  // have passed since the second in which it was stamped.
  lemma PendingExpires(s: Store, t: Target, now: nat, key: Key, rb: RoleBinding, of: string, name: string, stamp: nat)
    requires NoSlash(of, name, t.gvk)
    requires "operator-rbac-toolkit.io/pending-owner" in rb.annotations
    requires rb.annotations["operator-rbac-toolkit.io/pending-owner"] == Asked(of, name, t.gvk, stamp / 1000)
    ensures VerdictOn(s, t, now, key, rb)
         == if now > stamp / 1000 * 1000 + 30000 && CrId(t.gvk, of, name) !in s.crs then Drop else Keep
  {
    AskedIs(of, name, t.gvk, stamp / 1000);
    PendingRoundTrip(of, name, t.gvk, stamp);
  }

  // Any other binding keeps the owners that still ask, in order; it is dropped when it listed
  // owners and none does, and left alone when all do.
  lemma OwnersDecide(s: Store, t: Target, now: nat, key: Key, rb: RoleBinding)
    requires "operator-rbac-toolkit.io/pending-owner" !in rb.annotations
    ensures var es := OwnersOf(rb.annotations);
            match VerdictOn(s, t, now, key, rb)
            case Keep => forall e | e in es :: StillAsks(s, t, key.ns, e)
            case Drop => es != [] && forall e | e in es :: !StillAsks(s, t, key.ns, e)
            case Prune(valid) =>
              && valid != [] && (exists e | e in es :: !StillAsks(s, t, key.ns, e))
              && (forall e :: multiset(valid)[e] == if StillAsks(s, t, key.ns, e) then multiset(es)[e] else 0)
              && (forall i | 0 <= i < |es| && StillAsks(s, t, key.ns, es[i]) :: LiveOnes(s, t, key.ns, es[..i]) + [es[i]] <= valid)
  {
    var es := Entries(rb);
    LiveOnesShort(s, t, key.ns, es);
    forall e ensures OwnerLive(s, t, e, key.ns) <==> StillAsks(s, t, key.ns, e) {
      LiveIff(s, t, key.ns, e);
    }
    forall e ensures multiset(LiveOnes(s, t, key.ns, es))[e] == if StillAsks(s, t, key.ns, e) then multiset(es)[e] else 0 {
      LiveCounts(s, t, key.ns, es, e);
    }
    forall i | 0 <= i < |es| && StillAsks(s, t, key.ns, es[i])
      ensures LiveOnes(s, t, key.ns, es[..i]) + [es[i]] <= LiveOnes(s, t, key.ns, es)
    {
      LivePrefix(s, t, key.ns, es, i);
    }
    if |LiveOnes(s, t, key.ns, es)| != |es| {
      LiveMisses(s, t, key.ns, es);
    }
  }

  // Cleaning a target touches only managed bindings of its name, and of those that stay only the
  // owner annotation, which then reads as the owners that still ask.
  lemma CleanupCuts(s: Store, t: Target, now: nat, s': Store, key: Key)
    requires Cleaned(s, t, now, s') && key in s.rbs && key in s'.rbs
    ensures var (rb, rb') := (s.rbs[key], s'.rbs[key]);
            && rb' == rb.(annotations := rb'.annotations, rv := rb'.rv)
            && rb'.annotations - {"operator-rbac-toolkit.io/scoped-access-owners"}
               == rb.annotations - {"operator-rbac-toolkit.io/scoped-access-owners"}
            && (rb' == rb || (key.name == t.rbName && "operator-rbac-toolkit.io/managed" in rb.labels
                              && rb.labels["operator-rbac-toolkit.io/managed"] == "true"
                              && VerdictOn(s, t, now, key, rb) == Prune(OwnersOf(rb'.annotations))))
  {
    var rb := s.rbs[key];
    if key.name == t.rbName && Managed(rb) && VerdictOn(s, t, now, key, rb).Prune? {
      PrunedReads(s, t, key.ns, rb);
      PrunedRest(rb, LiveOnes(s, t, key.ns, Entries(rb)));
    }
  }

  lemma PrunedRest(rb: RoleBinding, es: seq<OwnerEntry>)
    ensures WithEntries(rb, es).annotations - {OWNERS_KEY} == rb.annotations - {OWNERS_KEY}
  {}

  lemma PrunedReads(s: Store, t: Target, ns: string, rb: RoleBinding)
    ensures var valid := LiveOnes(s, t, ns, Entries(rb));
            OwnersOf(WithEntries(rb, valid).annotations) == valid
  {
    var valid := LiveOnes(s, t, ns, Entries(rb));
    ParsedAreCarried(Ann(rb, OWNERS_KEY));
    forall e | e in valid ensures e in Entries(rb) {
      LiveCounts(s, t, ns, Entries(rb), e);
      assert multiset(valid)[e] > 0;
      assert e in multiset(Entries(rb));
    }
    FormatThenParse(valid);
  }

  lemma LiveIff(s: Store, t: Target, ns: string, e: OwnerEntry)
    ensures OwnerLive(s, t, e, ns) <==> StillAsks(s, t, ns, e)
  {
    var id := CrId(t.gvk, e.ns, e.name);
    if id in s.crs && t.nsField.Some? {
      FieldIff(s.crs[id], t.nsField.value, ns);
    }
  }

  lemma {:induction false} LiveCounts(s: Store, t: Target, ns: string, es: seq<OwnerEntry>, e: OwnerEntry)
    ensures multiset(LiveOnes(s, t, ns, es))[e] == if OwnerLive(s, t, e, ns) then multiset(es)[e] else 0
  {
    if es != [] {
      assert es == [es[0]] + es[1..];
      LiveCounts(s, t, ns, es[1..], e);
    }
  }

  lemma {:induction false} LiveConcat(s: Store, t: Target, ns: string, a: seq<OwnerEntry>, b: seq<OwnerEntry>)
    ensures LiveOnes(s, t, ns, a + b) == LiveOnes(s, t, ns, a) + LiveOnes(s, t, ns, b)
  {
    if a == [] {
      assert a + b == b;
    } else {
      assert (a + b)[1..] == a[1..] + b;
      LiveConcat(s, t, ns, a[1..], b);
    }
  }

  lemma LivePrefix(s: Store, t: Target, ns: string, es: seq<OwnerEntry>, i: nat)
    requires i < |es| && OwnerLive(s, t, es[i], ns)
    ensures LiveOnes(s, t, ns, es[..i]) + [es[i]] <= LiveOnes(s, t, ns, es)
  {
    assert es == es[..i] + es[i..];
    LiveConcat(s, t, ns, es[..i], es[i..]);
    assert LiveOnes(s, t, ns, es[i..]) == [es[i]] + LiveOnes(s, t, ns, es[i + 1..]);
  }

  lemma {:induction false} LiveMisses(s: Store, t: Target, ns: string, es: seq<OwnerEntry>)
    requires |LiveOnes(s, t, ns, es)| != |es|
    ensures exists e | e in es :: !OwnerLive(s, t, e, ns)
  {
    if OwnerLive(s, t, es[0], ns) {
      LiveMisses(s, t, ns, es[1..]);
      var e :| e in es[1..] && !OwnerLive(s, t, e, ns);
      assert e in es;
    }
  }

  // ---- Failed calls ------------------------------------------------------------------------------------

  // A call that fails ends a reconcile or a label trigger with an error, to be tried again; but a
  // namespace that a reconcile cannot read is refused, and a ClusterRole that cannot be read is
  // waited for. The webhook lets the request pass.
  lemma FailedCallsEnd(p: Proc, now: nat)
    requires Calls(p) && !p.Clean?
    ensures var q := Resume(p, Err(Transient), now);
            match p
            case Rec(_, _, _, at) =>
              q == Fin(if at.FetchNs? then Success else if at.FetchRole? then Requeue else Failure)
            case Lab(_, _, _, at) => q == Fin(if at.LabRole? then Requeue else Failure)
            case Hook(t, ns, name, dryRun, at) =>
              q == if at.HookLookup? then Hook(t, ns, name, dryRun, HookRole) else Fin(Success)
  {}

  // What another actor has done first is taken as done: a binding already deleted, or already
  // made, whose drift the label trigger then checks. A binding that has gone elsewhere on the way
  // ends the attempt with an error; when the CR or the namespace has gone there is nothing to do.
  lemma LostRaces(p: Proc, now: nat)
    requires Calls(p) && !p.Clean?
    ensures var made := Resume(p, Err(AlreadyExists), now);
            Next(p).CreateRb? ==>
              made == if p.Lab? && p.lab.LabCreate? then Lab(p.t, p.deny, p.ns, LabDriftGet) else Resume(p, Ok, now)
    ensures var gone := Resume(p, Err(NotFound), now);
            match Next(p)
            case DeleteRb(_) => gone == Resume(p, Ok, now)
            case GetCr(_) => gone == Fin(Success)
            case GetNamespace(_) => gone == Fin(Success)
            case GetClusterRole(_) => gone == Fin(if p.Hook? then Success else Requeue)
            case GetRb(_) => (
              match p
              case Rec(t, deny, id, at) =>
                gone == if at.Lookup? then Rec(t, deny, id, CreateNew(at.cr, at.ns, at.sa))
                        else if at.Refetch? then Rec(t, deny, id, DeleteOld(at.cr, at.ns, at.sa, at.existing))
                        else Fin(Failure)
              case Lab(_, _, _, at) => gone == Fin(if at.LabOrphanGet? then Success else Failure)
              case Hook(t, ns, name, dryRun, _) => gone == Hook(t, ns, name, dryRun, HookRole))
            case _ => true
  {}
}
