// Objects, configuration and annotation formats of pkg/scoper.
module ScoperTypes {
  import opened Strings
  import opened Ownership

  // ---- Objects held by the API server ------------------------------------------------

  datatype Gvk = Gvk(group: string, version: string, kind: string)
  datatype CrId = CrId(gvk: Gvk, ns: string, name: string)

  // A watched custom resource; fields are its non-empty or empty string fields by path.
  datatype Cr = Cr(id: CrId, uid: string, fields: map<seq<string>, string>)

  datatype Key = Key(ns: string, name: string)
  datatype OwnerRef = OwnerRef(group: string, kind: string, name: string, uid: string)
  datatype RoleRef = RoleRef(apiGroup: string, kind: string, name: string)
  datatype Subject = Subject(kind: string, apiGroup: string, name: string, ns: string)

  // uid tells incarnations of one key apart; rv is the resourceVersion.
  datatype RoleBinding = RoleBinding(
    labels: map<string, string>, annotations: map<string, string>, owners: seq<OwnerRef>,
    roleRef: RoleRef, subjects: seq<Subject>, uid: nat, rv: nat)

  // clusterRoles records for each ClusterRole whether it uses an aggregationRule.
  datatype Store = Store(
    rbs: map<Key, RoleBinding>, crs: map<CrId, Cr>, namespaces: map<string, map<string, string>>,
    clusterRoles: map<string, bool>, version: nat)

  // ---- Configuration -------------------------------------------------------------------

  // What metav1.LabelSelectorAsSelector makes of a configured selector.
  datatype LabelSelector = Unreadable | Matching(test: map<string, string> -> bool)

  datatype Sa = Sa(ns: string, name: string)
  datatype SaSource = SaSource(nameField: string, nsField: string)
  datatype DenyList = DenyList(namespaces: seq<string>, prefixes: seq<string>)

  datatype Target = Target(
    gvk: Gvk, resource: string, clusterRole: string, rbName: string,
    selector: Option<LabelSelector>, nsField: Option<string>, webhook: bool, trigger: Option<LabelSelector>,
    sa: Sa, saSource: Option<SaSource>, saFunc: Option<Cr -> Sa>, nameFunc: Option<Cr -> string>)

  const OWNERS_KEY := "operator-rbac-toolkit.io/scoped-access-owners"
  const MANAGED_KEY := "operator-rbac-toolkit.io/managed"
  const MANAGED_VALUE := "true"
  const PENDING_KEY := "operator-rbac-toolkit.io/pending-owner"
  const CREATED_BY_KEY := "operator-rbac-toolkit.io/created-by"
  const BY_WEBHOOK := "webhook"
  const BY_SCOPER := "scoper"
  const BY_LABEL_TRIGGER := "label-trigger"

  predicate Selects(selector: LabelSelector, labels: map<string, string>) {
    selector.Matching? && selector.test(labels)
  }

  // ---- validation.go ---------------------------------------------------------------------

  predicate IsDenied(ns: string, deny: DenyList) {
    ns in deny.namespaces || exists p | p in deny.prefixes :: p <= ns
  }

  // ---- Reading a custom resource -----------------------------------------------------------

  function TrimDot(path: string): string {
    if path != "" && path[0] == '.' then path[1..] else path
  }

  // extractFieldValue: a missing, empty or non-string field is an error.
  function Field(cr: Cr, path: string): Option<string> {
    var parts := Split(TrimDot(path), '.');
    if parts in cr.fields && cr.fields[parts] != "" then Some(cr.fields[parts]) else None
  }

  function TargetNs(t: Target, cr: Cr): Option<string> {
    if t.nsField.Some? then Field(cr, t.nsField.value) else Some(cr.id.ns)
  }

  function ResolveSa(t: Target, cr: Cr): Option<Sa> {
    if t.saFunc.Some? then Some(t.saFunc.value(cr))
    else if t.saSource.Some? then
      match Field(cr, t.saSource.value.nameField)
      case None => None
      case Some(name) =>
        if t.saSource.value.nsField == "" then Some(Sa(cr.id.ns, name))
        else
          match Field(cr, t.saSource.value.nsField)
          case None => None
          case Some(ns) => Some(Sa(ns, name))
    else Some(t.sa)
  }

  function RbName(t: Target, cr: Cr): string {
    if t.nameFunc.Some? then t.nameFunc.value(cr) else t.rbName
  }

  predicate SameNamespace(t: Target, cr: Cr, ns: string) {
    t.nsField.None? && cr.id.ns == ns
  }

  // ---- RoleBindings -------------------------------------------------------------------------

  function ExpectedRef(t: Target): RoleRef {
    RoleRef("rbac.authorization.k8s.io", "ClusterRole", t.clusterRole)
  }

  function ExpectedSubjects(sa: Sa): seq<Subject> {
    [Subject("ServiceAccount", "", sa.name, sa.ns)]
  }

  function Ann(rb: RoleBinding, key: string): string {
    if key in rb.annotations then rb.annotations[key] else ""
  }

  function Entries(rb: RoleBinding): seq<OwnerEntry> {
    Parse(Ann(rb, OWNERS_KEY))
  }

  function WithEntries(rb: RoleBinding, es: seq<OwnerEntry>): RoleBinding {
    rb.(annotations := rb.annotations[OWNERS_KEY := Format(es)])
  }

  // Whether cr still has to be added to the owner annotation, and the binding with it added.
  predicate Unlisted(rb: RoleBinding, cr: Cr) {
    |Add(Entries(rb), EntryOf(cr))| != |Entries(rb)|
  }

  function Listed(rb: RoleBinding, cr: Cr): RoleBinding {
    WithEntries(rb, Add(Entries(rb), EntryOf(cr)))
  }

  function EntryOf(cr: Cr): OwnerEntry {
    OwnerEntry(cr.id.ns, cr.id.name, cr.uid)
  }

  function RefOf(cr: Cr): OwnerRef {
    OwnerRef(cr.id.gvk.group, cr.id.gvk.kind, cr.id.name, cr.uid)
  }

  predicate SameObject(a: OwnerRef, b: OwnerRef) {
    a.group == b.group && a.kind == b.kind && a.name == b.name
  }

  // controllerutil.SetOwnerReference: an upsert keyed on (group, kind, name).
  function SetOwner(refs: seq<OwnerRef>, r: OwnerRef): seq<OwnerRef> {
    if refs == [] then [r]
    else if SameObject(refs[0], r) then [r] + refs[1..]
    else [refs[0]] + SetOwner(refs[1..], r)
  }

  predicate HasOwner(refs: seq<OwnerRef>, uid: string) {
    exists i :: 0 <= i < |refs| && refs[i].uid == uid
  }

  function NewRb(t: Target, sa: Sa, annotations: map<string, string>, owners: seq<OwnerRef>): RoleBinding {
    RoleBinding(map[MANAGED_KEY := MANAGED_VALUE], annotations, owners, ExpectedRef(t), ExpectedSubjects(sa), 0, 0)
  }

  // The object createRoleBinding sends.
  function CreatedRb(t: Target, cr: Cr, ns: string, sa: Sa): RoleBinding {
    if SameNamespace(t, cr, ns) then
      NewRb(t, sa, map[CREATED_BY_KEY := BY_SCOPER], [RefOf(cr)])
    else
      NewRb(t, sa, map[CREATED_BY_KEY := BY_SCOPER, OWNERS_KEY := Format([EntryOf(cr)])], [])
  }

  // The object the RoleRef repair sends after deleting the drifted one.
  function RecreatedRb(t: Target, sa: Sa, existing: RoleBinding): RoleBinding {
    var base := map[CREATED_BY_KEY := BY_SCOPER];
    NewRb(t, sa,
          if OWNERS_KEY in existing.annotations then base[OWNERS_KEY := existing.annotations[OWNERS_KEY]] else base,
          existing.owners)
  }

  function TriggerRb(t: Target): RoleBinding {
    NewRb(t, t.sa, map[CREATED_BY_KEY := BY_LABEL_TRIGGER], [])
  }

  // ---- The pending-owner annotation ----------------------------------------------------------

  datatype Pending = Pending(ns: string, name: string, sec: nat)

  // ns/name/group/version/kind/timestamp, the timestamp cut to whole seconds.
  function PendingText(ns: string, name: string, gvk: Gvk, sec: nat): string {
    Join([ns, name, gvk.group, gvk.version, gvk.kind, Digits(sec)], '/')
  }

  function ParsePending(s: string): Option<Pending> {
    var parts := Split(s, '/');
    if |parts| < 6 then None
    else
      match ParseDigits(parts[5])
      case None => None
      case Some(sec) => Some(Pending(parts[0], parts[1], sec))
  }

  // The object the webhook sends; stamp is its clock read in milliseconds.
  function HookRb(t: Target, ns: string, name: string, stamp: nat): RoleBinding {
    NewRb(t, t.sa,
          map[PENDING_KEY := PendingText(ns, name, t.gvk, stamp / 1000), CREATED_BY_KEY := BY_WEBHOOK], [])
  }

  // Whether backfillPendingOwner turns the pending annotation into an owner reference.
  predicate BackfillDue(rb: RoleBinding, cr: Cr) {
    && PENDING_KEY in rb.annotations
    && ParsePending(rb.annotations[PENDING_KEY]).Some?
    && var p := ParsePending(rb.annotations[PENDING_KEY]).value;
       p.ns == cr.id.ns && p.name == cr.id.name && cr.uid != ""
  }

  function Backfilled(rb: RoleBinding, cr: Cr): RoleBinding {
    rb.(owners := SetOwner(rb.owners, RefOf(cr)), annotations := rb.annotations - {PENDING_KEY})
  }

  const PENDING_TTL_MS := 30000

  // time.Since(timestamp) > 30s, on a clock in milliseconds
  predicate Expired(p: Pending, now: nat) {
    now - p.sec * 1000 > PENDING_TTL_MS
  }

  // Parsing reads back what the webhook wrote.
  lemma PendingRoundTrip(ns: string, name: string, gvk: Gvk, stamp: nat)
    requires '/' !in ns && '/' !in name && '/' !in gvk.group && '/' !in gvk.version && '/' !in gvk.kind
    ensures ParsePending(PendingText(ns, name, gvk, stamp / 1000)) == Some(Pending(ns, name, stamp / 1000))
    ensures stamp - 1000 < stamp / 1000 * 1000 <= stamp
  {
    DigitsParse(stamp / 1000);
    SplitJoin([ns, name, gvk.group, gvk.version, gvk.kind, Digits(stamp / 1000)], '/');
  }

  // Anything behind the sixth part is ignored; a text of fewer parts is not read.
  lemma PendingParts(parts: seq<string>, more: seq<string>)
    requires |parts| == 6 && (forall p | p in parts :: '/' !in p) && (forall p | p in more :: '/' !in p)
    ensures ParsePending(Join(parts + more, '/')) == ParsePending(Join(parts, '/'))
    ensures forall n | 0 < n < 6 :: ParsePending(Join(parts[..n], '/')) == None
  {
    SplitJoin(parts, '/');
    SplitJoin(parts + more, '/');
    forall n | 0 < n < 6 ensures ParsePending(Join(parts[..n], '/')) == None {
      SplitJoin(parts[..n], '/');
    }
  }

  lemma {:induction false} SetOwnerAt(refs: seq<OwnerRef>, r: OwnerRef)
    ensures r in SetOwner(refs, r)
    ensures forall x :: x in SetOwner(refs, r) ==> x == r || x in refs
    ensures forall x :: x in refs && !SameObject(x, r) ==> x in SetOwner(refs, r)
    ensures |SetOwner(refs, r)| >= |refs|
  {
    if refs != [] && !SameObject(refs[0], r) {
      SetOwnerAt(refs[1..], r);
    }
    if refs != [] {
      assert refs == [refs[0]] + refs[1..];
    }
  }
}
