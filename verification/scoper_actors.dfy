// The API calls of pkg/scoper, and its four actors as programs over those calls: an actor
// in state p issues Next(p) and continues as Resume(p, reply, now).
module ScoperActors {
  import opened Strings
  import opened Ownership
  import opened ScoperTypes

  // ---- API calls ---------------------------------------------------------------------------

  datatype Call =
    | GetCr(id: CrId)
    | GetNamespace(name: string)
    | GetClusterRole(name: string)
    | GetRb(key: Key)
    | CreateRb(key: Key, rb: RoleBinding)
    | UpdateRb(key: Key, rb: RoleBinding)
    | PatchOwners(key: Key, owners: seq<OwnerRef>)
    | DeleteRb(key: Key)
    | ListManaged

  datatype ApiError = NotFound | AlreadyExists | Conflict | Transient

  datatype Named = Named(key: Key, rb: RoleBinding)

  datatype Reply =
    | Ok
    | Err(error: ApiError)
    | GotCr(cr: Cr)
    | GotNamespace(labels: map<string, string>)
    | GotRole(aggregated: bool)
    | GotRb(rb: RoleBinding)
    | GotList(items: seq<Named>)

  // What the server decides on its own: to fail the call, or else the order of a listing.
  datatype Oracle = Fault | Answer(order: seq<Key>)

  predicate Managed(rb: RoleBinding) {
    MANAGED_KEY in rb.labels && rb.labels[MANAGED_KEY] == MANAGED_VALUE
  }

  ghost predicate Lists(s: Store, order: seq<Key>) {
    && (forall i, j :: 0 <= i < j < |order| ==> order[i] != order[j])
    && (forall k :: k in order <==> k in s.rbs && Managed(s.rbs[k]))
  }

  function Items(rbs: map<Key, RoleBinding>, order: seq<Key>): (r: seq<Named>)
    requires forall k :: k in order ==> k in rbs
    ensures |r| == |order|
    ensures forall i :: 0 <= i < |r| ==> r[i] == Named(order[i], rbs[order[i]])
  {
    if order == [] then [] else [Named(order[0], rbs[order[0]])] + Items(rbs, order[1..])
  }

  function Put(s: Store, key: Key, rb: RoleBinding): Store {
    s.(rbs := s.rbs[key := rb.(rv := s.version)], version := s.version + 1)
  }

  ghost function Exec(s: Store, c: Call, o: Oracle): (Store, Reply) {
    if o.Fault? then (s, Err(Transient))
    else match c
      case GetCr(id) => (s, if id in s.crs then GotCr(s.crs[id]) else Err(NotFound))
      case GetNamespace(n) => (s, if n in s.namespaces then GotNamespace(s.namespaces[n]) else Err(NotFound))
      case GetClusterRole(n) => (s, if n in s.clusterRoles then GotRole(s.clusterRoles[n]) else Err(NotFound))
      case GetRb(k) => (s, if k in s.rbs then GotRb(s.rbs[k]) else Err(NotFound))
      case CreateRb(k, rb) =>
        if k in s.rbs then (s, Err(AlreadyExists)) else (Put(s, k, rb.(uid := s.version)), Ok)
      case UpdateRb(k, rb) =>
        if k !in s.rbs then (s, Err(NotFound))
        else if s.rbs[k].uid != rb.uid || s.rbs[k].rv != rb.rv then (s, Err(Conflict))
        else (Put(s, k, rb), Ok)
      case PatchOwners(k, owners) =>
        if k !in s.rbs then (s, Err(NotFound)) else (Put(s, k, s.rbs[k].(owners := owners)), Ok)
      case DeleteRb(k) =>
        if k !in s.rbs then (s, Err(NotFound)) else (s.(rbs := s.rbs - {k}), Ok)
      case ListManaged =>
        if Lists(s, o.order) then (s, GotList(Items(s.rbs, o.order))) else (s, Err(Transient))
  }

  predicate Answers(c: Call, r: Reply) {
    || r.Err?
    || match c
       case GetCr(_) => r.GotCr?
       case GetNamespace(_) => r.GotNamespace?
       case GetClusterRole(_) => r.GotRole?
       case GetRb(_) => r.GotRb?
       case ListManaged => r.GotList?
       case _ => r.Ok?
  }

  // ---- Actors --------------------------------------------------------------------------------

  const MAX_TRIES := 5 // retry.DefaultRetry

  datatype Outcome = Success | Failure | Requeue | Orphans(count: nat)

  // n counts the tries of a RetryOnConflict loop.
  datatype RecPc =
    | FetchCr
    | FetchNs(cr: Cr, ns: string)
    | FetchRole(cr: Cr, ns: string)
    | Lookup(cr: Cr, ns: string, sa: Sa)
    | CreateNew(cr: Cr, ns: string, sa: Sa)
    | Refetch(cr: Cr, ns: string, sa: Sa, existing: RoleBinding)
    | DeleteOld(cr: Cr, ns: string, sa: Sa, existing: RoleBinding)
    | Recreate(cr: Cr, ns: string, sa: Sa, existing: RoleBinding)
    | SubjectsGet(cr: Cr, ns: string, sa: Sa, n: nat)
    | SubjectsPut(cr: Cr, ns: string, sa: Sa, n: nat, base: RoleBinding)
    | BackfillGet(cr: Cr, ns: string, n: nat)
    | BackfillPut(cr: Cr, ns: string, n: nat, base: RoleBinding)
    | OwnerGet(cr: Cr, ns: string, n: nat)
    | OwnerPatch(cr: Cr, ns: string, n: nat, base: RoleBinding)
    | EntryGet(cr: Cr, ns: string, n: nat)
    | EntryPut(cr: Cr, ns: string, n: nat, base: RoleBinding)

  datatype LabPc =
    | LabNs
    | LabRole
    | LabCreate
    | LabDriftGet
    | LabDriftDelete
    | LabDriftCreate
    | LabSubjectsGet(n: nat)
    | LabSubjectsPut(n: nat, base: RoleBinding)
    | LabOrphanGet
    | LabOrphanDelete

  datatype HookPc =
    | HookNs
    | HookLookup
    | HookRole
    | HookCreate(stamp: nat)

  datatype CleanPc =
    | CleanList
    | CleanPending(p: Pending, todo: seq<Named>)
    | CleanOwner(left: seq<OwnerEntry>, valid: seq<OwnerEntry>, todo: seq<Named>)
    | CleanDelete(todo: seq<Named>)
    | CleanUpdate(valid: seq<OwnerEntry>, todo: seq<Named>)

  datatype Proc =
    | Fin(outcome: Outcome)
    | Rec(t: Target, deny: DenyList, id: CrId, rec: RecPc)
    | Lab(t: Target, deny: DenyList, ns: string, lab: LabPc)
    | Hook(t: Target, ns: string, name: string, dryRun: bool, hook: HookPc)
    | Clean(ts: seq<Target>, count: nat, clean: CleanPc)

  function RecKey(t: Target, cr: Cr, ns: string): Key { Key(ns, RbName(t, cr)) }

  // A state from which an actor issues a call.
  predicate Calls(p: Proc) {
    match p
    case Fin(_) => false
    case Clean(ts, _, at) =>
      && ts != []
      && (at.CleanPending? || at.CleanOwner? || at.CleanDelete? || at.CleanUpdate? ==> at.todo != [])
      && (at.CleanOwner? ==> at.left != [])
    case _ => true
  }

  function Next(p: Proc): Call
    requires Calls(p)
  {
    match p
    case Rec(t, _, id, at) => NextRec(t, id, at)
    case Lab(t, _, ns, at) => NextLab(t, Key(ns, t.rbName), at)
    case Hook(t, ns, name, _, at) => NextHook(t, ns, name, at)
    case Clean(ts, _, at) => NextClean(ts, at)
  }

  function NextRec(t: Target, id: CrId, at: RecPc): Call {
    match at
    case FetchCr => GetCr(id)
    case FetchNs(_, ns) => GetNamespace(ns)
    case FetchRole(_, _) => GetClusterRole(t.clusterRole)
    case Lookup(cr, ns, _) => GetRb(RecKey(t, cr, ns))
    case CreateNew(cr, ns, sa) => CreateRb(RecKey(t, cr, ns), CreatedRb(t, cr, ns, sa))
    case Refetch(cr, ns, _, _) => GetRb(RecKey(t, cr, ns))
    case DeleteOld(cr, ns, _, _) => DeleteRb(RecKey(t, cr, ns))
    case Recreate(cr, ns, sa, old_) => CreateRb(RecKey(t, cr, ns), RecreatedRb(t, sa, old_))
    case SubjectsGet(cr, ns, _, _) => GetRb(RecKey(t, cr, ns))
    case SubjectsPut(cr, ns, sa, _, base) =>
      UpdateRb(RecKey(t, cr, ns), base.(subjects := ExpectedSubjects(sa)))
    case BackfillGet(cr, ns, _) => GetRb(RecKey(t, cr, ns))
    case BackfillPut(cr, ns, _, base) => UpdateRb(RecKey(t, cr, ns), Backfilled(base, cr))
    case OwnerGet(cr, ns, _) => GetRb(RecKey(t, cr, ns))
    case OwnerPatch(cr, ns, _, base) => PatchOwners(RecKey(t, cr, ns), SetOwner(base.owners, RefOf(cr)))
    case EntryGet(cr, ns, _) => GetRb(RecKey(t, cr, ns))
    case EntryPut(cr, ns, _, base) =>
      UpdateRb(RecKey(t, cr, ns), Listed(base, cr))
  }

  function NextLab(t: Target, key: Key, at: LabPc): Call {
    match at
    case LabNs => GetNamespace(key.ns)
    case LabRole => GetClusterRole(t.clusterRole)
    case LabCreate => CreateRb(key, TriggerRb(t))
    case LabDriftGet => GetRb(key)
    case LabDriftDelete => DeleteRb(key)
    case LabDriftCreate => CreateRb(key, TriggerRb(t))
    case LabSubjectsGet(_) => GetRb(key)
    case LabSubjectsPut(_, base) => UpdateRb(key, base.(subjects := ExpectedSubjects(t.sa)))
    case LabOrphanGet => GetRb(key)
    case LabOrphanDelete => DeleteRb(key)
  }

  function NextHook(t: Target, ns: string, name: string, at: HookPc): Call {
    match at
    case HookNs => GetNamespace(ns)
    case HookLookup => GetRb(Key(ns, t.rbName))
    case HookRole => GetClusterRole(t.clusterRole)
    case HookCreate(stamp) => CreateRb(Key(ns, t.rbName), HookRb(t, ns, name, stamp))
  }

  function NextClean(ts: seq<Target>, at: CleanPc): Call
    requires Calls(Clean(ts, 0, at))
  {
    match at
    case CleanList => ListManaged
    case CleanPending(p, _) => GetCr(CrId(ts[0].gvk, p.ns, p.name))
    case CleanOwner(left, _, _) => GetCr(CrId(ts[0].gvk, left[0].ns, left[0].name))
    case CleanDelete(todo) => DeleteRb(todo[0].key)
    case CleanUpdate(valid, todo) => UpdateRb(todo[0].key, WithEntries(todo[0].rb, valid))
  }

  function Resume(p: Proc, r: Reply, now: nat): (q: Proc)
    requires Calls(p)
    ensures Calls(q) || q.Fin?
  {
    match p
    case Rec(t, deny, id, at) => ResumeRec(t, deny, id, at, r)
    case Lab(t, deny, ns, at) => ResumeLab(t, deny, ns, at, r)
    case Hook(t, ns, name, dryRun, at) => ResumeHook(t, ns, name, dryRun, at, r, now)
    case Clean(ts, count, at) => ResumeClean(ts, count, at, r, now)
  }

  // ---- reconciler.go ---------------------------------------------------------------------------

  function RecStart(t: Target, deny: DenyList, id: CrId): Proc {
    Rec(t, deny, id, FetchCr)
  }

  // Where ensureRoleBinding continues once roleRef and subjects are right.
  function Adopt(t: Target, cr: Cr, ns: string): RecPc {
    if SameNamespace(t, cr, ns) then BackfillGet(cr, ns, 1) else EntryGet(cr, ns, 1)
  }

  function ResumeRec(t: Target, deny: DenyList, id: CrId, at: RecPc, r: Reply): (q: Proc)
    ensures q.Fin? || q.Rec?
  {
    match at
    case FetchCr =>
      if r.GotCr? then
        match TargetNs(t, r.cr)
        case None => Fin(Success)
        case Some(ns) =>
          if IsDenied(ns, deny) then Fin(Success)
          else if t.selector.None? then Rec(t, deny, id, FetchRole(r.cr, ns))
          else Rec(t, deny, id, FetchNs(r.cr, ns))
      else if r == Err(NotFound) then Fin(Success) else Fin(Failure)
    case FetchNs(cr, ns) =>
      if r.GotNamespace? && t.selector.Some? && Selects(t.selector.value, r.labels)
      then Rec(t, deny, id, FetchRole(cr, ns)) else Fin(Success)
    case FetchRole(cr, ns) =>
      if r.GotRole? && !r.aggregated then
        match ResolveSa(t, cr)
        case None => Fin(Failure)
        case Some(sa) => Rec(t, deny, id, Lookup(cr, ns, sa))
      else Fin(Requeue)
    case Lookup(cr, ns, sa) =>
      if r == Err(NotFound) then Rec(t, deny, id, CreateNew(cr, ns, sa))
      else if !r.GotRb? then Fin(Failure)
      else if r.rb.roleRef != ExpectedRef(t) then Rec(t, deny, id, Refetch(cr, ns, sa, r.rb))
      else if r.rb.subjects != ExpectedSubjects(sa) then Rec(t, deny, id, SubjectsGet(cr, ns, sa, 1))
      else Rec(t, deny, id, Adopt(t, cr, ns))
    case CreateNew(_, _, _) =>
      if r.Ok? || r == Err(AlreadyExists) then Fin(Success) else Fin(Failure)
    case Refetch(cr, ns, sa, existing) =>
      if r.GotRb? then Rec(t, deny, id, DeleteOld(cr, ns, sa, r.rb))
      else if r == Err(NotFound) then Rec(t, deny, id, DeleteOld(cr, ns, sa, existing))
      else Fin(Failure)
    case DeleteOld(cr, ns, sa, existing) =>
      if r.Ok? || r == Err(NotFound) then Rec(t, deny, id, Recreate(cr, ns, sa, existing)) else Fin(Failure)
    case Recreate(cr, ns, sa, _) =>
      if r.Ok? || r == Err(AlreadyExists) then Rec(t, deny, id, Adopt(t, cr, ns)) else Fin(Failure)
    case SubjectsGet(cr, ns, sa, n) =>
      if r.GotRb? then Rec(t, deny, id, SubjectsPut(cr, ns, sa, n, r.rb)) else Fin(Failure)
    case SubjectsPut(cr, ns, sa, n, _) =>
      if r.Ok? then Rec(t, deny, id, Adopt(t, cr, ns))
      else if r == Err(Conflict) && n < MAX_TRIES then Rec(t, deny, id, SubjectsGet(cr, ns, sa, n + 1))
      else Fin(Failure)
    case BackfillGet(cr, ns, n) =>
      if !r.GotRb? then Fin(Failure)
      else if BackfillDue(r.rb, cr) then Rec(t, deny, id, BackfillPut(cr, ns, n, r.rb))
      else Rec(t, deny, id, OwnerGet(cr, ns, 1))
    case BackfillPut(cr, ns, n, _) =>
      if r.Ok? then Rec(t, deny, id, OwnerGet(cr, ns, 1))
      else if r == Err(Conflict) && n < MAX_TRIES then Rec(t, deny, id, BackfillGet(cr, ns, n + 1))
      else Fin(Failure)
    case OwnerGet(cr, ns, n) =>
      if !r.GotRb? then Fin(Failure)
      else if HasOwner(r.rb.owners, cr.uid) then Fin(Success)
      else Rec(t, deny, id, OwnerPatch(cr, ns, n, r.rb))
    case OwnerPatch(cr, ns, n, _) =>
      if r.Ok? then Fin(Success)
      else if r == Err(Conflict) && n < MAX_TRIES then Rec(t, deny, id, OwnerGet(cr, ns, n + 1))
      else Fin(Failure)
    case EntryGet(cr, ns, n) =>
      if !r.GotRb? then Fin(Failure)
      else if Unlisted(r.rb, cr) then Rec(t, deny, id, EntryPut(cr, ns, n, r.rb))
      else Fin(Success)
    case EntryPut(cr, ns, n, _) =>
      if r.Ok? then Fin(Success)
      else if r == Err(Conflict) && n < MAX_TRIES then Rec(t, deny, id, EntryGet(cr, ns, n + 1))
      else Fin(Failure)
  }

  // ---- label_trigger.go --------------------------------------------------------------------------

  function LabStart(t: Target, deny: DenyList, ns: string): Proc {
    Lab(t, deny, ns, LabNs)
  }

  predicate Triggers(t: Target, deny: DenyList, ns: string, labels: map<string, string>) {
    && !IsDenied(ns, deny)
    && (t.selector.Some? ==> Selects(t.selector.value, labels))
    && t.trigger.Some? && Selects(t.trigger.value, labels)
  }

  function ResumeLab(t: Target, deny: DenyList, ns: string, at: LabPc, r: Reply): (q: Proc)
    ensures q.Fin? || q.Lab?
  {
    match at
    case LabNs =>
      if r == Err(NotFound) then Fin(Success)
      else if !r.GotNamespace? then Fin(Failure)
      else if Triggers(t, deny, ns, r.labels) then Lab(t, deny, ns, LabRole)
      else Lab(t, deny, ns, LabOrphanGet)
    case LabRole =>
      if r.GotRole? && !r.aggregated then Lab(t, deny, ns, LabCreate) else Fin(Requeue)
    case LabCreate =>
      if r.Ok? then Fin(Success)
      else if r == Err(AlreadyExists) then Lab(t, deny, ns, LabDriftGet) else Fin(Failure)
    case LabDriftGet =>
      if !r.GotRb? then Fin(Failure)
      else if r.rb.owners != [] then Fin(Success)
      else if r.rb.roleRef != ExpectedRef(t) then Lab(t, deny, ns, LabDriftDelete)
      else if r.rb.subjects != ExpectedSubjects(t.sa) then Lab(t, deny, ns, LabSubjectsGet(1))
      else Fin(Success)
    case LabDriftDelete =>
      if r.Ok? || r == Err(NotFound) then Lab(t, deny, ns, LabDriftCreate) else Fin(Failure)
    case LabDriftCreate =>
      if r.Ok? || r == Err(AlreadyExists) then Fin(Success) else Fin(Failure)
    case LabSubjectsGet(n) =>
      if r.GotRb? then Lab(t, deny, ns, LabSubjectsPut(n, r.rb)) else Fin(Failure)
    case LabSubjectsPut(n, _) =>
      if r.Ok? then Fin(Success)
      else if r == Err(Conflict) && n < MAX_TRIES then Lab(t, deny, ns, LabSubjectsGet(n + 1))
      else Fin(Failure)
    case LabOrphanGet =>
      if r == Err(NotFound) then Fin(Success)
      else if !r.GotRb? then Fin(Failure)
      else if Ann(r.rb, CREATED_BY_KEY) != BY_LABEL_TRIGGER then Fin(Success)
      else if r.rb.owners != [] then Fin(Success)
      else Lab(t, deny, ns, LabOrphanDelete)
    case LabOrphanDelete =>
      if r.Ok? || r == Err(NotFound) then Fin(Success) else Fin(Failure)
  }

  // ---- webhook.go ----------------------------------------------------------------------------------

  function HookStart(t: Target, deny: DenyList, ns: string, name: string, dryRun: bool): Proc {
    if IsDenied(ns, deny) then Fin(Success)
    else Hook(t, ns, name, dryRun, if t.selector.Some? then HookNs else HookLookup)
  }

  // The webhook never refuses the request, whatever happens to its calls.
  function ResumeHook(t: Target, ns: string, name: string, dryRun: bool, at: HookPc, r: Reply, now: nat): (q: Proc)
    ensures q == Fin(Success) || q.Hook?
  {
    match at
    case HookNs =>
      if r.GotNamespace? && t.selector.Some? && Selects(t.selector.value, r.labels)
      then Hook(t, ns, name, dryRun, HookLookup) else Fin(Success)
    case HookLookup =>
      if r.GotRb? then Fin(Success) else Hook(t, ns, name, dryRun, HookRole)
    case HookRole =>
      if r.GotRole? && !r.aggregated && !dryRun then Hook(t, ns, name, dryRun, HookCreate(now)) else Fin(Success)
    case HookCreate(_) => Fin(Success)
  }

  // ---- cleanup.go ------------------------------------------------------------------------------------

  function CleanStart(ts: seq<Target>): Proc {
    if ts == [] then Fin(Orphans(0)) else Clean(ts, 0, CleanList)
  }

  function NextTarget(ts: seq<Target>, count: nat): (q: Proc)
    requires ts != []
    ensures (q.Clean? && Calls(q)) || q.Fin?
  {
    if |ts| == 1 then Fin(Orphans(count)) else Clean(ts[1..], count, CleanList)
  }

  function OfName(items: seq<Named>, name: string): seq<Named> {
    if items == [] then []
    else if items[0].key.name == name then [items[0]] + OfName(items[1..], name)
    else OfName(items[1..], name)
  }

  // The next call of the loop over the listed RoleBindings.
  function Visit(ts: seq<Target>, count: nat, todo: seq<Named>, now: nat): (q: Proc)
    requires ts != []
    ensures (q.Clean? && Calls(q)) || q.Fin?
    decreases |todo|
  {
    if todo == [] then NextTarget(ts, count)
    else
      var rb := todo[0].rb;
      if PENDING_KEY in rb.annotations then
        match ParsePending(rb.annotations[PENDING_KEY])
        case None => Visit(ts, count, todo[1..], now)
        case Some(p) =>
          if Expired(p, now) then Clean(ts, count, CleanPending(p, todo)) else Visit(ts, count, todo[1..], now)
      else if Entries(rb) == [] then Visit(ts, count, todo[1..], now)
      else Clean(ts, count, CleanOwner(Entries(rb), [], todo))
  }

  // isOwnerValid, given the reply to its lookup.
  predicate OwnerValid(t: Target, e: OwnerEntry, ns: string, r: Reply) {
    if r.GotCr? then r.cr.uid == e.uid && (t.nsField.Some? ==> Field(r.cr, t.nsField.value) == Some(ns))
    else r != Err(NotFound)
  }

  // The loop over the owners of the visited binding, and the decision after it.
  function OwnersLeft(ts: seq<Target>, count: nat, left: seq<OwnerEntry>, valid: seq<OwnerEntry>,
                      todo: seq<Named>, now: nat): (q: Proc)
    requires ts != [] && todo != []
    ensures (q.Clean? && Calls(q)) || q.Fin?
  {
    if left != [] then Clean(ts, count, CleanOwner(left, valid, todo))
    else if |valid| == |Entries(todo[0].rb)| then Visit(ts, count, todo[1..], now)
    else if valid == [] then Clean(ts, count, CleanDelete(todo))
    else Clean(ts, count, CleanUpdate(valid, todo))
  }

  function ResumeClean(ts: seq<Target>, count: nat, at: CleanPc, r: Reply, now: nat): (q: Proc)
    requires Calls(Clean(ts, count, at))
    ensures (q.Clean? && Calls(q)) || q.Fin?
  {
    match at
    case CleanList =>
      if r.GotList? then Visit(ts, count, OfName(r.items, ts[0].rbName), now) else NextTarget(ts, count)
    case CleanPending(p, todo) =>
      if r == Err(NotFound) then Clean(ts, count, CleanDelete(todo)) else Visit(ts, count, todo[1..], now)
    case CleanOwner(left, valid, todo) =>
      var valid' := if OwnerValid(ts[0], left[0], todo[0].key.ns, r) then valid + [left[0]] else valid;
      OwnersLeft(ts, count, left[1..], valid', todo, now)
    case CleanDelete(todo) =>
      Visit(ts, if r.Ok? || r == Err(NotFound) then count + 1 else count, todo[1..], now)
    case CleanUpdate(_, todo) => Visit(ts, count, todo[1..], now)
  }

  // ---- Running one actor undisturbed -------------------------------------------------------------------

  ghost function Step(s: Store, p: Proc, o: Oracle, now: nat): (Store, Proc)
    requires Calls(p)
  {
    var (s', r) := Exec(s, Next(p), o);
    (s', Resume(p, r, now))
  }

  ghost function Run(s: Store, p: Proc, os: seq<Oracle>, now: nat): (r: (Store, Proc))
    requires Calls(p) || p.Fin?
    ensures Calls(r.1) || r.1.Fin?
    decreases |os|
  {
    if os == [] || p.Fin? then (s, p)
    else
      var (s', p') := Step(s, p, os[0], now);
      Run(s', p', os[1..], now)
  }

  lemma {:induction false} RunAppend(s: Store, p: Proc, os: seq<Oracle>, o: Oracle, now: nat)
    requires Calls(p) || p.Fin?
    ensures var (s', p') := Run(s, p, os, now);
            Run(s, p, os + [o], now) == if p'.Fin? then (s', p') else Step(s', p', o, now)
    decreases |os|
  {
    if os != [] && !p.Fin? {
      assert (os + [o])[1..] == os[1..] + [o];
      var (s1, p1) := Step(s, p, os[0], now);
      RunAppend(s1, p1, os[1..], o, now);
    } else if os == [] {
      assert (os + [o])[1..] == [];
    }
  }
}
