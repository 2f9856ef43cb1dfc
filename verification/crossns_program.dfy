// pkg/crossns: the objects it manages, the API calls it makes, and Apply and Teardown as one
// program over those calls: a controller in state p issues Next(p) and goes on as Resume(p, reply).
module CrossnsProgram {
  import opened Rbac

  // ---- Objects --------------------------------------------------------------------------------

  datatype Kind = RoleKind | BindingKind
  datatype Key = Key(kind: Kind, ns: string, name: string)
  datatype RoleRef = RoleRef(apiGroup: string, kind: string, name: string)
  datatype Subject = Subject(kind: string, apiGroup: string, name: string, ns: string)
  datatype Body = Rules(rules: seq<PolicyRule>) | Grant(ref: RoleRef, subjects: seq<Subject>)
  datatype Obj = Obj(labels: map<string, string>, body: Body, rv: nat)

  // ticks is the next resourceVersion of each object.
  datatype Store = Store(objs: map<Key, Obj>, ticks: map<Key, nat>)

  datatype OwnerLabel = OwnerLabel(key: string, value: string)
  datatype SubjectRef = SubjectRef(name: string, ns: string)
  datatype RuleSet = RuleSet(roleName: string, ns: string, rules: seq<PolicyRule>)
  datatype Job = Job(owner: OwnerLabel, subject: SubjectRef, sets: seq<RuleSet>)

  const MANAGED_KEY := "operator-rbac-toolkit.io/crossns-managed"
  const MANAGED_VALUE := "true"
  const SUFFIX := "-binding"

  function ManagedLabels(owner: OwnerLabel): map<string, string> {
    var base := map[MANAGED_KEY := MANAGED_VALUE];
    if owner.key != "" then base[owner.key := owner.value] else base
  }

  predicate Matches(labels: map<string, string>, selector: map<string, string>) {
    forall k | k in selector :: k in labels && labels[k] == selector[k]
  }

  function RoleKey(rs: RuleSet): Key { Key(RoleKind, rs.ns, rs.roleName) }
  function BindingKey(rs: RuleSet): Key { Key(BindingKind, rs.ns, rs.roleName + SUFFIX) }

  function RefTo(rs: RuleSet): RoleRef { RoleRef("rbac.authorization.k8s.io", "Role", rs.roleName) }
  function SubjectsOf(subject: SubjectRef): seq<Subject> { [Subject("ServiceAccount", "", subject.name, subject.ns)] }

  function RoleObj(job: Job, rs: RuleSet): Obj { Obj(ManagedLabels(job.owner), Rules(rs.rules), 0) }
  function BindingObj(job: Job, rs: RuleSet): Obj {
    Obj(ManagedLabels(job.owner), Grant(RefTo(rs), SubjectsOf(job.subject)), 0)
  }

  // An existing object brought up to date: desired content, managed labels merged in.
  function Updated(existing: Obj, wanted: Obj): Obj {
    existing.(labels := existing.labels + wanted.labels, body := wanted.body)
  }

  // roleRef cannot be changed in place.
  predicate Drifted(existing: Obj, rs: RuleSet) {
    !(existing.body.Grant? && existing.body.ref == RefTo(rs))
  }

  // ---- Names --------------------------------------------------------------------------------------

  function DesiredKey(ns: string, roleName: string): string { ns + ['/'] + roleName }

  function TrimSuffix(s: string, suffix: string): string {
    if |suffix| <= |s| && s[|s| - |suffix|..] == suffix then s[..|s| - |suffix|] else s
  }

  // The Role name that decides whether the sweep keeps an object.
  function RoleNameOf(key: Key): string {
    if key.kind.RoleKind? then key.name else TrimSuffix(key.name, SUFFIX)
  }

  function Desired(sets: seq<RuleSet>): set<string> {
    set rs | rs in sets :: DesiredKey(rs.ns, rs.roleName)
  }

  predicate Kept(job: Job, key: Key) {
    DesiredKey(key.ns, RoleNameOf(key)) in Desired(job.sets)
  }

  lemma TrimUndoesAdd(name: string)
    ensures TrimSuffix(name + SUFFIX, SUFFIX) == name
  {}

  // Composite keys tell (namespace, role) pairs apart because namespaces hold no slash.
  lemma {:induction false} DesiredKeyInjective(ns: string, name: string, ns': string, name': string)
    requires '/' !in ns && '/' !in ns'
    ensures DesiredKey(ns, name) == DesiredKey(ns', name') <==> ns == ns' && name == name'
  {
    var s, s' := DesiredKey(ns, name), DesiredKey(ns', name');
    if |ns| < |ns'| {
      assert s[|ns|] == '/' && s'[|ns|] == ns'[|ns|];
    } else if |ns'| < |ns| {
      assert s'[|ns'|] == '/' && s[|ns'|] == ns[|ns'|];
    } else if s == s' {
      assert ns == s[..|ns|] && ns' == s'[..|ns|];
      assert name == s[|ns| + 1..] && name' == s'[|ns| + 1..];
    }
  }

  // ---- API calls --------------------------------------------------------------------------------------

  datatype Call =
    | Get(key: Key)
    | Create(key: Key, obj: Obj)
    | Update(key: Key, obj: Obj)
    | Delete(key: Key)
    | List(kind: Kind, selector: map<string, string>)

  datatype ApiError = NotFound | AlreadyExists | Conflict | Transient

  datatype Reply = Ok | Err(error: ApiError) | Got(obj: Obj) | Listed(keys: seq<Key>)

  // What the server decides on its own: to fail the call, or else the order of a listing.
  datatype Oracle = Fault | Answer(order: seq<Key>)

  ghost predicate Lists(s: Store, kind: Kind, selector: map<string, string>, order: seq<Key>) {
    && (forall i, j :: 0 <= i < j < |order| ==> order[i] != order[j])
    && (forall k :: k in order <==> k in s.objs && k.kind == kind && Matches(s.objs[k].labels, selector))
  }

  // What the owner's sweep finds.
  predicate Owned(s: Store, owner: OwnerLabel, k: Key) {
    k in s.objs && Matches(s.objs[k].labels, ManagedLabels(owner))
  }

  function TickOf(s: Store, key: Key): nat {
    if key in s.ticks then s.ticks[key] else 0
  }

  function Put(s: Store, key: Key, obj: Obj): Store {
    Store(s.objs[key := obj.(rv := TickOf(s, key))], s.ticks[key := TickOf(s, key) + 1])
  }

  // The server refuses a namespace that holds a slash.
  ghost function Exec(s: Store, c: Call, o: Oracle): (Store, Reply) {
    if o.Fault? then (s, Err(Transient))
    else match c
      case Get(k) => (s, if k in s.objs then Got(s.objs[k]) else Err(NotFound))
      case Create(k, obj) =>
        if '/' in k.ns then (s, Err(Transient))
        else if k in s.objs then (s, Err(AlreadyExists)) else (Put(s, k, obj), Ok)
      case Update(k, obj) =>
        if k !in s.objs then (s, Err(NotFound))
        else if s.objs[k].rv != obj.rv then (s, Err(Conflict))
        else (Put(s, k, obj), Ok)
      case Delete(k) =>
        if k !in s.objs then (s, Err(NotFound)) else (s.(objs := s.objs - {k}), Ok)
      case List(kind, selector) =>
        if Lists(s, kind, selector, o.order) then (s, Listed(o.order)) else (s, Err(Transient))
  }

  predicate Answers(c: Call, r: Reply) {
    || r.Err?
    || match c
       case Get(_) => r.Got?
       case List(_, _) => r.Listed?
       case _ => r.Ok?
  }

  // ---- The program ---------------------------------------------------------------------------------------

  const MAX_TRIES := 5 // retry.DefaultRetry

  datatype Failure = Invalid | ApplyFailed(key: Key) | ListFailed(kind: Kind) | DeleteFailed(key: Key)

  // i is the rule set being applied, n the try of its retry loop, todo what is left to sweep.
  datatype Pc =
    | RoleGet(i: nat, n: nat)
    | RoleCreate(i: nat)
    | RoleUpdate(i: nat, n: nat, base: Obj)
    | BindingGet(i: nat, n: nat)
    | BindingCreate(i: nat)
    | BindingDelete(i: nat)
    | BindingRecreate(i: nat)
    | BindingUpdate(i: nat, n: nat, base: Obj)
    | SweepList(kind: Kind, errs: seq<Failure>)
    | Sweep(kind: Kind, todo: seq<Key>, errs: seq<Failure>)

  // The result is nil exactly when errs is empty.
  datatype Proc = Fin(errs: seq<Failure>) | At(job: Job, pc: Pc)

  predicate Applying(pc: Pc) {
    !pc.SweepList? && !pc.Sweep?
  }

  predicate Calls(p: Proc) {
    p.At? && (Applying(p.pc) ==> p.pc.i < |p.job.sets|) && (p.pc.Sweep? ==> p.pc.todo != [])
  }

  function Next(p: Proc): Call
    requires Calls(p)
  {
    var job := p.job;
    match p.pc
    case RoleGet(i, _) => Get(RoleKey(job.sets[i]))
    case RoleCreate(i) => Create(RoleKey(job.sets[i]), RoleObj(job, job.sets[i]))
    case RoleUpdate(i, _, base) => Update(RoleKey(job.sets[i]), Updated(base, RoleObj(job, job.sets[i])))
    case BindingGet(i, _) => Get(BindingKey(job.sets[i]))
    case BindingCreate(i) => Create(BindingKey(job.sets[i]), BindingObj(job, job.sets[i]))
    case BindingDelete(i) => Delete(BindingKey(job.sets[i]))
    case BindingRecreate(i) => Create(BindingKey(job.sets[i]), BindingObj(job, job.sets[i]))
    case BindingUpdate(i, _, base) => Update(BindingKey(job.sets[i]), Updated(base, BindingObj(job, job.sets[i])))
    case SweepList(kind, _) => List(kind, ManagedLabels(job.owner))
    case Sweep(_, todo, _) => Delete(todo[0])
  }

  // Applying rule set i, or sweeping when there is none left.
  function ApplyFrom(job: Job, i: nat): Proc {
    if i < |job.sets| then At(job, RoleGet(i, 1)) else At(job, SweepList(RoleKind, []))
  }

  function Unwanted(job: Job, keys: seq<Key>): seq<Key> {
    if keys == [] then []
    else if Kept(job, keys[0]) then Unwanted(job, keys[1..])
    else [keys[0]] + Unwanted(job, keys[1..])
  }

  // Deleting todo, then the other kind, then done.
  function SweepFrom(job: Job, kind: Kind, todo: seq<Key>, errs: seq<Failure>): Proc {
    if todo != [] then At(job, Sweep(kind, todo, errs))
    else if kind.RoleKind? then At(job, SweepList(BindingKind, errs))
    else Fin(errs)
  }

  function Resume(p: Proc, r: Reply): (q: Proc)
    requires Calls(p)
    ensures Calls(q) || q.Fin?
    ensures q.At? ==> q.job == p.job
  {
    if Applying(p.pc) then ResumeApply(p.job, p.pc, r) else ResumeSweep(p.job, p.pc, r)
  }

  function ResumeApply(job: Job, pc: Pc, r: Reply): (q: Proc)
    requires Applying(pc) && pc.i < |job.sets|
    ensures Calls(q) || q.Fin?
    ensures q.At? ==> q.job == job
  {
    var rs := job.sets[pc.i];
    match pc
    case RoleGet(i, n) =>
      if r == Err(NotFound) then At(job, RoleCreate(i))
      else if !r.Got? then Fin([ApplyFailed(RoleKey(rs))])
      else if Updated(r.obj, RoleObj(job, rs)) == r.obj then At(job, BindingGet(i, 1))
      else At(job, RoleUpdate(i, n, r.obj))
    case RoleCreate(i) =>
      if r.Ok? || r == Err(AlreadyExists) then At(job, BindingGet(i, 1)) else Fin([ApplyFailed(RoleKey(rs))])
    case RoleUpdate(i, n, _) =>
      if r.Ok? then At(job, BindingGet(i, 1))
      else if r == Err(Conflict) && n < MAX_TRIES then At(job, RoleGet(i, n + 1))
      else Fin([ApplyFailed(RoleKey(rs))])
    case BindingGet(i, n) =>
      if r == Err(NotFound) then At(job, BindingCreate(i))
      else if !r.Got? then Fin([ApplyFailed(BindingKey(rs))])
      else if Drifted(r.obj, rs) then At(job, BindingDelete(i))
      else if Updated(r.obj, BindingObj(job, rs)) == r.obj then ApplyFrom(job, i + 1)
      else At(job, BindingUpdate(i, n, r.obj))
    case BindingDelete(i) =>
      if r.Ok? || r == Err(NotFound) then At(job, BindingRecreate(i)) else Fin([ApplyFailed(BindingKey(rs))])
    case BindingUpdate(i, n, _) =>
      if r.Ok? then ApplyFrom(job, i + 1)
      else if r == Err(Conflict) && n < MAX_TRIES then At(job, BindingGet(i, n + 1))
      else Fin([ApplyFailed(BindingKey(rs))])
    case BindingCreate(i) =>
      if r.Ok? || r == Err(AlreadyExists) then ApplyFrom(job, i + 1) else Fin([ApplyFailed(BindingKey(rs))])
    case BindingRecreate(i) =>
      if r.Ok? || r == Err(AlreadyExists) then ApplyFrom(job, i + 1) else Fin([ApplyFailed(BindingKey(rs))])
  }

  function ResumeSweep(job: Job, pc: Pc, r: Reply): (q: Proc)
    requires !Applying(pc) && (pc.Sweep? ==> pc.todo != [])
    ensures Calls(q) || q.Fin?
    ensures q.At? ==> q.job == job && !Applying(q.pc)
  {
    match pc
    case SweepList(kind, errs) =>
      if r.Listed? then SweepFrom(job, kind, Unwanted(job, r.keys), errs)
      else SweepFrom(job, kind, [], errs + [ListFailed(kind)])
    case Sweep(kind, todo, errs) =>
      SweepFrom(job, kind, todo[1..],
                if r.Ok? || r == Err(NotFound) then errs else errs + [DeleteFailed(todo[0])])
  }

  predicate ValidJob(job: Job) {
    job.subject.name != "" && forall rs | rs in job.sets :: rs.roleName != "" && rs.ns != ""
  }

  function ApplyStart(job: Job): (p: Proc)
    ensures Calls(p) || p.Fin?
  {
    if ValidJob(job) then ApplyFrom(job, 0) else Fin([Invalid])
  }

  // Teardown sweeps for an empty desired set.
  function TeardownStart(owner: OwnerLabel): (p: Proc)
    ensures Calls(p)
  {
    At(Job(owner, SubjectRef("", ""), []), SweepList(RoleKind, []))
  }

  // ---- Running it alone ---------------------------------------------------------------------------------------

  ghost function Step(s: Store, p: Proc, o: Oracle): (Store, Proc)
    requires Calls(p)
  {
    var (s', r) := Exec(s, Next(p), o);
    (s', Resume(p, r))
  }

  ghost function Run(s: Store, p: Proc, os: seq<Oracle>): (r: (Store, Proc))
    requires Calls(p) || p.Fin?
    ensures Calls(r.1) || r.1.Fin?
    decreases |os|
  {
    if os == [] || p.Fin? then (s, p)
    else
      var (s', p') := Step(s, p, os[0]);
      Run(s', p', os[1..])
  }

  lemma {:induction false} RunAppend(s: Store, p: Proc, os: seq<Oracle>, o: Oracle)
    requires Calls(p) || p.Fin?
    ensures var (s', p') := Run(s, p, os);
            Run(s, p, os + [o]) == if p'.Fin? then (s', p') else Step(s', p', o)
    decreases |os|
  {
    if os != [] && !p.Fin? {
      assert (os + [o])[1..] == os[1..] + [o];
      var (s1, p1) := Step(s, p, os[0]);
      RunAppend(s1, p1, os[1..], o);
    } else if os == [] {
      assert (os + [o])[1..] == [];
    }
  }
}
