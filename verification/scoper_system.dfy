// Any number of actors interleaved, one API call at a time, with the environment: the
// system, its runs, and what optimistic concurrency guarantees about the owner annotation.
module ScoperSystem {
  import opened Strings
  import opened Ownership
  import opened ScoperTypes
  import opened ScoperActors

  datatype Config = Config(targets: seq<Target>, deny: DenyList)

  // One API call by an actor with its reply, its time and the store's version before it, which
  // a binding created by the call has as its uid; or a change to a binding by anyone else.
  datatype Event = Act(pid: nat, call: Call, reply: Reply, at: nat, version: nat) | Outside(key: Key)

  // born remembers every UID ever given to a CR; UIDs are never reused.
  datatype Sys = Sys(store: Store, procs: map<nat, Proc>, clock: nat, born: map<string, CrId>, trace: seq<Event>)

  datatype Start =
    | StartRec(i: nat, id: CrId)
    | StartLab(i: nat, ns: string)
    | StartHook(i: nat, ns: string, name: string, dryRun: bool)
    | StartClean

  datatype Move =
    | Spawn(pid: nat, start: Start)
    | Actor(pid: nat, oracle: Oracle)
    | Tick(ms: nat)
    | CrCreated(cr: Cr)
    | CrDeleted(id: CrId)
    | CrEdited(id: CrId, fields: map<seq<string>, string>)
    | NsSet(ns: string, labels: map<string, string>)
    | NsGone(ns: string)
    | RoleSet(role: string, aggregated: bool)
    | RoleGone(role: string)
    | Removed(key: Key)
    | Tampered(key: Key, rb: RoleBinding)

  // filterCleanupTargets
  function CleanupTargets(ts: seq<Target>): seq<Target> {
    if ts == [] then []
    else if ts[0].nsField.Some? || ts[0].webhook then [ts[0]] + CleanupTargets(ts[1..])
    else CleanupTargets(ts[1..])
  }

  predicate SlashFree(s: string) { '/' !in s }

  // The constructors refuse a selector that cannot be read.
  predicate Readable(t: Target) {
    && (t.selector.Some? ==> t.selector.value.Matching?)
    && (t.trigger.Some? ==> t.trigger.value.Matching?)
  }

  ghost predicate StartOk(cfg: Config, st: Start) {
    match st
    case StartRec(i, id) => i < |cfg.targets| && Readable(cfg.targets[i]) && id.gvk == cfg.targets[i].gvk
    case StartLab(i, _) => i < |cfg.targets| && Readable(cfg.targets[i]) && cfg.targets[i].trigger.Some?
    case StartHook(i, ns, name, _) =>
      i < |cfg.targets| && Readable(cfg.targets[i]) && cfg.targets[i].webhook && SlashFree(ns) && SlashFree(name)
    case StartClean => true
  }

  function Begin(cfg: Config, st: Start): (p: Proc)
    requires StartOk(cfg, st)
    ensures Calls(p) || p.Fin?
  {
    match st
    case StartRec(i, id) => RecStart(cfg.targets[i], cfg.deny, id)
    case StartLab(i, ns) => LabStart(cfg.targets[i], cfg.deny, ns)
    case StartHook(i, ns, name, dryRun) => HookStart(cfg.targets[i], cfg.deny, ns, name, dryRun)
    case StartClean => CleanStart(CleanupTargets(cfg.targets))
  }

  // Outsiders may change anything about a binding but the owner annotation, in place or by
  // deleting and recreating it.
  ghost predicate TamperOk(s: Store, key: Key, rb: RoleBinding) {
    && key in s.rbs
    && Ann(rb, OWNERS_KEY) == Ann(s.rbs[key], OWNERS_KEY)
    && (rb.uid == s.rbs[key].uid || rb.uid == s.version)
  }

  ghost predicate Enabled(cfg: Config, s: Sys, m: Move) {
    match m
    case Spawn(pid, st) => pid !in s.procs && StartOk(cfg, st)
    case Actor(pid, _) => pid in s.procs && Calls(s.procs[pid])
    case CrCreated(cr) => cr.id !in s.store.crs && cr.uid !in s.born && Carried(EntryOf(cr))
    case CrEdited(id, _) => id in s.store.crs
    case Tampered(key, rb) => TamperOk(s.store, key, rb)
    case _ => true
  }

  ghost function Apply(cfg: Config, s: Sys, m: Move): Sys
    requires Enabled(cfg, s, m)
  {
    match m
    case Spawn(pid, st) => s.(procs := s.procs[pid := Begin(cfg, st)])
    case Actor(pid, o) =>
      var p := s.procs[pid];
      var (store', r) := Exec(s.store, Next(p), o);
      s.(store := store', procs := s.procs[pid := Resume(p, r, s.clock)],
         trace := s.trace + [Act(pid, Next(p), r, s.clock, s.store.version)])
    case Tick(ms) => s.(clock := s.clock + ms)
    case CrCreated(cr) => s.(store := s.store.(crs := s.store.crs[cr.id := cr]), born := s.born[cr.uid := cr.id])
    case CrDeleted(id) => s.(store := s.store.(crs := s.store.crs - {id}))
    case CrEdited(id, fields) =>
      s.(store := s.store.(crs := s.store.crs[id := s.store.crs[id].(fields := fields)]))
    case NsSet(ns, labels) => s.(store := s.store.(namespaces := s.store.namespaces[ns := labels]))
    case NsGone(ns) => s.(store := s.store.(namespaces := s.store.namespaces - {ns}))
    case RoleSet(role, agg) => s.(store := s.store.(clusterRoles := s.store.clusterRoles[role := agg]))
    case RoleGone(role) => s.(store := s.store.(clusterRoles := s.store.clusterRoles - {role}))
    case Removed(key) =>
      s.(store := s.store.(rbs := s.store.rbs - {key}), trace := s.trace + [Outside(key)])
    case Tampered(key, rb) =>
      s.(store := Put(s.store, key, rb), trace := s.trace + [Outside(key)])
  }

  ghost predicate Init(s: Sys) {
    s.store.rbs == map[] && s.store.crs == map[] && s.procs == map[] && s.born == map[] && s.trace == []
  }

  // states[i + 1] comes from states[i] by moves[i].
  ghost predicate IsRun(cfg: Config, states: seq<Sys>, moves: seq<Move>) {
    && |states| == |moves| + 1
    && forall i :: 0 <= i < |moves| ==> Enabled(cfg, states[i], moves[i]) && states[i + 1] == Apply(cfg, states[i], moves[i])
  }

  // ---- The snapshots an actor holds --------------------------------------------------------------

  function Bases(p: Proc): seq<Named> {
    match p
    case Rec(t, _, _, at) => (
      match at
      case Refetch(cr, ns, _, rb) => [Named(RecKey(t, cr, ns), rb)]
      case DeleteOld(cr, ns, _, rb) => [Named(RecKey(t, cr, ns), rb)]
      case Recreate(cr, ns, _, rb) => [Named(RecKey(t, cr, ns), rb)]
      case SubjectsPut(cr, ns, _, _, rb) => [Named(RecKey(t, cr, ns), rb)]
      case BackfillPut(cr, ns, _, rb) => [Named(RecKey(t, cr, ns), rb)]
      case OwnerPatch(cr, ns, _, rb) => [Named(RecKey(t, cr, ns), rb)]
      case EntryPut(cr, ns, _, rb) => [Named(RecKey(t, cr, ns), rb)]
      case _ => [])
    case Lab(t, _, ns, LabSubjectsPut(_, rb)) => [Named(Key(ns, t.rbName), rb)]
    case Clean(_, _, at) => (
      match at
      case CleanList => []
      case CleanPending(_, todo) => todo
      case CleanOwner(_, _, todo) => todo
      case CleanDelete(todo) => todo
      case CleanUpdate(_, todo) => todo)
    case _ => []
  }

  lemma {:induction false} OfNameIn(items: seq<Named>, name: string)
    ensures forall n :: n in OfName(items, name) ==> n in items && n.key.name == name
  {
    if items != [] {
      OfNameIn(items[1..], name);
    }
  }

  lemma {:induction false} VisitBases(ts: seq<Target>, count: nat, todo: seq<Named>, now: nat)
    requires ts != []
    ensures forall n :: n in Bases(Visit(ts, count, todo, now)) ==> n in todo
    decreases |todo|
  {
    if todo != [] {
      VisitBases(ts, count, todo[1..], now);
    }
  }

  // A snapshot held after a call was held before it or came with its reply.
  lemma BasesRec(t: Target, deny: DenyList, id: CrId, at: RecPc, r: Reply)
    requires Answers(NextRec(t, id, at), r)
    ensures forall n :: n in Bases(ResumeRec(t, deny, id, at, r)) ==>
              || n in Bases(Rec(t, deny, id, at))
              || (r.GotRb? && NextRec(t, id, at) == GetRb(n.key) && n.rb == r.rb)
  {}

  lemma BasesLab(t: Target, deny: DenyList, ns: string, at: LabPc, r: Reply)
    requires Answers(NextLab(t, Key(ns, t.rbName), at), r)
    ensures forall n :: n in Bases(ResumeLab(t, deny, ns, at, r)) ==>
              r.GotRb? && NextLab(t, Key(ns, t.rbName), at) == GetRb(n.key) && n.rb == r.rb
  {}

  lemma BasesClean(ts: seq<Target>, count: nat, at: CleanPc, r: Reply, now: nat)
    requires Calls(Clean(ts, count, at))
    ensures forall n :: n in Bases(ResumeClean(ts, count, at, r, now)) ==>
              n in Bases(Clean(ts, count, at)) || (r.GotList? && n in r.items)
  {
    if at.CleanList? {
      if r.GotList? {
        OfNameIn(r.items, ts[0].rbName);
        VisitBases(ts, count, OfName(r.items, ts[0].rbName), now);
      }
    } else {
      VisitBases(ts, count, at.todo[1..], now);
      VisitBases(ts, count + 1, at.todo[1..], now);
    }
  }

  lemma BasesStep(p: Proc, r: Reply, now: nat)
    requires Calls(p) && Answers(Next(p), r)
    ensures forall n :: n in Bases(Resume(p, r, now)) ==>
              || n in Bases(p)
              || (r.GotRb? && Next(p) == GetRb(n.key) && n.rb == r.rb)
              || (r.GotList? && n in r.items)
  {
    match p
    case Rec(t, deny, id, at) => BasesRec(t, deny, id, at, r);
    case Lab(t, deny, ns, at) => BasesLab(t, deny, ns, at, r);
    case Clean(ts, count, at) => BasesClean(ts, count, at, r, now);
    case Hook(_, _, _, _, _) =>
  }

  lemma ExecAnswers(s: Store, c: Call, o: Oracle)
    ensures var (s', r) := Exec(s, c, o);
      && Answers(c, r)
      && s'.crs == s.crs && s'.namespaces == s.namespaces && s'.clusterRoles == s.clusterRoles
      && (r.GotCr? ==> c.GetCr? && c.id in s.crs && r.cr == s.crs[c.id])
      && (r.GotRb? ==> c.GetRb? && c.key in s.rbs && r.rb == s.rbs[c.key])
      && (r.GotList? ==> forall n :: n in r.items ==> n.key in s.rbs && n.rb == s.rbs[n.key] && Managed(n.rb))
  {}

  // ---- Resource versions ------------------------------------------------------------------------------

  predicate VersionsOk(s: Store) {
    forall k | k in s.rbs :: s.rbs[k].rv < s.version && s.rbs[k].uid < s.version
  }

  // A snapshot with the current uid and version is the current object.
  predicate Coherent(s: Store, n: Named) {
    && n.rb.rv < s.version && n.rb.uid < s.version
    && (n.key in s.rbs && s.rbs[n.key].rv == n.rb.rv ==> s.rbs[n.key] == n.rb)
  }

  ghost predicate VersionInv(s: Sys) {
    && VersionsOk(s.store)
    && forall pid, n | pid in s.procs && n in Bases(s.procs[pid]) :: Coherent(s.store, n)
  }

  lemma PutCoherent(s: Store, key: Key, rb: RoleBinding, n: Named)
    requires VersionsOk(s) && Coherent(s, n) && rb.uid <= s.version
    ensures VersionsOk(Put(s, key, rb)) && Coherent(Put(s, key, rb), n)
  {}

  // The writes of an actor carry the uid of the snapshot they start from.
  lemma ExecCoherent(s: Store, c: Call, o: Oracle, n: Named)
    requires VersionsOk(s) && Coherent(s, n)
    ensures VersionsOk(Exec(s, c, o).0) && Coherent(Exec(s, c, o).0, n)
  {
    match c
    case CreateRb(k, rb) => PutCoherent(s, k, rb.(uid := s.version), n);
    case UpdateRb(k, rb) => if k in s.rbs && s.rbs[k].uid == rb.uid { PutCoherent(s, k, rb, n); }
    case PatchOwners(k, owners) => if k in s.rbs { PutCoherent(s, k, s.rbs[k].(owners := owners), n); }
    case _ =>
  }

  lemma ExecVersions(s: Store, c: Call, o: Oracle)
    requires VersionsOk(s)
    ensures VersionsOk(Exec(s, c, o).0) && s.version <= Exec(s, c, o).0.version
  {
    match c
    case UpdateRb(k, rb) =>
      if k in s.rbs && s.rbs[k].uid == rb.uid && s.rbs[k].rv == rb.rv { assert rb.uid < s.version; }
    case _ =>
  }

  lemma VersionActor(cfg: Config, s: Sys, pid: nat, o: Oracle)
    requires VersionInv(s) && Enabled(cfg, s, Actor(pid, o))
    ensures VersionInv(Apply(cfg, s, Actor(pid, o)))
  {
    var p := s.procs[pid];
    var (store', r) := Exec(s.store, Next(p), o);
    var s' := Apply(cfg, s, Actor(pid, o));
    ExecAnswers(s.store, Next(p), o);
    ExecVersions(s.store, Next(p), o);
    BasesStep(p, r, s.clock);
    forall q, n | q in s'.procs && n in Bases(s'.procs[q]) ensures Coherent(store', n) {
      if n.key in s.store.rbs && n.rb == s.store.rbs[n.key] {
        assert Coherent(s.store, n);
      } else {
        assert n in Bases(s.procs[q]);
      }
      ExecCoherent(s.store, Next(p), o, n);
    }
  }

  lemma {:induction false} BeginBases(cfg: Config, st: Start)
    requires StartOk(cfg, st)
    ensures Bases(Begin(cfg, st)) == []
  {}

  lemma VersionStep(cfg: Config, s: Sys, m: Move)
    requires VersionInv(s) && Enabled(cfg, s, m)
    ensures VersionInv(Apply(cfg, s, m))
  {
    var s' := Apply(cfg, s, m);
    match m
    case Actor(pid, o) => VersionActor(cfg, s, pid, o);
    case Spawn(pid, st) =>
      BeginBases(cfg, st);
      forall q, n | q in s'.procs && n in Bases(s'.procs[q]) ensures Coherent(s'.store, n) {
        assert q in s.procs && n in Bases(s.procs[q]);
      }
    case Tampered(key, rb) =>
      forall q, n | q in s'.procs && n in Bases(s'.procs[q]) ensures Coherent(s'.store, n) {
        PutCoherent(s.store, key, rb, n);
      }
    case _ =>
      forall q, n | q in s'.procs && n in Bases(s'.procs[q]) ensures Coherent(s'.store, n) {
        assert Coherent(s.store, n);
      }
  }

  // ---- What an update starts from -----------------------------------------------------------------------

  predicate Updates(p: Proc) {
    match p
    case Rec(_, _, _, at) => at.SubjectsPut? || at.BackfillPut? || at.EntryPut?
    case Lab(_, _, _, at) => at.LabSubjectsPut?
    case Clean(_, _, at) => Calls(p) && at.CleanUpdate?
    case _ => false
  }

  // The snapshot an actor is about to write back, changed.
  function UpdateBase(p: Proc): Named
    requires Updates(p)
  {
    match p
    case Rec(t, _, _, at) => Named(RecKey(t, at.cr, at.ns), at.base)
    case Lab(t, _, ns, at) => Named(Key(ns, t.rbName), at.base)
    case Clean(_, _, at) => at.todo[0]
  }

  lemma OnlyUpdates(p: Proc)
    requires Calls(p) && Next(p).UpdateRb?
    ensures Updates(p)
  {}

  lemma OnlyOwnerPatches(p: Proc)
    requires Calls(p) && Next(p).PatchOwners?
    ensures p.Rec? && p.rec.OwnerPatch?
    ensures Next(p) == PatchOwners(RecKey(p.t, p.rec.cr, p.rec.ns), SetOwner(p.rec.base.owners, RefOf(p.rec.cr)))
  {}

  lemma UpdateBaseHeld(p: Proc)
    requires Calls(p) && Updates(p)
    ensures UpdateBase(p) in Bases(p) && Next(p).UpdateRb? && Next(p).key == UpdateBase(p).key
    ensures Next(p).rb.uid == UpdateBase(p).rb.uid && Next(p).rb.rv == UpdateBase(p).rb.rv
  {}

  // An update that goes through starts from exactly the current object.
  lemma UpdateCurrent(s: Sys, pid: nat, key: Key)
    requires VersionInv(s) && pid in s.procs && Calls(s.procs[pid])
    requires Next(s.procs[pid]).UpdateRb? && Next(s.procs[pid]).key == key && key in s.store.rbs
    requires Next(s.procs[pid]).rb.uid == s.store.rbs[key].uid && Next(s.procs[pid]).rb.rv == s.store.rbs[key].rv
    ensures Updates(s.procs[pid]) && UpdateBase(s.procs[pid]) == Named(key, s.store.rbs[key])
  {
    var p := s.procs[pid];
    OnlyUpdates(p);
    UpdateBaseHeld(p);
    assert Coherent(s.store, UpdateBase(p));
  }
}
