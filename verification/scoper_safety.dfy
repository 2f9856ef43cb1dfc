// Whole-system safety: what every RoleBinding in every reachable store looks like, what had
// been checked before it was created, and when cleanup may delete.
module ScoperSafety {
  import opened Strings
  import opened Ownership
  import opened ScoperTypes
  import opened ScoperActors
  import opened ScoperSystem
  import opened ScoperOwners
  import opened ScoperGrants

  // ---- Configuration ---------------------------------------------------------------------------

  // What validateTarget guarantees for a target with a static service account and name.
  predicate StaticTarget(t: Target) {
    && t.saSource.None? && t.saFunc.None? && t.nameFunc.None?
    && (t.webhook || t.trigger.Some? ==> t.nsField.None?)
    && SlashFree(t.gvk.group) && SlashFree(t.gvk.version) && SlashFree(t.gvk.kind)
  }

  ghost predicate ConfigOk(cfg: Config) {
    && (forall t | t in cfg.targets :: StaticTarget(t))
    && (forall i, j | 0 <= i < j < |cfg.targets| :: cfg.targets[i].rbName != cfg.targets[j].rbName)
  }

  // ---- What an actor has seen --------------------------------------------------------------------

  predicate RoleRead(ev: Event, t: Target) {
    ev.Act? && ev.call == GetClusterRole(t.clusterRole) && ev.reply == GotRole(false)
  }

  predicate NotFoundRead(ev: Event, pid: nat, id: CrId) {
    ev.Act? && ev.pid == pid && ev.call == GetCr(id) && ev.reply == Err(NotFound)
  }

  ghost predicate NotFoundSeen(trace: seq<Event>, pid: nat, id: CrId) {
    exists i :: 0 <= i < |trace| && NotFoundRead(trace[i], pid, id)
  }

  // ---- Every binding --------------------------------------------------------------------------------

  // Owner annotations belong to cross-namespace targets, owner references and pending owners
  // to the others, and pending owners only to webhook targets. A binding the webhook created
  // always names its owner, pending or real.
  predicate Regime(t: Target, rb: RoleBinding) {
    if t.nsField.Some? then
      && rb.owners == [] && PENDING_KEY !in rb.annotations && Entries(rb) != []
      && Ann(rb, CREATED_BY_KEY) != BY_WEBHOOK
    else
      && OWNERS_KEY !in rb.annotations
      && (PENDING_KEY in rb.annotations ==> t.webhook)
      && (Ann(rb, CREATED_BY_KEY) == BY_WEBHOOK ==> PENDING_KEY in rb.annotations || rb.owners != [])
  }

  // A pending owner is the text with which a webhook created this binding, and carries, in
  // whole seconds, the time at which that webhook had read its clock.
  ghost predicate PendingTrue(trace: seq<Event>, t: Target, key: Key, rb: RoleBinding) {
    PENDING_KEY in rb.annotations ==>
      SlashFree(key.ns) && exists i, k, name :: Stamped(trace, t, key, rb, i, k, name)
  }

  // Event k is the creation of this binding, told by its uid, for the CR name; event i is the
  // ClusterRole read of the same process, after which it read its clock.
  ghost predicate Stamped(trace: seq<Event>, t: Target, key: Key, rb: RoleBinding, i: int, k: int, name: string) {
    && 0 <= i < k < |trace| && RoleRead(trace[i], t) && SlashFree(name)
    && trace[k].Act? && trace[k].pid == trace[i].pid && trace[k].version == rb.uid
    && trace[k].call == CreateRb(key, HookRb(t, key.ns, name, trace[i].at)) && trace[k].reply.Ok?
    && Ann(rb, PENDING_KEY) == PendingText(key.ns, name, t.gvk, trace[i].at / 1000)
  }

  ghost predicate GoodFor(cfg: Config, trace: seq<Event>, t: Target, key: Key, rb: RoleBinding) {
    && t in cfg.targets && t.rbName == key.name
    && !IsDenied(key.ns, cfg.deny)
    && Managed(rb) && rb.roleRef == ExpectedRef(t) && rb.subjects == ExpectedSubjects(t.sa)
    && Regime(t, rb)
    && PendingTrue(trace, t, key, rb)
  }

  ghost predicate SafeRb(cfg: Config, trace: seq<Event>, key: Key, rb: RoleBinding) {
    exists t :: GoodFor(cfg, trace, t, key, rb)
  }

  lemma SafeIsGood(cfg: Config, trace: seq<Event>, t: Target, key: Key, rb: RoleBinding)
    requires ConfigOk(cfg) && t in cfg.targets && t.rbName == key.name && SafeRb(cfg, trace, key, rb)
    ensures GoodFor(cfg, trace, t, key, rb)
  {
    var u :| GoodFor(cfg, trace, u, key, rb);
    var i :| 0 <= i < |cfg.targets| && cfg.targets[i] == t;
    var j :| 0 <= j < |cfg.targets| && cfg.targets[j] == u;
    assert i == j;
  }

  lemma SafeLater(cfg: Config, trace: seq<Event>, ev: Event, key: Key, rb: RoleBinding)
    requires SafeRb(cfg, trace, key, rb)
    ensures SafeRb(cfg, trace + [ev], key, rb)
  {
    var t :| GoodFor(cfg, trace, t, key, rb);
    if PENDING_KEY in rb.annotations {
      var i, k, name :| Stamped(trace, t, key, rb, i, k, name);
      assert (trace + [ev])[i] == trace[i] && (trace + [ev])[k] == trace[k];
      assert Stamped(trace + [ev], t, key, rb, i, k, name);
    }
    assert GoodFor(cfg, trace + [ev], t, key, rb);
  }

  lemma SameStamp(trace: seq<Event>, t: Target, key: Key, rb: RoleBinding, rb': RoleBinding)
    requires PendingTrue(trace, t, key, rb) && rb'.annotations == rb.annotations
    requires rb'.uid == rb.uid || PENDING_KEY !in rb.annotations
    ensures PendingTrue(trace, t, key, rb')
  {
    if PENDING_KEY in rb.annotations {
      var i, k, name :| Stamped(trace, t, key, rb, i, k, name);
      assert Stamped(trace, t, key, rb', i, k, name);
    }
  }

  // ---- Every actor --------------------------------------------------------------------------------------

  // The repair states are never entered while nobody but the actors touches bindings.
  predicate RecSafe(cfg: Config, t: Target, at: RecPc) {
    at.FetchCr? || (
      && TargetNs(t, at.cr) == Some(at.ns) && !IsDenied(at.ns, cfg.deny)
      && (at.Lookup? || at.CreateNew? ==> at.sa == t.sa)
      && !at.Refetch? && !at.DeleteOld? && !at.Recreate? && !at.SubjectsGet? && !at.SubjectsPut?
      && (at.BackfillGet? || at.BackfillPut? || at.OwnerGet? || at.OwnerPatch? ==> t.nsField.None?)
      && (at.EntryGet? || at.EntryPut? ==> t.nsField.Some?))
  }

  predicate LabSafe(cfg: Config, t: Target, ns: string, at: LabPc) {
    && t.trigger.Some?
    && !at.LabDriftDelete? && !at.LabDriftCreate? && !at.LabSubjectsGet? && !at.LabSubjectsPut?
    && (at.LabRole? || at.LabCreate? ==> !IsDenied(ns, cfg.deny))
  }

  ghost predicate HookSafe(cfg: Config, trace: seq<Event>, pid: nat, t: Target, ns: string, name: string, at: HookPc) {
    && t.webhook && SlashFree(ns) && SlashFree(name) && !IsDenied(ns, cfg.deny)
    && (at.HookCreate? ==> exists i :: ClockRead(trace, pid, t, at.stamp, i))
  }

  // Event i is the ClusterRole read of process pid, at the time stamp.
  predicate ClockRead(trace: seq<Event>, pid: nat, t: Target, stamp: nat, i: int) {
    0 <= i < |trace| && RoleRead(trace[i], t) && trace[i].pid == pid && trace[i].at == stamp
  }

  // Why cleanup may delete the binding it visits.
  ghost predicate Orphaned(trace: seq<Event>, pid: nat, now: nat, t: Target, n: Named) {
    if PENDING_KEY in n.rb.annotations then
      match ParsePending(n.rb.annotations[PENDING_KEY])
      case None => false
      case Some(p) => Expired(p, now) && NotFoundSeen(trace, pid, CrId(t.gvk, p.ns, p.name))
    else
      Entries(n.rb) != [] && Pruned(trace, pid, t, n.key.ns, Entries(n.rb), [])
  }

  ghost predicate CleanSafe(cfg: Config, trace: seq<Event>, pid: nat, now: nat, p: Proc)
    requires p.Clean? && Calls(p)
  {
    && (forall t | t in p.ts :: t in cfg.targets && (t.nsField.Some? || t.webhook))
    && (forall n | n in Bases(p) :: n.key.name == p.ts[0].rbName)
    && match p.clean
       case CleanPending(q, todo) =>
         && PENDING_KEY in todo[0].rb.annotations && Expired(q, now)
         && ParsePending(todo[0].rb.annotations[PENDING_KEY]) == Some(q)
       case CleanOwner(_, _, todo) => PENDING_KEY !in todo[0].rb.annotations
       case CleanDelete(todo) => Orphaned(trace, pid, now, p.ts[0], todo[0])
       case _ => true
  }

  ghost predicate ProcSafe(cfg: Config, trace: seq<Event>, pid: nat, now: nat, p: Proc) {
    match p
    case Fin(_) => true
    case Rec(t, deny, id, at) => t in cfg.targets && deny == cfg.deny && RecSafe(cfg, t, at)
    case Lab(t, deny, ns, at) => t in cfg.targets && deny == cfg.deny && LabSafe(cfg, t, ns, at)
    case Hook(t, ns, name, _, at) => t in cfg.targets && HookSafe(cfg, trace, pid, t, ns, name, at)
    case Clean(_, _, _) => Calls(p) && CleanSafe(cfg, trace, pid, now, p)
  }

  ghost predicate SafetyInv(cfg: Config, s: Sys) {
    && OwnerInv(s)
    && (forall k | k in s.store.rbs :: SafeRb(cfg, s.trace, k, s.store.rbs[k]))
    && (forall pid, n | pid in s.procs && n in Bases(s.procs[pid]) :: SafeRb(cfg, s.trace, n.key, n.rb))
    && (forall pid | pid in s.procs :: ProcSafe(cfg, s.trace, pid, s.clock, s.procs[pid]))
  }

  // ---- What actors write is safe -----------------------------------------------------------------------

  lemma NewAnnotationRead(e: OwnerEntry)
    requires Carried(e)
    ensures Parse(Format([e])) == [e]
  {
    FormatThenParse([e]);
  }

  lemma NewIsGood(cfg: Config, trace: seq<Event>, t: Target, cr: Cr, ns: string)
    requires t in cfg.targets && StaticTarget(t) && !IsDenied(ns, cfg.deny)
    requires TargetNs(t, cr) == Some(ns) && Carried(EntryOf(cr))
    ensures GoodFor(cfg, trace, t, RecKey(t, cr, ns), CreatedRb(t, cr, ns, t.sa))
  {
    NewAnnotationRead(EntryOf(cr));
  }

  lemma ListedIsGood(cfg: Config, trace: seq<Event>, born: map<string, CrId>, t: Target, key: Key, rb: RoleBinding, cr: Cr)
    requires GoodFor(cfg, trace, t, key, rb) && t.nsField.Some? && RbGood(born, rb) && CrGood(born, cr)
    ensures GoodFor(cfg, trace, t, key, Listed(rb, cr))
  {
    AppendOwner(born, rb, cr);
  }

  lemma BackfilledIsGood(cfg: Config, trace: seq<Event>, t: Target, key: Key, rb: RoleBinding, cr: Cr)
    requires GoodFor(cfg, trace, t, key, rb) && t.nsField.None?
    ensures GoodFor(cfg, trace, t, key, Backfilled(rb, cr))
  {
    SetOwnerAt(rb.owners, RefOf(cr));
  }

  lemma RecWrites(cfg: Config, s: Sys, pid: nat)
    requires ConfigOk(cfg) && SafetyInv(cfg, s) && pid in s.procs && s.procs[pid].Rec?
    requires Next(s.procs[pid]).CreateRb? || Next(s.procs[pid]).UpdateRb?
    ensures SafeRb(cfg, s.trace, Next(s.procs[pid]).key, Next(s.procs[pid]).rb)
  {
    var p := s.procs[pid];
    var t, at, key, rb := p.t, p.rec, Next(p).key, Next(p).rb;
    assert ProcSafe(cfg, s.trace, pid, s.clock, p) && StaticTarget(t);
    assert Held(p) == Some(at.cr) && CrGood(s.born, at.cr);
    if at.CreateNew? {
      NewIsGood(cfg, s.trace, t, at.cr, at.ns);
    } else {
      assert Named(key, at.base) in Bases(p);
      SafeIsGood(cfg, s.trace, t, key, at.base);
      if at.EntryPut? {
        ListedIsGood(cfg, s.trace, s.born, t, key, at.base, at.cr);
      } else {
        BackfilledIsGood(cfg, s.trace, t, key, at.base, at.cr);
      }
    }
    assert GoodFor(cfg, s.trace, t, key, rb);
  }

  // What a webhook creates is stamped by that webhook, from the moment it is created.
  lemma HookCreates(cfg: Config, s: Sys, pid: nat, ev: Event)
    requires ConfigOk(cfg) && SafetyInv(cfg, s) && pid in s.procs && s.procs[pid].Hook?
    requires Next(s.procs[pid]).CreateRb?
    requires ev == Act(pid, Next(s.procs[pid]), Ok, s.clock, s.store.version)
    ensures var v := s.store.version;
            SafeRb(cfg, s.trace + [ev], Next(s.procs[pid]).key, Next(s.procs[pid]).rb.(uid := v, rv := v))
  {
    var p := s.procs[pid];
    var v := s.store.version;
    assert ProcSafe(cfg, s.trace, pid, s.clock, p) && StaticTarget(p.t);
    var i :| ClockRead(s.trace, pid, p.t, p.hook.stamp, i);
    HookIsGood(cfg, s.trace, p.t, p.ns, p.name, p.hook.stamp, i, ev, v);
  }

  lemma HookIsGood(cfg: Config, trace: seq<Event>, t: Target, ns: string, name: string, stamp: nat, i: int, ev: Event, v: nat)
    requires t in cfg.targets && StaticTarget(t) && t.webhook && SlashFree(ns) && SlashFree(name) && !IsDenied(ns, cfg.deny)
    requires ev.Act? && ev.reply.Ok? && ev.version == v && ClockRead(trace, ev.pid, t, stamp, i)
    requires ev.call == CreateRb(Key(ns, t.rbName), HookRb(t, ns, name, stamp))
    ensures SafeRb(cfg, trace + [ev], Key(ns, t.rbName), HookRb(t, ns, name, stamp).(uid := v, rv := v))
  {
    var trace' := trace + [ev];
    var rb := HookRb(t, ns, name, stamp).(uid := v, rv := v);
    assert trace'[i] == trace[i] && trace'[|trace|] == ev;
    assert Stamped(trace', t, Key(ns, t.rbName), rb, i, |trace|, name);
    assert GoodFor(cfg, trace', t, Key(ns, t.rbName), rb);
  }

  lemma CleanWrites(cfg: Config, s: Sys, pid: nat)
    requires ConfigOk(cfg) && SafetyInv(cfg, s) && pid in s.procs && s.procs[pid].Clean?
    requires Calls(s.procs[pid]) && Next(s.procs[pid]).UpdateRb?
    ensures SafeRb(cfg, s.trace, Next(s.procs[pid]).key, Next(s.procs[pid]).rb)
  {
    var p := s.procs[pid];
    var n, valid := p.clean.todo[0], p.clean.valid;
    assert ProcSafe(cfg, s.trace, pid, s.clock, p) && n in Bases(p);
    assert p.ts[0] in p.ts;
    SafeIsGood(cfg, s.trace, p.ts[0], n.key, n.rb);
    assert CleanGood(s.trace, pid, p);
    PruneOwners(s.born, s.trace, pid, p.ts[0], n.key.ns, n.rb, valid);
    assert GoodFor(cfg, s.trace, p.ts[0], n.key, Next(p).rb);
  }

  lemma LabWrites(cfg: Config, s: Sys, pid: nat)
    requires ConfigOk(cfg) && SafetyInv(cfg, s) && pid in s.procs && s.procs[pid].Lab?
    requires Next(s.procs[pid]).CreateRb? || Next(s.procs[pid]).UpdateRb?
    ensures SafeRb(cfg, s.trace, Next(s.procs[pid]).key, Next(s.procs[pid]).rb)
  {
    var p := s.procs[pid];
    assert ProcSafe(cfg, s.trace, pid, s.clock, p) && StaticTarget(p.t);
    assert GoodFor(cfg, s.trace, p.t, Next(p).key, Next(p).rb);
  }

  lemma WritesAreSafe(cfg: Config, s: Sys, pid: nat)
    requires ConfigOk(cfg) && SafetyInv(cfg, s) && pid in s.procs && Calls(s.procs[pid]) && !s.procs[pid].Hook?
    requires Next(s.procs[pid]).CreateRb? || Next(s.procs[pid]).UpdateRb?
    ensures SafeRb(cfg, s.trace, Next(s.procs[pid]).key, Next(s.procs[pid]).rb)
  {
    var p := s.procs[pid];
    if p.Rec? {
      RecWrites(cfg, s, pid);
    } else if p.Lab? {
      LabWrites(cfg, s, pid);
    } else {
      CleanUpdates(p);
      CleanWrites(cfg, s, pid);
    }
  }

  lemma CleanUpdates(p: Proc)
    requires p.Clean? && Calls(p)
    ensures !Next(p).CreateRb?
  {}

  lemma NoPendingCreated(p: Proc)
    requires Calls(p) && !p.Hook? && Next(p).CreateRb?
    ensures PENDING_KEY !in Next(p).rb.annotations
  {}

  lemma PatchedIsGood(cfg: Config, trace: seq<Event>, t: Target, key: Key, rb: RoleBinding, owners: seq<OwnerRef>)
    requires GoodFor(cfg, trace, t, key, rb) && t.nsField.None? && owners != []
    ensures SafeRb(cfg, trace, key, rb.(owners := owners))
  {
    SameStamp(trace, t, key, rb, rb.(owners := owners));
    assert GoodFor(cfg, trace, t, key, rb.(owners := owners));
  }

  // Owner references are patched only on same-namespace targets, and never to nothing.
  lemma PatchIsSafe(cfg: Config, s: Sys, pid: nat)
    requires ConfigOk(cfg) && SafetyInv(cfg, s) && pid in s.procs && Calls(s.procs[pid])
    requires Next(s.procs[pid]).PatchOwners? && Next(s.procs[pid]).key in s.store.rbs
    ensures SafeRb(cfg, s.trace, Next(s.procs[pid]).key,
                   s.store.rbs[Next(s.procs[pid]).key].(owners := Next(s.procs[pid]).owners))
  {
    var p := s.procs[pid];
    OnlyOwnerPatches(p);
    assert ProcSafe(cfg, s.trace, pid, s.clock, p);
    PatchByRec(cfg, s.trace, pid, p.t, p.rec, s.store);
  }

  lemma PatchByRec(cfg: Config, trace: seq<Event>, pid: nat, t: Target, at: RecPc, s: Store)
    requires ConfigOk(cfg) && t in cfg.targets && at.OwnerPatch? && RecSafe(cfg, t, at)
    requires RecKey(t, at.cr, at.ns) in s.rbs && SafeRb(cfg, trace, RecKey(t, at.cr, at.ns), s.rbs[RecKey(t, at.cr, at.ns)])
    ensures SafeRb(cfg, trace, RecKey(t, at.cr, at.ns),
                   s.rbs[RecKey(t, at.cr, at.ns)].(owners := SetOwner(at.base.owners, RefOf(at.cr))))
  {
    var key := RecKey(t, at.cr, at.ns);
    assert StaticTarget(t);
    SafeIsGood(cfg, trace, t, key, s.rbs[key]);
    SetOwnerAt(at.base.owners, RefOf(at.cr));
    PatchedIsGood(cfg, trace, t, key, s.rbs[key], SetOwner(at.base.owners, RefOf(at.cr)));
  }

  // The resourceVersion plays no part in safety, and the uid only under a pending owner.
  lemma SafeIgnoresVersion(cfg: Config, trace: seq<Event>, key: Key, rb: RoleBinding, uid: nat, rv: nat)
    requires SafeRb(cfg, trace, key, rb) && (uid == rb.uid || PENDING_KEY !in rb.annotations)
    ensures SafeRb(cfg, trace, key, rb.(uid := uid, rv := rv))
  {
    var t :| GoodFor(cfg, trace, t, key, rb);
    var rb' := rb.(uid := uid, rv := rv);
    SameStamp(trace, t, key, rb, rb');
    assert GoodFor(cfg, trace, t, key, rb');
  }

  lemma ExecRb(s: Store, c: Call, o: Oracle, k: Key)
    requires k in Exec(s, c, o).0.rbs
    ensures var (s', r) := Exec(s, c, o);
            var rb' := s'.rbs[k];
            || (k in s.rbs && rb' == s.rbs[k])
            || (c.CreateRb? && c.key == k && r.Ok? && rb' == c.rb.(uid := s.version, rv := s.version))
            || (c.UpdateRb? && c.key == k && rb' == c.rb.(rv := rb'.rv))
            || (c.PatchOwners? && c.key == k && k in s.rbs && rb' == s.rbs[k].(owners := c.owners).(rv := rb'.rv))
  {}

  lemma StoreActor(cfg: Config, s: Sys, pid: nat, o: Oracle, k: Key)
    requires ConfigOk(cfg) && SafetyInv(cfg, s) && Enabled(cfg, s, Actor(pid, o))
    requires k in Exec(s.store, Next(s.procs[pid]), o).0.rbs
    ensures var c := Next(s.procs[pid]);
            var (store', r) := Exec(s.store, c, o);
            SafeRb(cfg, s.trace + [Act(pid, c, r, s.clock, s.store.version)], k, store'.rbs[k])
  {
    var c := Next(s.procs[pid]);
    var (store', r) := Exec(s.store, c, o);
    var rb' := store'.rbs[k];
    var ev := Act(pid, c, r, s.clock, s.store.version);
    ExecRb(s.store, c, o, k);
    if k in s.store.rbs && rb' == s.store.rbs[k] {
      SafeLater(cfg, s.trace, ev, k, rb');
    } else if c.CreateRb? && s.procs[pid].Hook? {
      HookCreates(cfg, s, pid, ev);
    } else if c.CreateRb? || c.UpdateRb? {
      WritesAreSafe(cfg, s, pid);
      if c.CreateRb? {
        NoPendingCreated(s.procs[pid]);
      }
      SafeIgnoresVersion(cfg, s.trace, k, c.rb, rb'.uid, rb'.rv);
      SafeLater(cfg, s.trace, ev, k, rb');
    } else {
      PatchIsSafe(cfg, s, pid);
      SafeIgnoresVersion(cfg, s.trace, k, s.store.rbs[k].(owners := c.owners), rb'.uid, rb'.rv);
      SafeLater(cfg, s.trace, ev, k, rb');
    }
  }

  // ---- Actors stay safe ----------------------------------------------------------------------------------

  lemma SeenLater(trace: seq<Event>, ev: Event, pid: nat, id: CrId)
    ensures NotFoundSeen(trace, pid, id) ==> NotFoundSeen(trace + [ev], pid, id)
    ensures NotFoundRead(ev, pid, id) ==> NotFoundSeen(trace + [ev], pid, id)
  {
    var trace' := trace + [ev];
    assert trace'[|trace|] == ev;
    assert forall i :: 0 <= i < |trace| ==> trace'[i] == trace[i];
  }

  lemma OrphanedLater(trace: seq<Event>, ev: Event, pid: nat, now: nat, now': nat, t: Target, n: Named)
    requires Orphaned(trace, pid, now, t, n) && now <= now'
    ensures Orphaned(trace + [ev], pid, now', t, n) && Orphaned(trace, pid, now', t, n)
  {
    if PENDING_KEY in n.rb.annotations {
      var p := ParsePending(n.rb.annotations[PENDING_KEY]).value;
      SeenLater(trace, ev, pid, CrId(t.gvk, p.ns, p.name));
    } else {
      PrunedLater(trace, ev, pid, t, n.key.ns, Entries(n.rb), []);
    }
  }

  lemma StampLater(trace: seq<Event>, ev: Event, pid: nat, t: Target, stamp: nat)
    requires exists i :: ClockRead(trace, pid, t, stamp, i)
    ensures exists i :: ClockRead(trace + [ev], pid, t, stamp, i)
  {
    var i :| ClockRead(trace, pid, t, stamp, i);
    assert ClockRead(trace + [ev], pid, t, stamp, i);
  }

  lemma ProcSafeLater(cfg: Config, trace: seq<Event>, ev: Event, pid: nat, now: nat, p: Proc)
    requires ProcSafe(cfg, trace, pid, now, p)
    ensures ProcSafe(cfg, trace + [ev], pid, now, p)
  {
    if p.Hook? && p.hook.HookCreate? {
      StampLater(trace, ev, pid, p.t, p.hook.stamp);
    } else if p.Clean? && p.clean.CleanDelete? {
      OrphanedLater(trace, ev, pid, now, now, p.ts[0], p.clean.todo[0]);
    }
  }

  lemma ProcSafeTick(cfg: Config, trace: seq<Event>, pid: nat, now: nat, now': nat, p: Proc)
    requires ProcSafe(cfg, trace, pid, now, p) && now <= now'
    ensures ProcSafe(cfg, trace, pid, now', p)
  {
    if p.Clean? && p.clean.CleanDelete? {
      OrphanedLater(trace, Outside(p.clean.todo[0].key), pid, now, now', p.ts[0], p.clean.todo[0]);
    }
  }

  // What a reply tells the actor: it is true of the store, and recorded in the trace.
  ghost predicate Heard(cfg: Config, trace': seq<Event>, pid: nat, c: Call, r: Reply, now: nat, v: nat) {
    && |trace'| > 0 && trace'[|trace'| - 1] == Act(pid, c, r, now, v)
    && (r.GotRb? ==> c.GetRb? && SafeRb(cfg, trace', c.key, r.rb))
  }

  lemma RecResumeSafe(cfg: Config, trace: seq<Event>, pid: nat, now: nat, t: Target, id: CrId, at: RecPc, r: Reply)
    requires StaticTarget(t) && t in cfg.targets && RecSafe(cfg, t, at)
    requires Answers(NextRec(t, id, at), r)
    requires at.Lookup? && r.GotRb? ==> r.rb.roleRef == ExpectedRef(t) && r.rb.subjects == ExpectedSubjects(t.sa)
    ensures ProcSafe(cfg, trace, pid, now, ResumeRec(t, cfg.deny, id, at, r))
  {}

  lemma RecStepSafe(cfg: Config, trace: seq<Event>, pid: nat, now: nat, v: nat, p: Proc, r: Reply)
    requires ConfigOk(cfg) && p.Rec? && ProcSafe(cfg, trace, pid, now, p)
    requires Answers(Next(p), r) && Heard(cfg, trace + [Act(pid, Next(p), r, now, v)], pid, Next(p), r, now, v)
    ensures ProcSafe(cfg, trace + [Act(pid, Next(p), r, now, v)], pid, now, Resume(p, r, now))
  {
    var ev := Act(pid, Next(p), r, now, v);
    var at := p.rec;
    assert StaticTarget(p.t);
    ProcSafeLater(cfg, trace, ev, pid, now, p);
    if at.Lookup? && r.GotRb? {
      SafeIsGood(cfg, trace + [ev], p.t, Next(p).key, r.rb);
    }
    RecResumeSafe(cfg, trace + [ev], pid, now, p.t, p.id, at, r);
  }

  lemma LabStepSafe(cfg: Config, trace: seq<Event>, pid: nat, now: nat, v: nat, p: Proc, r: Reply)
    requires ConfigOk(cfg) && p.Lab? && ProcSafe(cfg, trace, pid, now, p)
    requires Answers(Next(p), r) && Heard(cfg, trace + [Act(pid, Next(p), r, now, v)], pid, Next(p), r, now, v)
    ensures ProcSafe(cfg, trace + [Act(pid, Next(p), r, now, v)], pid, now, Resume(p, r, now))
  {
    var ev := Act(pid, Next(p), r, now, v);
    assert StaticTarget(p.t);
    if p.lab.LabDriftGet? && r.GotRb? {
      SafeIsGood(cfg, trace + [ev], p.t, Next(p).key, r.rb);
    }
  }

  lemma HookStepSafe(cfg: Config, trace: seq<Event>, pid: nat, now: nat, v: nat, p: Proc, r: Reply)
    requires p.Hook? && ProcSafe(cfg, trace, pid, now, p) && Answers(Next(p), r)
    ensures ProcSafe(cfg, trace + [Act(pid, Next(p), r, now, v)], pid, now, Resume(p, r, now))
  {
    var ev := Act(pid, Next(p), r, now, v);
    if p.hook.HookRole? {
      assert (trace + [ev])[|trace|] == ev;
      if RoleRead(ev, p.t) {
        assert ClockRead(trace + [ev], pid, p.t, now, |trace|);
      }
    }
  }

  // The loop over listed bindings stops only where a call is due, and then for a reason.
  lemma VisitSafe(cfg: Config, trace: seq<Event>, pid: nat, now: nat, ts: seq<Target>, count: nat, todo: seq<Named>)
    requires ts != [] && (forall t | t in ts :: t in cfg.targets && (t.nsField.Some? || t.webhook))
    requires forall n | n in todo :: n.key.name == ts[0].rbName
    ensures ProcSafe(cfg, trace, pid, now, Visit(ts, count, todo, now))
    decreases |todo|
  {
    if todo != [] {
      VisitSafe(cfg, trace, pid, now, ts, count, todo[1..]);
    }
  }

  lemma CleanStepSafe(cfg: Config, trace: seq<Event>, pid: nat, now: nat, v: nat, p: Proc, r: Reply)
    requires p.Clean? && ProcSafe(cfg, trace, pid, now, p) && CleanGood(trace, pid, p)
    requires Answers(Next(p), r)
    ensures ProcSafe(cfg, trace + [Act(pid, Next(p), r, now, v)], pid, now, Resume(p, r, now))
  {
    var ev := Act(pid, Next(p), r, now, v);
    var trace' := trace + [ev];
    var ts, count := p.ts, p.count;
    match p.clean
    case CleanList =>
      if r.GotList? {
        OfNameIn(r.items, ts[0].rbName);
        VisitSafe(cfg, trace', pid, now, ts, count, OfName(r.items, ts[0].rbName));
      }
    case CleanPending(q, todo) =>
      SeenLater(trace, ev, pid, CrId(ts[0].gvk, q.ns, q.name));
      VisitSafe(cfg, trace', pid, now, ts, count, todo[1..]);
    case CleanOwner(_, _, _) => CleanOwnerSafe(cfg, trace, pid, now, v, ts, count, p.clean, r);
    case CleanDelete(todo) =>
      VisitSafe(cfg, trace', pid, now, ts, count, todo[1..]);
      VisitSafe(cfg, trace', pid, now, ts, count + 1, todo[1..]);
    case CleanUpdate(_, todo) =>
      VisitSafe(cfg, trace', pid, now, ts, count, todo[1..]);
  }

  lemma OwnersLeftSafe(cfg: Config, trace: seq<Event>, pid: nat, now: nat, ts: seq<Target>, count: nat,
                       left: seq<OwnerEntry>, valid: seq<OwnerEntry>, todo: seq<Named>)
    requires ts != [] && todo != [] && PENDING_KEY !in todo[0].rb.annotations
    requires forall t | t in ts :: t in cfg.targets && (t.nsField.Some? || t.webhook)
    requires forall n | n in todo :: n.key.name == ts[0].rbName
    requires left == [] ==> Entries(todo[0].rb) != [] && Pruned(trace, pid, ts[0], todo[0].key.ns, Entries(todo[0].rb), valid)
    ensures ProcSafe(cfg, trace, pid, now, OwnersLeft(ts, count, left, valid, todo, now))
  {
    VisitSafe(cfg, trace, pid, now, ts, count, todo[1..]);
  }

  lemma CleanOwnerSafe(cfg: Config, trace: seq<Event>, pid: nat, now: nat, v: nat, ts: seq<Target>, count: nat,
                       at: CleanPc, r: Reply)
    requires at.CleanOwner? && ProcSafe(cfg, trace, pid, now, Clean(ts, count, at)) && CleanGood(trace, pid, Clean(ts, count, at))
    ensures ProcSafe(cfg, trace + [Act(pid, NextClean(ts, at), r, now, v)], pid, now, ResumeClean(ts, count, at, r, now))
  {
    var ev := Act(pid, NextClean(ts, at), r, now, v);
    var left, todo := at.left, at.todo;
    var es := Entries(todo[0].rb);
    var i := |es| - |left|;
    assert es[i] == left[0];
    OneOwnerJudged(trace, ev, pid, ts[0], todo[0].key.ns, es, i, at.valid);
    assert |left| == 1 ==> es[..i + 1] == es;
    var valid' := if OwnerValid(ts[0], left[0], todo[0].key.ns, r) then at.valid + [left[0]] else at.valid;
    OwnersLeftSafe(cfg, trace + [ev], pid, now, ts, count, left[1..], valid', todo);
  }

  lemma HeardNow(cfg: Config, s: Sys, pid: nat, o: Oracle)
    requires SafetyInv(cfg, s) && Enabled(cfg, s, Actor(pid, o))
    ensures var c := Next(s.procs[pid]);
            var r := Exec(s.store, c, o).1;
            Answers(c, r) && Heard(cfg, s.trace + [Act(pid, c, r, s.clock, s.store.version)], pid, c, r, s.clock, s.store.version)
  {
    var c := Next(s.procs[pid]);
    var r := Exec(s.store, c, o).1;
    ExecAnswers(s.store, c, o);
    if r.GotRb? {
      SafeLater(cfg, s.trace, Act(pid, c, r, s.clock, s.store.version), c.key, r.rb);
    }
  }

  lemma ProcActor(cfg: Config, s: Sys, pid: nat, o: Oracle)
    requires ConfigOk(cfg) && SafetyInv(cfg, s) && Enabled(cfg, s, Actor(pid, o))
    ensures var s' := Apply(cfg, s, Actor(pid, o));
            ProcSafe(cfg, s'.trace, pid, s.clock, s'.procs[pid])
  {
    var p := s.procs[pid];
    var (_, r) := Exec(s.store, Next(p), o);
    HeardNow(cfg, s, pid, o);
    assert ProcSafe(cfg, s.trace, pid, s.clock, p) && CleanGood(s.trace, pid, p);
    match p
    case Rec(_, _, _, _) => RecStepSafe(cfg, s.trace, pid, s.clock, s.store.version, p, r);
    case Lab(_, _, _, _) => LabStepSafe(cfg, s.trace, pid, s.clock, s.store.version, p, r);
    case Hook(_, _, _, _, _) => HookStepSafe(cfg, s.trace, pid, s.clock, s.store.version, p, r);
    case Clean(_, _, _) => CleanStepSafe(cfg, s.trace, pid, s.clock, s.store.version, p, r);
  }

  // ---- The invariant holds in every run ---------------------------------------------------------------------

  // What an actor holds after a call it held before, or the call read it.
  lemma HeldOrRead(s: Sys, pid: nat, o: Oracle, n: Named)
    requires pid in s.procs && Calls(s.procs[pid])
    requires n in Bases(Resume(s.procs[pid], Exec(s.store, Next(s.procs[pid]), o).1, s.clock))
    ensures n in Bases(s.procs[pid]) || (n.key in s.store.rbs && n.rb == s.store.rbs[n.key])
  {
    ExecAnswers(s.store, Next(s.procs[pid]), o);
    BasesStep(s.procs[pid], Exec(s.store, Next(s.procs[pid]), o).1, s.clock);
  }

  // What the actor holds and what others hold stays safe.
  lemma BasesActor(cfg: Config, s: Sys, pid: nat, o: Oracle, q: nat, n: Named)
    requires ConfigOk(cfg) && SafetyInv(cfg, s) && Enabled(cfg, s, Actor(pid, o))
    requires var s' := Apply(cfg, s, Actor(pid, o)); q in s'.procs && n in Bases(s'.procs[q])
    ensures SafeRb(cfg, Apply(cfg, s, Actor(pid, o)).trace, n.key, n.rb)
  {
    var p := s.procs[pid];
    var c := Next(p);
    var (_, r) := Exec(s.store, c, o);
    if q == pid {
      HeldOrRead(s, pid, o, n);
    }
    SafeLater(cfg, s.trace, Act(pid, c, r, s.clock, s.store.version), n.key, n.rb);
  }

  lemma OthersActor(cfg: Config, s: Sys, pid: nat, o: Oracle, q: nat)
    requires ConfigOk(cfg) && SafetyInv(cfg, s) && Enabled(cfg, s, Actor(pid, o)) && q in s.procs && q != pid
    ensures ProcSafe(cfg, Apply(cfg, s, Actor(pid, o)).trace, q, s.clock, s.procs[q])
  {
    var c := Next(s.procs[pid]);
    var (_, r) := Exec(s.store, c, o);
    assert ProcSafe(cfg, s.trace, q, s.clock, s.procs[q]);
    ProcSafeLater(cfg, s.trace, Act(pid, c, r, s.clock, s.store.version), q, s.clock, s.procs[q]);
  }

  lemma SafetyActor(cfg: Config, s: Sys, pid: nat, o: Oracle)
    requires ConfigOk(cfg) && SafetyInv(cfg, s) && Enabled(cfg, s, Actor(pid, o))
    ensures SafetyInv(cfg, Apply(cfg, s, Actor(pid, o)))
  {
    var s' := Apply(cfg, s, Actor(pid, o));
    OwnerActor(cfg, s, pid, o);
    ProcActor(cfg, s, pid, o);
    forall k | k in s'.store.rbs ensures SafeRb(cfg, s'.trace, k, s'.store.rbs[k]) {
      StoreActor(cfg, s, pid, o, k);
    }
    forall q, n | q in s'.procs && n in Bases(s'.procs[q]) ensures SafeRb(cfg, s'.trace, n.key, n.rb) {
      BasesActor(cfg, s, pid, o, q, n);
    }
    forall q | q in s'.procs ensures ProcSafe(cfg, s'.trace, q, s'.clock, s'.procs[q]) {
      if q != pid {
        OthersActor(cfg, s, pid, o, q);
      }
    }
  }

  lemma SafetyRemoved(cfg: Config, s: Sys, key: Key)
    requires SafetyInv(cfg, s) && OwnerInv(Apply(cfg, s, Removed(key)))
    ensures SafetyInv(cfg, Apply(cfg, s, Removed(key)))
  {
    var s' := Apply(cfg, s, Removed(key));
    var ev := Outside(key);
    forall k | k in s'.store.rbs ensures SafeRb(cfg, s'.trace, k, s'.store.rbs[k]) {
      SafeLater(cfg, s.trace, ev, k, s.store.rbs[k]);
    }
    forall q, n | q in s'.procs && n in Bases(s'.procs[q]) ensures SafeRb(cfg, s'.trace, n.key, n.rb) {
      SafeLater(cfg, s.trace, ev, n.key, n.rb);
    }
    forall q | q in s'.procs ensures ProcSafe(cfg, s'.trace, q, s'.clock, s'.procs[q]) {
      ProcSafeLater(cfg, s.trace, ev, q, s.clock, s.procs[q]);
    }
  }

  lemma {:induction false} CleanupTargetsExact(ts: seq<Target>)
    ensures forall t :: t in CleanupTargets(ts) <==> t in ts && (t.nsField.Some? || t.webhook)
  {
    if ts != [] {
      CleanupTargetsExact(ts[1..]);
    }
  }

  lemma BeginSafe(cfg: Config, trace: seq<Event>, pid: nat, now: nat, st: Start)
    requires ConfigOk(cfg) && StartOk(cfg, st)
    ensures ProcSafe(cfg, trace, pid, now, Begin(cfg, st))
  {
    CleanupTargetsExact(cfg.targets);
  }

  lemma SafetySpawn(cfg: Config, s: Sys, pid: nat, st: Start)
    requires ConfigOk(cfg) && SafetyInv(cfg, s) && Enabled(cfg, s, Spawn(pid, st))
    requires OwnerInv(Apply(cfg, s, Spawn(pid, st)))
    ensures SafetyInv(cfg, Apply(cfg, s, Spawn(pid, st)))
  {
    var s' := Apply(cfg, s, Spawn(pid, st));
    BeginSafe(cfg, s.trace, pid, s.clock, st);
    BeginBases(cfg, st);
    forall q, n | q in s'.procs && n in Bases(s'.procs[q]) ensures SafeRb(cfg, s'.trace, n.key, n.rb) {
      assert q in s.procs && n in Bases(s.procs[q]);
    }
  }

  lemma SafetyTick(cfg: Config, s: Sys, ms: nat)
    requires SafetyInv(cfg, s) && OwnerInv(Apply(cfg, s, Tick(ms)))
    ensures SafetyInv(cfg, Apply(cfg, s, Tick(ms)))
  {
    var s' := Apply(cfg, s, Tick(ms));
    forall q | q in s'.procs ensures ProcSafe(cfg, s'.trace, q, s'.clock, s'.procs[q]) {
      ProcSafeTick(cfg, s.trace, q, s.clock, s'.clock, s.procs[q]);
    }
  }

  lemma SafetyQuiet(cfg: Config, s: Sys, s': Sys)
    requires SafetyInv(cfg, s) && OwnerInv(s')
    requires s'.store.rbs == s.store.rbs && s'.procs == s.procs && s'.trace == s.trace && s'.clock == s.clock
    ensures SafetyInv(cfg, s')
  {}

  lemma SafetyStep(cfg: Config, s: Sys, m: Move)
    requires ConfigOk(cfg) && SafetyInv(cfg, s) && Enabled(cfg, s, m) && !m.Tampered?
    ensures SafetyInv(cfg, Apply(cfg, s, m))
  {
    ScoperOwners.OwnerStep(cfg, s, m);
    var s' := Apply(cfg, s, m);
    match m
    case Actor(pid, o) => SafetyActor(cfg, s, pid, o);
    case Spawn(pid, st) => SafetySpawn(cfg, s, pid, st);
    case Tick(ms) => SafetyTick(cfg, s, ms);
    case Removed(key) => SafetyRemoved(cfg, s, key);
    case Tampered(_, _) =>
    case _ => SafetyQuiet(cfg, s, s');
  }

  lemma {:induction false} RunIsSafe(cfg: Config, states: seq<Sys>, moves: seq<Move>, n: nat)
    requires ConfigOk(cfg) && IsRun(cfg, states, moves) && Init(states[0]) && n < |states|
    requires forall i | 0 <= i < n :: !moves[i].Tampered?
    ensures SafetyInv(cfg, states[n])
  {
    if n > 0 {
      RunIsSafe(cfg, states, moves, n - 1);
      SafetyStep(cfg, states[n - 1], moves[n - 1]);
    }
  }

  // ---- The theorems -------------------------------------------------------------------------------------------

  // In every reachable store every binding belongs to one target, lies in a namespace that is
  // neither listed nor begins with a listed prefix, carries the managed label, admits exactly
  // that target's service account to exactly its ClusterRole, and follows its one regime.
  lemma EveryBindingIsSafe(cfg: Config, states: seq<Sys>, moves: seq<Move>, n: nat, key: Key)
    requires ConfigOk(cfg) && IsRun(cfg, states, moves) && Init(states[0]) && n < |states|
    requires forall i | 0 <= i < n :: !moves[i].Tampered?
    requires key in states[n].store.rbs
    ensures exists t | t in cfg.targets ::
              && t.rbName == key.name
              && key.ns !in cfg.deny.namespaces && (forall k | 0 <= k <= |key.ns| :: key.ns[..k] !in cfg.deny.prefixes)
              && "operator-rbac-toolkit.io/managed" in states[n].store.rbs[key].labels
              && states[n].store.rbs[key].labels["operator-rbac-toolkit.io/managed"] == "true"
              && GrantsOnly(states[n].store.rbs[key], t.clusterRole, t.sa.ns, t.sa.name)
              && Regime(t, states[n].store.rbs[key])
  {
    RunIsSafe(cfg, states, moves, n);
    var t :| GoodFor(cfg, states[n].trace, t, key, states[n].store.rbs[key]);
    PermittedIff(key.ns, cfg.deny);
    ExpectedGrants(states[n].store.rbs[key], t, t.sa);
  }

  // A binding with an owner annotation or a pending owner belongs to a target that cleanup visits.
  lemma CleanupCoversOwners(cfg: Config, states: seq<Sys>, moves: seq<Move>, n: nat, key: Key)
    requires ConfigOk(cfg) && IsRun(cfg, states, moves) && Init(states[0]) && n < |states|
    requires forall i | 0 <= i < n :: !moves[i].Tampered?
    requires key in states[n].store.rbs
    requires var anns := states[n].store.rbs[key].annotations; OWNERS_KEY in anns || PENDING_KEY in anns
    ensures exists t | t in CleanupTargets(cfg.targets) :: t.rbName == key.name
  {
    RunIsSafe(cfg, states, moves, n);
    var t :| GoodFor(cfg, states[n].trace, t, key, states[n].store.rbs[key]);
    CleanupTargetsExact(cfg.targets);
  }

  // A binding the webhook made is never ownerless: the pending owner gives way to an owner
  // reference in one write, so every reachable store shows one or the other.
  lemma HandOver(cfg: Config, states: seq<Sys>, moves: seq<Move>, n: nat, key: Key)
    requires ConfigOk(cfg) && IsRun(cfg, states, moves) && Init(states[0]) && n < |states|
    requires forall i | 0 <= i < n :: !moves[i].Tampered?
    requires key in states[n].store.rbs && Ann(states[n].store.rbs[key], CREATED_BY_KEY) == BY_WEBHOOK
    ensures PENDING_KEY in states[n].store.rbs[key].annotations || states[n].store.rbs[key].owners != []
  {
    EveryBindingIsSafe(cfg, states, moves, n, key);
  }

  // An expired pending owner was stamped more than 29 seconds ago: 30 seconds of life, less
  // what cutting the clock to whole seconds takes off.
  lemma ExpiredPending(trace: seq<Event>, pid: nat, now: nat, t: Target, item: Named)
    requires Orphaned(trace, pid, now, t, item) && PENDING_KEY in item.rb.annotations && StaticTarget(t)
    requires PendingTrue(trace, t, item.key, item.rb)
    ensures exists i, k, name :: Stamped(trace, t, item.key, item.rb, i, k, name)
              && NotFoundSeen(trace, pid, CrId(t.gvk, item.key.ns, name)) && now - trace[i].at > 29000
  {
    var i, k, name :| Stamped(trace, t, item.key, item.rb, i, k, name);
    PendingRoundTrip(item.key.ns, name, t.gvk, trace[i].at);
    assert NotFoundSeen(trace, pid, CrId(t.gvk, item.key.ns, name));
  }

  // When cleanup is about to delete, either the binding it read had a pending owner, that pass
  // has not found the CR the text names, and the webhook that created this very binding for
  // that CR read its clock more than 29 seconds ago; or the binding had owners, every one of
  // which that pass has found stale.
  lemma CleanupDeletesOrphansOnly(cfg: Config, states: seq<Sys>, moves: seq<Move>, n: nat, pid: nat)
    requires ConfigOk(cfg) && IsRun(cfg, states, moves) && Init(states[0]) && n < |states|
    requires forall i | 0 <= i < n :: !moves[i].Tampered?
    requires pid in states[n].procs && states[n].procs[pid].Clean? && states[n].procs[pid].clean.CleanDelete?
    ensures var p := states[n].procs[pid];
            && Calls(p)
            && var item := p.clean.todo[0];
               if PENDING_KEY in item.rb.annotations then
                 exists i, k, name :: Stamped(states[n].trace, p.ts[0], item.key, item.rb, i, k, name)
                   && NotFoundSeen(states[n].trace, pid, CrId(p.ts[0].gvk, item.key.ns, name))
                   && states[n].clock - states[n].trace[i].at > 29000
               else
                 Entries(item.rb) != []
                 && forall e | e in Entries(item.rb) :: JudgedStale(states[n].trace, pid, p.ts[0], item.key.ns, e)
  {
    RunIsSafe(cfg, states, moves, n);
    var s := states[n];
    var p := s.procs[pid];
    assert ProcSafe(cfg, s.trace, pid, s.clock, p);
    var t, item := p.ts[0], p.clean.todo[0];
    assert item in Bases(p) && t in p.ts;
    SafeIsGood(cfg, s.trace, t, item.key, item.rb);
    if PENDING_KEY in item.rb.annotations {
      ExpiredPending(s.trace, pid, s.clock, t, item);
    } else {
      PrunedExact(s.trace, pid, t, item.key.ns, Entries(item.rb), []);
    }
  }
}
