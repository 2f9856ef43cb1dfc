// What an actor has checked before it writes a grant, in every run of every configuration:
// with any faults, service accounts and names computed from CRs, and outsiders changing bindings.
module ScoperChecks {
  import opened Strings
  import opened ScoperTypes
  import opened ScoperActors
  import opened ScoperSystem
  import opened ScoperGrants

  // ---- What an actor has read itself ------------------------------------------------------------

  // Process pid has read the labels of ns, and they pass the selector and, where one is given,
  // the trigger.
  ghost predicate LabelsPassed(trace: seq<Event>, pid: nat, ns: string, selector: Option<LabelSelector>, trigger: Option<LabelSelector>) {
    exists i :: 0 <= i < |trace| && LabelsRead(trace[i], pid, ns, selector, trigger)
  }

  predicate LabelsRead(ev: Event, pid: nat, ns: string, selector: Option<LabelSelector>, trigger: Option<LabelSelector>) {
    && ev.Act? && ev.pid == pid && ev.call == GetNamespace(ns) && ev.reply.GotNamespace?
    && Passes(selector, ev.reply.labels) && Passes(trigger, ev.reply.labels)
  }

  // It has read the ClusterRole, which uses no aggregation.
  ghost predicate RolePlain(trace: seq<Event>, pid: nat, role: string) {
    exists i :: 0 <= i < |trace| && trace[i].Act? && trace[i].pid == pid
                && trace[i].call == GetClusterRole(role) && trace[i].reply == GotRole(false)
  }

  // It has read the CR.
  ghost predicate CrRead(trace: seq<Event>, pid: nat, id: CrId, cr: Cr) {
    exists i :: 0 <= i < |trace| && trace[i].Act? && trace[i].pid == pid
                && trace[i].call == GetCr(id) && trace[i].reply == GotCr(cr)
  }

  ghost predicate SelectorPassed(trace: seq<Event>, pid: nat, t: Target, ns: string) {
    t.selector.Some? ==> LabelsPassed(trace, pid, ns, t.selector, None)
  }

  // ---- The invariant ----------------------------------------------------------------------------------

  ghost predicate RecChecked(trace: seq<Event>, pid: nat, t: Target, deny: DenyList, id: CrId, at: RecPc) {
    at.FetchCr? || (
      && CrRead(trace, pid, id, at.cr) && AsksFor(t, at.cr, at.ns) && Permitted(at.ns, deny)
      && (at.FetchNs? || SelectorPassed(trace, pid, t, at.ns))
      && (at.FetchNs? || at.FetchRole? || RolePlain(trace, pid, t.clusterRole))
      && (HasSa(at) ==> ActsFor(t, at.cr, at.sa)))
  }

  predicate HasSa(at: RecPc) {
    at.Lookup? || at.CreateNew? || at.Refetch? || at.DeleteOld? || at.Recreate? || at.SubjectsGet? || at.SubjectsPut?
  }

  predicate Withdraws(at: LabPc) { at.LabNs? || at.LabOrphanGet? || at.LabOrphanDelete? }

  ghost predicate LabChecked(trace: seq<Event>, pid: nat, t: Target, deny: DenyList, ns: string, at: LabPc) {
    Withdraws(at) || (
      && Permitted(ns, deny) && t.trigger.Some? && LabelsPassed(trace, pid, ns, t.selector, t.trigger)
      && (at.LabRole? || RolePlain(trace, pid, t.clusterRole)))
  }

  ghost predicate HookChecked(trace: seq<Event>, pid: nat, t: Target, deny: DenyList, ns: string, at: HookPc) {
    && Permitted(ns, deny) && (at.HookNs? || SelectorPassed(trace, pid, t, ns))
    && (at.HookCreate? ==> RolePlain(trace, pid, t.clusterRole))
  }

  ghost predicate Checked(cfg: Config, trace: seq<Event>, pid: nat, p: Proc) {
    match p
    case Rec(t, deny, id, at) => t in cfg.targets && deny == cfg.deny && RecChecked(trace, pid, t, cfg.deny, id, at)
    case Lab(t, deny, ns, at) => t in cfg.targets && deny == cfg.deny && LabChecked(trace, pid, t, cfg.deny, ns, at)
    case Hook(t, ns, _, _, at) => t in cfg.targets && HookChecked(trace, pid, t, cfg.deny, ns, at)
    case _ => true
  }

  ghost predicate ChecksInv(cfg: Config, s: Sys) {
    && (forall pid | pid in s.procs :: Checked(cfg, s.trace, pid, s.procs[pid]))
    && (forall k | k in s.store.rbs :: Permitted(k.ns, cfg.deny))
  }

  // What was read stays read.
  lemma ReadsStay(trace: seq<Event>, ev: Event, pid: nat, t: Target, ns: string, id: CrId, cr: Cr)
    ensures var trace' := trace + [ev];
      && (LabelsPassed(trace, pid, ns, t.selector, t.trigger) ==> LabelsPassed(trace', pid, ns, t.selector, t.trigger))
      && (SelectorPassed(trace, pid, t, ns) ==> SelectorPassed(trace', pid, t, ns))
      && (RolePlain(trace, pid, t.clusterRole) ==> RolePlain(trace', pid, t.clusterRole))
      && (CrRead(trace, pid, id, cr) ==> CrRead(trace', pid, id, cr))
  {
    var trace' := trace + [ev];
    assert forall i | 0 <= i < |trace| :: trace'[i] == trace[i];
  }

  // And what the event tells is read.
  lemma ReadsNow(trace: seq<Event>, ev: Event, t: Target, ns: string, id: CrId)
    requires ev.Act?
    ensures var trace' := trace + [ev];
      && (LabelsRead(ev, ev.pid, ns, t.selector, t.trigger) ==> LabelsPassed(trace', ev.pid, ns, t.selector, t.trigger))
      && (LabelsRead(ev, ev.pid, ns, t.selector, None) ==> LabelsPassed(trace', ev.pid, ns, t.selector, None))
      && (ev.call == GetClusterRole(t.clusterRole) && ev.reply == GotRole(false) ==> RolePlain(trace', ev.pid, t.clusterRole))
      && (ev.reply.GotCr? && ev.call == GetCr(id) ==> CrRead(trace', ev.pid, id, ev.reply.cr))
  {
    var trace' := trace + [ev];
    assert trace'[|trace|] == ev;
  }

  lemma CheckedLater(cfg: Config, trace: seq<Event>, ev: Event, pid: nat, p: Proc)
    requires Checked(cfg, trace, pid, p)
    ensures Checked(cfg, trace + [ev], pid, p)
  {
    match p
    case Rec(t, _, id, at) => if !at.FetchCr? { ReadsStay(trace, ev, pid, t, at.ns, id, at.cr); }
    case Lab(t, _, ns, _) => LabelsStay(trace, ev, pid, t, ns);
    case Hook(t, ns, _, _, _) => LabelsStay(trace, ev, pid, t, ns);
    case _ =>
  }

  lemma LabelsStay(trace: seq<Event>, ev: Event, pid: nat, t: Target, ns: string)
    ensures var trace' := trace + [ev];
      && (LabelsPassed(trace, pid, ns, t.selector, t.trigger) ==> LabelsPassed(trace', pid, ns, t.selector, t.trigger))
      && (SelectorPassed(trace, pid, t, ns) ==> SelectorPassed(trace', pid, t, ns))
      && (RolePlain(trace, pid, t.clusterRole) ==> RolePlain(trace', pid, t.clusterRole))
  {
    assert forall i | 0 <= i < |trace| :: (trace + [ev])[i] == trace[i];
  }

  // ---- One step of each actor -----------------------------------------------------------------------

  // The CR just read leads on only if it asks for an open namespace.
  lemma FetchChecked(trace: seq<Event>, pid: nat, t: Target, deny: DenyList, id: CrId, r: Reply)
    requires r.GotCr? ==> CrRead(trace, pid, id, r.cr)
    ensures var q := ResumeRec(t, deny, id, FetchCr, r);
            q.Rec? ==> q.t == t && q.deny == deny && q.id == id && RecChecked(trace, pid, t, deny, id, q.rec)
  {
    if r.GotCr? && TargetNs(t, r.cr).Some? {
      AsksForIff(t, r.cr, TargetNs(t, r.cr).value);
      PermittedIff(TargetNs(t, r.cr).value, deny);
    }
  }

  // Once it has its account, a reconcile keeps the CR, the namespace and the account.
  lemma WriteStepKeeps(t: Target, deny: DenyList, id: CrId, at: RecPc, r: Reply)
    requires !at.FetchCr? && !at.FetchNs? && !at.FetchRole?
    ensures var q := ResumeRec(t, deny, id, at, r);
            q.Rec? ==> && q.t == t && q.deny == deny && q.id == id
                       && !q.rec.FetchCr? && !q.rec.FetchNs? && !q.rec.FetchRole?
                       && q.rec.cr == at.cr && q.rec.ns == at.ns && (HasSa(q.rec) ==> HasSa(at) && q.rec.sa == at.sa)
  {}

  // Later steps carry over what was checked and add the labels, the ClusterRole and the account.
  lemma RecStepChecked(trace: seq<Event>, pid: nat, t: Target, deny: DenyList, id: CrId, at: RecPc, r: Reply)
    requires !at.FetchCr? && RecChecked(trace, pid, t, deny, id, at)
    requires at.FetchNs? && r.GotNamespace? && Passes(t.selector, r.labels) ==> SelectorPassed(trace, pid, t, at.ns)
    requires at.FetchRole? && r == GotRole(false) ==> RolePlain(trace, pid, t.clusterRole)
    ensures var q := ResumeRec(t, deny, id, at, r);
            q.Rec? ==> q.t == t && q.deny == deny && q.id == id && RecChecked(trace, pid, t, deny, id, q.rec)
  {
    if at.FetchRole? {
      if ResolveSa(t, at.cr).Some? {
        ActsForIff(t, at.cr, ResolveSa(t, at.cr).value);
      }
    } else if !at.FetchNs? {
      WriteStepKeeps(t, deny, id, at, r);
    }
  }

  lemma LabStepChecked(trace: seq<Event>, pid: nat, t: Target, deny: DenyList, ns: string, at: LabPc, r: Reply)
    requires LabChecked(trace, pid, t, deny, ns, at)
    requires at.LabNs? && r.GotNamespace? && Passes(t.selector, r.labels) && Passes(t.trigger, r.labels)
             ==> LabelsPassed(trace, pid, ns, t.selector, t.trigger)
    requires at.LabRole? && r == GotRole(false) ==> RolePlain(trace, pid, t.clusterRole)
    ensures var q := ResumeLab(t, deny, ns, at, r);
            q.Lab? ==> q.t == t && q.deny == deny && q.ns == ns && LabChecked(trace, pid, t, deny, ns, q.lab)
  {
    PermittedIff(ns, deny);
  }

  lemma HookStepChecked(trace: seq<Event>, pid: nat, t: Target, deny: DenyList, ns: string, name: string, dryRun: bool,
                        at: HookPc, r: Reply, now: nat)
    requires HookChecked(trace, pid, t, deny, ns, at)
    requires at.HookNs? && r.GotNamespace? && Passes(t.selector, r.labels) ==> SelectorPassed(trace, pid, t, ns)
    requires at.HookRole? && r == GotRole(false) ==> RolePlain(trace, pid, t.clusterRole)
    ensures var q := ResumeHook(t, ns, name, dryRun, at, r, now);
            q.Hook? ==> q.t == t && q.ns == ns && HookChecked(trace, pid, t, deny, ns, q.hook)
  {}

  lemma ActorChecked(cfg: Config, trace: seq<Event>, pid: nat, p: Proc, r: Reply, now: nat, v: nat)
    requires Calls(p) && Checked(cfg, trace, pid, p) && Answers(Next(p), r)
    ensures Checked(cfg, trace + [Act(pid, Next(p), r, now, v)], pid, Resume(p, r, now))
  {
    var ev := Act(pid, Next(p), r, now, v);
    var trace' := trace + [ev];
    CheckedLater(cfg, trace, ev, pid, p);
    match p
    case Rec(t, deny, id, at) =>
      ReadsNow(trace, ev, t, if at.FetchCr? then "" else at.ns, id);
      if at.FetchCr? {
        FetchChecked(trace', pid, t, deny, id, r);
      } else {
        RecStepChecked(trace', pid, t, deny, id, at, r);
      }
    case Lab(t, deny, ns, at) =>
      ReadsNow(trace, ev, t, ns, CrId(t.gvk, "", ""));
      LabStepChecked(trace', pid, t, deny, ns, at, r);
    case Hook(t, ns, name, dryRun, at) =>
      ReadsNow(trace, ev, t, ns, CrId(t.gvk, "", ""));
      HookStepChecked(trace', pid, t, cfg.deny, ns, name, dryRun, at, r, now);
    case Clean(_, _, _) =>
  }

  // ---- The whole system --------------------------------------------------------------------------------

  lemma BeginChecked(cfg: Config, trace: seq<Event>, pid: nat, st: Start)
    requires StartOk(cfg, st)
    ensures Checked(cfg, trace, pid, Begin(cfg, st))
  {
    if st.StartHook? {
      PermittedIff(st.ns, cfg.deny);
    }
  }

  // A creation is asked for only in an open namespace.
  lemma CreatesOutside(cfg: Config, trace: seq<Event>, pid: nat, p: Proc)
    requires Calls(p) && Checked(cfg, trace, pid, p) && Next(p).CreateRb?
    ensures Permitted(Next(p).key.ns, cfg.deny)
  {}

  lemma OnlyCreationsAdd(s: Store, c: Call, o: Oracle, k: Key)
    requires k in Exec(s, c, o).0.rbs && k !in s.rbs
    ensures c.CreateRb? && c.key == k
  {}

  lemma ChecksActor(cfg: Config, s: Sys, pid: nat, o: Oracle)
    requires ChecksInv(cfg, s) && Enabled(cfg, s, Actor(pid, o))
    ensures ChecksInv(cfg, Apply(cfg, s, Actor(pid, o)))
  {
    var p := s.procs[pid];
    var (store', r) := Exec(s.store, Next(p), o);
    var s' := Apply(cfg, s, Actor(pid, o));
    var ev := Act(pid, Next(p), r, s.clock, s.store.version);
    ExecAnswers(s.store, Next(p), o);
    forall q | q in s'.procs ensures Checked(cfg, s'.trace, q, s'.procs[q]) {
      if q == pid {
        ActorChecked(cfg, s.trace, pid, p, r, s.clock, s.store.version);
      } else {
        CheckedLater(cfg, s.trace, ev, q, s.procs[q]);
      }
    }
    forall k | k in store'.rbs ensures Permitted(k.ns, cfg.deny) {
      if k !in s.store.rbs {
        OnlyCreationsAdd(s.store, Next(p), o, k);
        CreatesOutside(cfg, s.trace, pid, p);
      }
    }
  }

  lemma ChecksStep(cfg: Config, s: Sys, m: Move)
    requires ChecksInv(cfg, s) && Enabled(cfg, s, m)
    ensures ChecksInv(cfg, Apply(cfg, s, m))
  {
    var s' := Apply(cfg, s, m);
    match m
    case Actor(pid, o) => ChecksActor(cfg, s, pid, o);
    case Spawn(pid, st) => BeginChecked(cfg, s.trace, pid, st);
    case Removed(key) => ChecksOutside(cfg, s, s', key);
    case Tampered(key, _) => ChecksOutside(cfg, s, s', key);
    case _ =>
  }

  lemma ChecksOutside(cfg: Config, s: Sys, s': Sys, key: Key)
    requires ChecksInv(cfg, s) && s'.procs == s.procs && s'.trace == s.trace + [Outside(key)]
    requires forall k | k in s'.store.rbs :: k in s.store.rbs
    ensures ChecksInv(cfg, s')
  {
    forall q | q in s'.procs ensures Checked(cfg, s'.trace, q, s'.procs[q]) {
      CheckedLater(cfg, s.trace, Outside(key), q, s.procs[q]);
    }
  }

  lemma {:induction false} RunKeepsChecks(cfg: Config, states: seq<Sys>, moves: seq<Move>, n: nat)
    requires IsRun(cfg, states, moves) && Init(states[0]) && n < |states|
    ensures ChecksInv(cfg, states[n])
  {
    if n > 0 {
      RunKeepsChecks(cfg, states, moves, n - 1);
      ChecksStep(cfg, states[n - 1], moves[n - 1]);
    }
  }

  // ---- The theorems ----------------------------------------------------------------------------------------

  // No store of any run ever holds a binding in a namespace that is listed or begins with a
  // listed prefix.
  lemma NothingWhereDenied(cfg: Config, states: seq<Sys>, moves: seq<Move>, n: nat, key: Key)
    requires IsRun(cfg, states, moves) && Init(states[0]) && n < |states|
    requires key.ns in cfg.deny.namespaces || exists k | 0 <= k <= |key.ns| :: key.ns[..k] in cfg.deny.prefixes
    ensures key !in states[n].store.rbs
  {
    RunKeepsChecks(cfg, states, moves, n);
  }

  // What actor p, about to write a grant of role to sa at key, has found in its own reads: the
  // namespace is open and its labels passed, the ClusterRole is plain, and the grant is that of
  // its own target for the account that the target or the CR names.
  ghost predicate Entitled(cfg: Config, trace: seq<Event>, pid: nat, p: Proc, key: Key, t: Target, sa: Sa) {
    && t in cfg.targets && Permitted(key.ns, cfg.deny) && RolePlain(trace, pid, t.clusterRole)
    && match p
       case Rec(own, _, id, _) =>
         && t == own && SelectorPassed(trace, pid, t, key.ns)
         && exists cr :: CrRead(trace, pid, id, cr) && AsksFor(t, cr, key.ns) && ActsFor(t, cr, sa)
       case Lab(own, _, ns, _) =>
         && t == own && key == Key(ns, t.rbName) && sa == t.sa
         && t.trigger.Some? && LabelsPassed(trace, pid, key.ns, t.selector, t.trigger)
       case Hook(own, ns, _, _, _) =>
         t == own && key == Key(ns, t.rbName) && sa == t.sa && SelectorPassed(trace, pid, t, key.ns)
       case _ => false
  }

  // Every creation by any actor grants what the actor is entitled to grant, whatever else happens.
  lemma EveryCreationChecked(cfg: Config, states: seq<Sys>, moves: seq<Move>, n: nat)
    requires IsRun(cfg, states, moves) && Init(states[0]) && n < |moves| && moves[n].Actor?
    requires Next(states[n].procs[moves[n].pid]).CreateRb?
    ensures var (pid, p) := (moves[n].pid, states[n].procs[moves[n].pid]);
            exists t, sa: Sa :: Entitled(cfg, states[n].trace, pid, p, Next(p).key, t, sa)
                                && GrantsOnly(Next(p).rb, t.clusterRole, sa.ns, sa.name)
  {
    RunKeepsChecks(cfg, states, moves, n);
    CreationChecked(cfg, states[n].trace, moves[n].pid, states[n].procs[moves[n].pid]);
  }

  lemma CreationChecked(cfg: Config, trace: seq<Event>, pid: nat, p: Proc)
    requires Calls(p) && Checked(cfg, trace, pid, p) && Next(p).CreateRb?
    ensures exists t, sa: Sa :: Entitled(cfg, trace, pid, p, Next(p).key, t, sa)
                                && GrantsOnly(Next(p).rb, t.clusterRole, sa.ns, sa.name)
  {
    var sa := if p.Rec? then p.rec.sa else p.t.sa;
    ExpectedGrants(Next(p).rb, p.t, sa);
    if p.Rec? {
      assert CrRead(trace, pid, p.id, p.rec.cr) && AsksFor(p.t, p.rec.cr, Next(p).key.ns) && ActsFor(p.t, p.rec.cr, sa);
    }
    assert Entitled(cfg, trace, pid, p, Next(p).key, p.t, sa);
  }

  // The update that repairs the subjects of a binding.
  predicate Repairs(p: Proc) {
    (p.Rec? && p.rec.SubjectsPut?) || (p.Lab? && p.lab.LabSubjectsPut?)
  }

  // Every repair of subjects, too, admits exactly an account the actor is entitled to admit.
  lemma EveryRepairChecked(cfg: Config, states: seq<Sys>, moves: seq<Move>, n: nat)
    requires IsRun(cfg, states, moves) && Init(states[0]) && n < |moves| && moves[n].Actor?
    requires Repairs(states[n].procs[moves[n].pid])
    ensures var (pid, p) := (moves[n].pid, states[n].procs[moves[n].pid]);
            && Next(p).UpdateRb?
            && exists t, sa: Sa :: Entitled(cfg, states[n].trace, pid, p, Next(p).key, t, sa)
                                   && AdmitsOnly(Next(p).rb, sa.ns, sa.name)
  {
    RunKeepsChecks(cfg, states, moves, n);
    RepairChecked(cfg, states[n].trace, moves[n].pid, states[n].procs[moves[n].pid]);
  }

  lemma RepairChecked(cfg: Config, trace: seq<Event>, pid: nat, p: Proc)
    requires Checked(cfg, trace, pid, p) && Repairs(p)
    ensures Next(p).UpdateRb?
    ensures exists t, sa: Sa :: Entitled(cfg, trace, pid, p, Next(p).key, t, sa)
                                && AdmitsOnly(Next(p).rb, sa.ns, sa.name)
  {
    var sa := if p.Rec? then p.rec.sa else p.t.sa;
    SubjectsAdmit(Next(p).rb, sa);
    if p.Rec? {
      assert CrRead(trace, pid, p.id, p.rec.cr) && AsksFor(p.t, p.rec.cr, Next(p).key.ns) && ActsFor(p.t, p.rec.cr, sa);
    }
    assert Entitled(cfg, trace, pid, p, Next(p).key, p.t, sa);
  }
}
