// No lost owner: in every interleaving the owner annotation of one incarnation of a binding
// only ever gains one new owner or loses owners a cleanup pass found stale.
module ScoperOwners {
  import opened Strings
  import opened Ownership
  import opened ScoperTypes
  import opened ScoperActors
  import opened ScoperSystem
  import opened ScoperGrants

  // ---- What cleanup has found out -------------------------------------------------------------

  // Actor pid looked up the CR of e: it was not there, or another one was there in its place, or
  // it no longer asked for ns. A lookup that failed says nothing.
  ghost predicate JudgedStale(trace: seq<Event>, pid: nat, t: Target, ns: string, e: OwnerEntry) {
    exists i :: 0 <= i < |trace| && FoundStale(trace[i], pid, t, ns, e)
  }

  ghost predicate FoundStale(ev: Event, pid: nat, t: Target, ns: string, e: OwnerEntry) {
    && ev.Act? && ev.pid == pid
    && ev.call == GetCr(CrId(t.gvk, e.ns, e.name))
    && (|| ev.reply == Err(NotFound)
        || (ev.reply.GotCr? && ev.reply.cr.uid != e.uid)
        || (ev.reply.GotCr? && t.nsField.Some? && !ValueAt(ev.reply.cr, t.nsField.value, ns)))
  }

  lemma StaleIff(t: Target, e: OwnerEntry, ns: string, r: Reply)
    ensures !OwnerValid(t, e, ns, r) <==>
              || r == Err(NotFound) || (r.GotCr? && r.cr.uid != e.uid)
              || (r.GotCr? && t.nsField.Some? && !ValueAt(r.cr, t.nsField.value, ns))
  {
    if r.GotCr? && t.nsField.Some? {
      FieldIff(r.cr, t.nsField.value, ns);
    }
  }

  // kept is done, in order, without entries judged stale.
  ghost predicate Pruned(trace: seq<Event>, pid: nat, t: Target, ns: string, done: seq<OwnerEntry>, kept: seq<OwnerEntry>) {
    if done == [] then kept == []
    else
      var last := done[|done| - 1];
      var rest := done[..|done| - 1];
      || (kept != [] && kept[|kept| - 1] == last && Pruned(trace, pid, t, ns, rest, kept[..|kept| - 1]))
      || (JudgedStale(trace, pid, t, ns, last) && Pruned(trace, pid, t, ns, rest, kept))
  }

  lemma {:induction false} PrunedLater(trace: seq<Event>, ev: Event, pid: nat, t: Target, ns: string,
                                       done: seq<OwnerEntry>, kept: seq<OwnerEntry>)
    requires Pruned(trace, pid, t, ns, done, kept)
    ensures Pruned(trace + [ev], pid, t, ns, done, kept)
    decreases |done|
  {
    if done != [] {
      var last := done[|done| - 1];
      var rest := done[..|done| - 1];
      if kept != [] && kept[|kept| - 1] == last && Pruned(trace, pid, t, ns, rest, kept[..|kept| - 1]) {
        PrunedLater(trace, ev, pid, t, ns, rest, kept[..|kept| - 1]);
      } else {
        JudgedLater(trace, ev, pid, t, ns, last);
        PrunedLater(trace, ev, pid, t, ns, rest, kept);
      }
    }
  }

  lemma JudgedLater(trace: seq<Event>, ev: Event, pid: nat, t: Target, ns: string, e: OwnerEntry)
    requires JudgedStale(trace, pid, t, ns, e)
    ensures JudgedStale(trace + [ev], pid, t, ns, e)
  {
    var i :| 0 <= i < |trace| && FoundStale(trace[i], pid, t, ns, e);
    assert (trace + [ev])[i] == trace[i];
  }

  lemma {:induction false} PrunedExact(trace: seq<Event>, pid: nat, t: Target, ns: string,
                                       done: seq<OwnerEntry>, kept: seq<OwnerEntry>)
    requires Pruned(trace, pid, t, ns, done, kept)
    ensures forall e :: e in kept ==> e in done
    ensures forall e :: e in done && e !in kept ==> JudgedStale(trace, pid, t, ns, e)
    ensures UidsDistinct(done) ==> UidsDistinct(kept)
    ensures |kept| <= |done|
    decreases |done|
  {
    if done != [] {
      var last := done[|done| - 1];
      var rest := done[..|done| - 1];
      assert done == rest + [last];
      if kept != [] && kept[|kept| - 1] == last && Pruned(trace, pid, t, ns, rest, kept[..|kept| - 1]) {
        var shorter := kept[..|kept| - 1];
        assert kept == shorter + [last];
        PrunedExact(trace, pid, t, ns, rest, shorter);
        if UidsDistinct(done) {
          forall i, j | 0 <= i < j < |kept| ensures kept[i].uid != kept[j].uid {
            if j == |shorter| {
              assert kept[i] in rest;
              var x :| 0 <= x < |rest| && rest[x] == kept[i];
              assert done[x].uid != done[|rest|].uid;
            }
          }
        }
      } else {
        PrunedExact(trace, pid, t, ns, rest, kept);
      }
    }
  }

  // ---- The invariant -----------------------------------------------------------------------------

  predicate CrGood(born: map<string, CrId>, cr: Cr) {
    cr.uid in born && born[cr.uid] == cr.id && Carried(EntryOf(cr))
  }

  // Entries have distinct UIDs, and each names the namespace and name its UID was born with.
  ghost predicate EntriesGood(born: map<string, CrId>, es: seq<OwnerEntry>) {
    && UidsDistinct(es)
    && forall e :: e in es ==> e.uid in born && born[e.uid].ns == e.ns && born[e.uid].name == e.name
  }

  ghost predicate RbGood(born: map<string, CrId>, rb: RoleBinding) {
    EntriesGood(born, Entries(rb))
  }

  // The CR a reconcile works for, once fetched.
  function Held(p: Proc): Option<Cr> {
    if p.Rec? && !p.rec.FetchCr? then Some(p.rec.cr) else None
  }

  // Where a cleanup pass stands in the list of owners of the binding it visits.
  ghost predicate CleanGood(trace: seq<Event>, pid: nat, p: Proc) {
    p.Clean? && Calls(p) ==>
      match p.clean
      case CleanOwner(left, valid, todo) =>
        var es := Entries(todo[0].rb);
        && |left| <= |es| && es[|es| - |left|..] == left
        && Pruned(trace, pid, p.ts[0], todo[0].key.ns, es[..|es| - |left|], valid)
      case CleanUpdate(valid, todo) =>
        && Pruned(trace, pid, p.ts[0], todo[0].key.ns, Entries(todo[0].rb), valid)
        && valid != [] && |valid| < |Entries(todo[0].rb)|
      case _ => true
  }

  // The EntryPut state is entered only when the entry is new.
  ghost predicate PutPending(p: Proc) {
    p.Rec? && p.rec.EntryPut? ==>
      && !Delimited(EntryOf(p.rec.cr)) && p.rec.cr.uid !in Uids(Entries(p.rec.base))
  }

  ghost predicate OwnerInv(s: Sys) {
    && VersionInv(s)
    && (forall id | id in s.store.crs :: s.store.crs[id].id == id && CrGood(s.born, s.store.crs[id]))
    && (forall k | k in s.store.rbs :: RbGood(s.born, s.store.rbs[k]))
    && (forall pid, n | pid in s.procs && n in Bases(s.procs[pid]) :: RbGood(s.born, n.rb))
    && (forall pid | pid in s.procs && Held(s.procs[pid]).Some? :: CrGood(s.born, Held(s.procs[pid]).value))
    && (forall pid | pid in s.procs :: CleanGood(s.trace, pid, s.procs[pid]) && PutPending(s.procs[pid]))
  }

  // ---- What one write does to an annotation --------------------------------------------------------

  lemma AppendOwner(born: map<string, CrId>, rb: RoleBinding, cr: Cr)
    requires RbGood(born, rb) && CrGood(born, cr)
    ensures Entries(WithEntries(rb, Add(Entries(rb), EntryOf(cr)))) == Add(Entries(rb), EntryOf(cr))
    ensures RbGood(born, WithEntries(rb, Add(Entries(rb), EntryOf(cr))))
  {
    var es := Entries(rb);
    ParsedAreCarried(Ann(rb, OWNERS_KEY));
    AddLaws(es, EntryOf(cr));
    FormatThenParse(Add(es, EntryOf(cr)));
  }

  lemma PruneOwners(born: map<string, CrId>, trace: seq<Event>, pid: nat, t: Target, ns: string,
                    rb: RoleBinding, valid: seq<OwnerEntry>)
    requires RbGood(born, rb) && Pruned(trace, pid, t, ns, Entries(rb), valid)
    ensures Entries(WithEntries(rb, valid)) == valid && RbGood(born, WithEntries(rb, valid))
  {
    ParsedAreCarried(Ann(rb, OWNERS_KEY));
    PrunedExact(trace, pid, t, ns, Entries(rb), valid);
    FormatThenParse(valid);
  }

  lemma NewOwner(born: map<string, CrId>, t: Target, cr: Cr, ns: string, sa: Sa)
    requires CrGood(born, cr)
    ensures RbGood(born, CreatedRb(t, cr, ns, sa))
  {
    FormatThenParse([EntryOf(cr)]);
  }

  lemma SameAnnotation(born: map<string, CrId>, rb: RoleBinding, rb': RoleBinding)
    requires RbGood(born, rb) && Ann(rb', OWNERS_KEY) == Ann(rb, OWNERS_KEY)
    ensures RbGood(born, rb')
  {}

  lemma SentByRec(born: map<string, CrId>, t: Target, deny: DenyList, id: CrId, at: RecPc)
    requires !at.FetchCr? && CrGood(born, at.cr)
    requires forall n | n in Bases(Rec(t, deny, id, at)) :: RbGood(born, n.rb)
    requires Next(Rec(t, deny, id, at)).CreateRb? || Next(Rec(t, deny, id, at)).UpdateRb?
    ensures RbGood(born, Next(Rec(t, deny, id, at)).rb)
  {
    var p := Rec(t, deny, id, at);
    if at.CreateNew? {
      NewOwner(born, t, at.cr, at.ns, at.sa);
    } else {
      var rb := Bases(p)[0].rb;
      assert RbGood(born, rb);
      if at.EntryPut? {
        AppendOwner(born, rb, at.cr);
      } else {
        assert Ann(Next(p).rb, OWNERS_KEY) == Ann(rb, OWNERS_KEY);
        SameAnnotation(born, rb, Next(p).rb);
      }
    }
  }

  lemma SentIsGood(s: Sys, pid: nat)
    requires OwnerInv(s) && pid in s.procs && Calls(s.procs[pid])
    requires Next(s.procs[pid]).CreateRb? || Next(s.procs[pid]).UpdateRb?
    ensures RbGood(s.born, Next(s.procs[pid]).rb)
  {
    var p := s.procs[pid];
    match p
    case Rec(t, deny, id, at) =>
      assert Held(p).Some?;
      SentByRec(s.born, t, deny, id, at);
    case Lab(t, _, ns, at) =>
      if at.LabSubjectsPut? {
        assert RbGood(s.born, Bases(p)[0].rb);
        SameAnnotation(s.born, at.base, Next(p).rb);
      } else {
        assert Ann(Next(p).rb, OWNERS_KEY) == "" && Entries(Next(p).rb) == [];
      }
    case Clean(ts, _, at) =>
      assert at.todo[0] in Bases(p);
      assert CleanGood(s.trace, pid, p);
      PruneOwners(s.born, s.trace, pid, ts[0], at.todo[0].key.ns, at.todo[0].rb, at.valid);
    case Hook(_, _, _, _, _) =>
      assert Ann(Next(p).rb, OWNERS_KEY) == "" && Entries(Next(p).rb) == [];
  }

  // ---- The invariant is inductive ---------------------------------------------------------------------

  lemma VisitClean(trace: seq<Event>, pid: nat, ts: seq<Target>, count: nat, todo: seq<Named>, now: nat)
    requires ts != []
    ensures CleanGood(trace, pid, Visit(ts, count, todo, now))
    decreases |todo|
  {
    if todo != [] {
      VisitClean(trace, pid, ts, count, todo[1..], now);
      var es := Entries(todo[0].rb);
      assert es[|es| - |es|..] == es && es[..|es| - |es|] == [];
    }
  }

  // One more owner looked up.
  lemma OneOwnerJudged(trace: seq<Event>, ev: Event, pid: nat, t: Target, ns: string,
                       es: seq<OwnerEntry>, i: nat, valid: seq<OwnerEntry>)
    requires i < |es| && Pruned(trace, pid, t, ns, es[..i], valid)
    requires ev.Act? && ev.pid == pid && ev.call == GetCr(CrId(t.gvk, es[i].ns, es[i].name))
    ensures Pruned(trace + [ev], pid, t, ns, es[..i + 1],
                   if OwnerValid(t, es[i], ns, ev.reply) then valid + [es[i]] else valid)
  {
    PrunedLater(trace, ev, pid, t, ns, es[..i], valid);
    assert es[..i + 1][..i] == es[..i];
    StaleIff(t, es[i], ns, ev.reply);
    if OwnerValid(t, es[i], ns, ev.reply) {
      assert (valid + [es[i]])[..|valid|] == valid;
    } else {
      assert (trace + [ev])[|trace|] == ev && FoundStale(ev, pid, t, ns, es[i]);
    }
  }

  // What the lookups of a binding's owners lead to, the last one included.
  lemma OwnersJudged(trace: seq<Event>, pid: nat, ts: seq<Target>, count: nat, left: seq<OwnerEntry>,
                     valid: seq<OwnerEntry>, todo: seq<Named>, now: nat)
    requires ts != [] && todo != [] && |left| <= |Entries(todo[0].rb)|
    requires Entries(todo[0].rb)[|Entries(todo[0].rb)| - |left|..] == left
    requires Pruned(trace, pid, ts[0], todo[0].key.ns, Entries(todo[0].rb)[..|Entries(todo[0].rb)| - |left|], valid)
    ensures CleanGood(trace, pid, OwnersLeft(ts, count, left, valid, todo, now))
  {
    if left == [] {
      var es := Entries(todo[0].rb);
      assert es[..|es|] == es;
      PrunedExact(trace, pid, ts[0], todo[0].key.ns, es, valid);
      VisitClean(trace, pid, ts, count, todo[1..], now);
    }
  }

  lemma CleanOwnerActor(trace: seq<Event>, ev: Event, pid: nat, ts: seq<Target>, count: nat, at: CleanPc)
    requires at.CleanOwner? && Calls(Clean(ts, count, at)) && CleanGood(trace, pid, Clean(ts, count, at))
    requires ev.Act? && ev.pid == pid && ev.call == Next(Clean(ts, count, at))
    ensures CleanGood(trace + [ev], pid, ResumeClean(ts, count, at, ev.reply, ev.at))
  {
    var left, valid, todo := at.left, at.valid, at.todo;
    var es, ns := Entries(todo[0].rb), todo[0].key.ns;
    var i := |es| - |left|;
    assert es[i] == left[0];
    OneOwnerJudged(trace, ev, pid, ts[0], ns, es, i, valid);
    var valid' := if OwnerValid(ts[0], left[0], ns, ev.reply) then valid + [left[0]] else valid;
    assert es[i + 1..] == left[1..];
    OwnersJudged(trace + [ev], pid, ts, count, left[1..], valid', todo, ev.at);
  }

  lemma CleanActor(trace: seq<Event>, pid: nat, ts: seq<Target>, count: nat, at: CleanPc, r: Reply, now: nat, v: nat)
    requires Calls(Clean(ts, count, at)) && CleanGood(trace, pid, Clean(ts, count, at))
    ensures CleanGood(trace + [Act(pid, Next(Clean(ts, count, at)), r, now, v)], pid, ResumeClean(ts, count, at, r, now))
  {
    var ev := Act(pid, Next(Clean(ts, count, at)), r, now, v);
    var trace' := trace + [ev];
    match at
    case CleanList =>
      if r.GotList? {
        VisitClean(trace', pid, ts, count, OfName(r.items, ts[0].rbName), now);
      }
    case CleanOwner(_, _, _) => CleanOwnerActor(trace, ev, pid, ts, count, at);
    case _ =>
      VisitClean(trace', pid, ts, count, at.todo[1..], now);
      VisitClean(trace', pid, ts, count + 1, at.todo[1..], now);
  }

  lemma CleanGoodLater(trace: seq<Event>, ev: Event, pid: nat, p: Proc)
    requires CleanGood(trace, pid, p)
    ensures CleanGood(trace + [ev], pid, p)
  {
    if p.Clean? && Calls(p) {
      match p.clean {
        case CleanOwner(left, valid, todo) =>
          var es := Entries(todo[0].rb);
          PrunedLater(trace, ev, pid, p.ts[0], todo[0].key.ns, es[..|es| - |left|], valid);
        case CleanUpdate(valid, todo) =>
          PrunedLater(trace, ev, pid, p.ts[0], todo[0].key.ns, Entries(todo[0].rb), valid);
        case _ =>
      }
    }
  }

  lemma HeldStep(p: Proc, r: Reply, now: nat)
    requires Calls(p) && Answers(Next(p), r)
    ensures Held(Resume(p, r, now)).Some? ==>
              Held(Resume(p, r, now)) == Held(p) || (r.GotCr? && Held(Resume(p, r, now)) == Some(r.cr))
  {
    match p
    case Rec(t, deny, id, at) =>
    case _ =>
  }

  lemma ExecRbs(s: Store, c: Call, o: Oracle, k: Key)
    ensures var (s', r) := Exec(s, c, o);
            k in s'.rbs ==>
              || (k in s.rbs && s'.rbs[k] == s.rbs[k])
              || ((c.CreateRb? || c.UpdateRb?) && c.key == k && r.Ok? && Entries(s'.rbs[k]) == Entries(c.rb))
              || (c.PatchOwners? && c.key == k && r.Ok? && k in s.rbs && s'.rbs[k].annotations == s.rbs[k].annotations)
  {}

  lemma OwnerActorStore(cfg: Config, s: Sys, pid: nat, o: Oracle)
    requires OwnerInv(s) && Enabled(cfg, s, Actor(pid, o))
    ensures var store' := Exec(s.store, Next(s.procs[pid]), o).0;
            forall k | k in store'.rbs :: RbGood(s.born, store'.rbs[k])
  {
    var c := Next(s.procs[pid]);
    var store' := Exec(s.store, c, o).0;
    forall k | k in store'.rbs ensures RbGood(s.born, store'.rbs[k]) {
      ExecRbs(s.store, c, o, k);
      if c.CreateRb? || c.UpdateRb? {
        SentIsGood(s, pid);
      }
    }
  }

  lemma OwnerActorBases(cfg: Config, s: Sys, pid: nat, o: Oracle, q: nat, n: Named)
    requires OwnerInv(s) && Enabled(cfg, s, Actor(pid, o))
    requires var s' := Apply(cfg, s, Actor(pid, o)); q in s'.procs && n in Bases(s'.procs[q])
    ensures RbGood(s.born, n.rb)
  {
    var p := s.procs[pid];
    ExecAnswers(s.store, Next(p), o);
    BasesStep(p, Exec(s.store, Next(p), o).1, s.clock);
    if !(q in s.procs && n in Bases(s.procs[q])) {
      assert n.key in s.store.rbs && n.rb == s.store.rbs[n.key];
    }
  }

  lemma OwnerActorHeld(cfg: Config, s: Sys, pid: nat, o: Oracle)
    requires OwnerInv(s) && Enabled(cfg, s, Actor(pid, o))
    ensures var p' := Apply(cfg, s, Actor(pid, o)).procs[pid];
            PutPending(p') && (Held(p').Some? ==> CrGood(s.born, Held(p').value))
  {
    var p := s.procs[pid];
    var r := Exec(s.store, Next(p), o).1;
    ExecAnswers(s.store, Next(p), o);
    HeldStep(p, r, s.clock);
    PutPendingStep(p, r, s.clock);
  }

  lemma OwnerActorClean(cfg: Config, s: Sys, pid: nat, o: Oracle, q: nat)
    requires OwnerInv(s) && Enabled(cfg, s, Actor(pid, o)) && q in s.procs
    ensures var s' := Apply(cfg, s, Actor(pid, o)); CleanGood(s'.trace, q, s'.procs[q])
  {
    var p := s.procs[pid];
    var r := Exec(s.store, Next(p), o).1;
    assert CleanGood(s.trace, q, s.procs[q]);
    if q != pid {
      CleanGoodLater(s.trace, Act(pid, Next(p), r, s.clock, s.store.version), q, s.procs[q]);
    } else if p.Clean? {
      CleanActor(s.trace, pid, p.ts, p.count, p.clean, r, s.clock, s.store.version);
    }
  }

  lemma OwnerActor(cfg: Config, s: Sys, pid: nat, o: Oracle)
    requires OwnerInv(s) && Enabled(cfg, s, Actor(pid, o))
    ensures OwnerInv(Apply(cfg, s, Actor(pid, o)))
  {
    var s' := Apply(cfg, s, Actor(pid, o));
    VersionActor(cfg, s, pid, o);
    ExecAnswers(s.store, Next(s.procs[pid]), o);
    OwnerActorStore(cfg, s, pid, o);
    OwnerActorHeld(cfg, s, pid, o);
    forall q, n | q in s'.procs && n in Bases(s'.procs[q]) ensures RbGood(s.born, n.rb) {
      OwnerActorBases(cfg, s, pid, o, q, n);
    }
    forall q | q in s'.procs ensures CleanGood(s'.trace, q, s'.procs[q]) {
      OwnerActorClean(cfg, s, pid, o, q);
    }
  }

  lemma BeginGood(cfg: Config, st: Start, trace: seq<Event>, pid: nat)
    requires StartOk(cfg, st)
    ensures Held(Begin(cfg, st)).None? && PutPending(Begin(cfg, st)) && CleanGood(trace, pid, Begin(cfg, st)) && Bases(Begin(cfg, st)) == []
  {}

  // A change to one binding by an outsider.
  lemma OwnerOutside(s: Sys, s': Sys, key: Key)
    requires OwnerInv(s) && VersionInv(s')
    requires s'.procs == s.procs && s'.born == s.born && s'.store.crs == s.store.crs
    requires s'.trace == s.trace + [Outside(key)]
    requires forall k | k in s'.store.rbs :: k in s.store.rbs && Entries(s'.store.rbs[k]) == Entries(s.store.rbs[k])
    ensures OwnerInv(s')
  {
    forall k | k in s'.store.rbs ensures RbGood(s.born, s'.store.rbs[k]) {
      assert RbGood(s.born, s.store.rbs[k]);
    }
    forall q | q in s'.procs ensures CleanGood(s'.trace, q, s'.procs[q]) && PutPending(s'.procs[q]) {
      CleanGoodLater(s.trace, Outside(key), q, s.procs[q]);
    }
  }

  // A change to anything but bindings and actors.
  lemma OwnerQuiet(s: Sys, s': Sys)
    requires OwnerInv(s) && VersionInv(s')
    requires s'.procs == s.procs && s'.born == s.born && s'.trace == s.trace && s'.store.rbs == s.store.rbs
    requires forall id | id in s'.store.crs ::
               id in s.store.crs && s'.store.crs[id].id == s.store.crs[id].id && s'.store.crs[id].uid == s.store.crs[id].uid
    ensures OwnerInv(s')
  {}

  lemma OwnerSpawn(cfg: Config, s: Sys, pid: nat, st: Start)
    requires OwnerInv(s) && Enabled(cfg, s, Spawn(pid, st)) && VersionInv(Apply(cfg, s, Spawn(pid, st)))
    ensures OwnerInv(Apply(cfg, s, Spawn(pid, st)))
  {
    BeginGood(cfg, st, s.trace, pid);
    var s' := Apply(cfg, s, Spawn(pid, st));
    forall q, n | q in s'.procs && n in Bases(s'.procs[q]) ensures RbGood(s.born, n.rb) {
      assert q in s.procs && n in Bases(s.procs[q]);
    }
  }

  lemma OwnerCreated(cfg: Config, s: Sys, cr: Cr)
    requires OwnerInv(s) && Enabled(cfg, s, CrCreated(cr)) && VersionInv(Apply(cfg, s, CrCreated(cr)))
    ensures OwnerInv(Apply(cfg, s, CrCreated(cr)))
  {
    BornGrows(s, cr);
  }

  // A move that touches neither bindings nor actors, and creates no CR.
  predicate Quiet(m: Move) {
    m.Tick? || m.CrDeleted? || m.CrEdited? || m.NsSet? || m.NsGone? || m.RoleSet? || m.RoleGone?
  }

  lemma OwnerQuietMove(cfg: Config, s: Sys, m: Move)
    requires OwnerInv(s) && Enabled(cfg, s, m) && Quiet(m) && VersionInv(Apply(cfg, s, m))
    ensures OwnerInv(Apply(cfg, s, m))
  {
    OwnerQuiet(s, Apply(cfg, s, m));
  }

  lemma OwnerOutsideMove(cfg: Config, s: Sys, m: Move)
    requires OwnerInv(s) && Enabled(cfg, s, m) && (m.Removed? || m.Tampered?) && VersionInv(Apply(cfg, s, m))
    ensures OwnerInv(Apply(cfg, s, m))
  {
    OwnerOutside(s, Apply(cfg, s, m), m.key);
  }

  lemma OwnerStep(cfg: Config, s: Sys, m: Move)
    requires OwnerInv(s) && Enabled(cfg, s, m)
    ensures OwnerInv(Apply(cfg, s, m))
  {
    VersionStep(cfg, s, m);
    if m.Actor? {
      OwnerActor(cfg, s, m.pid, m.oracle);
    } else if m.Spawn? {
      OwnerSpawn(cfg, s, m.pid, m.start);
    } else if m.CrCreated? {
      OwnerCreated(cfg, s, m.cr);
    } else if m.Removed? || m.Tampered? {
      OwnerOutsideMove(cfg, s, m);
    } else {
      OwnerQuietMove(cfg, s, m);
    }
  }

  lemma BornGrows(s: Sys, cr: Cr)
    requires OwnerInv(s) && cr.uid !in s.born && Carried(EntryOf(cr)) && cr.id !in s.store.crs
    ensures forall k | k in s.store.rbs :: RbGood(s.born[cr.uid := cr.id], s.store.rbs[k])
    ensures forall pid, n | pid in s.procs && n in Bases(s.procs[pid]) :: RbGood(s.born[cr.uid := cr.id], n.rb)
    ensures forall pid | pid in s.procs && Held(s.procs[pid]).Some? ::
              CrGood(s.born[cr.uid := cr.id], Held(s.procs[pid]).value)
  {
    forall k | k in s.store.rbs ensures RbGood(s.born[cr.uid := cr.id], s.store.rbs[k]) {
      assert RbGood(s.born, s.store.rbs[k]);
    }
    forall pid, n | pid in s.procs && n in Bases(s.procs[pid]) ensures RbGood(s.born[cr.uid := cr.id], n.rb) {
      assert RbGood(s.born, n.rb);
    }
  }

  // ---- One step, seen from one incarnation of a binding ---------------------------------------------

  ghost predicate SameIncarnation(a: Store, b: Store, key: Key) {
    key in a.rbs && key in b.rbs && a.rbs[key].uid == b.rbs[key].uid
  }

  // Move m of state s prunes the owners of key from a to b: it is the update of a cleanup
  // pass that has judged each removed owner stale.
  ghost predicate PrunesAt(s: Sys, m: Move, key: Key, a: seq<OwnerEntry>, b: seq<OwnerEntry>) {
    && m.Actor? && m.pid in s.procs
    && s.procs[m.pid].Clean? && Calls(s.procs[m.pid]) && s.procs[m.pid].clean.CleanUpdate?
    && s.procs[m.pid].clean.todo[0].key == key
    && b != [] && |b| < |a|
    && Pruned(s.trace, m.pid, s.procs[m.pid].ts[0], key.ns, a, b)
  }

  // Move m of state s appends one owner with a new UID: the CR a reconciler works for.
  ghost predicate AppendsAt(s: Sys, m: Move, key: Key, a: seq<OwnerEntry>, b: seq<OwnerEntry>) {
    && m.Actor? && m.pid in s.procs && Held(s.procs[m.pid]).Some?
    && b == a + [EntryOf(Held(s.procs[m.pid]).value)]
    && Held(s.procs[m.pid]).value.uid !in Uids(a)
  }

  lemma PutPendingStep(p: Proc, r: Reply, now: nat)
    requires Calls(p)
    ensures PutPending(Resume(p, r, now))
  {
    match p
    case Rec(t, deny, id, at) =>
    case _ =>
  }

  lemma AnnotationStep(cfg: Config, s: Sys, m: Move, key: Key)
    requires OwnerInv(s) && Enabled(cfg, s, m) && SameIncarnation(s.store, Apply(cfg, s, m).store, key)
    ensures var a, b := Entries(s.store.rbs[key]), Entries(Apply(cfg, s, m).store.rbs[key]);
            b == a || AppendsAt(s, m, key, a, b) || PrunesAt(s, m, key, a, b)
  {
    var s' := Apply(cfg, s, m);
    if m.Actor? {
      AnnotationActor(cfg, s, m.pid, m.oracle, key);
    }
  }

  lemma AnnotationActor(cfg: Config, s: Sys, pid: nat, o: Oracle, key: Key)
    requires OwnerInv(s) && Enabled(cfg, s, Actor(pid, o))
    requires SameIncarnation(s.store, Exec(s.store, Next(s.procs[pid]), o).0, key)
    ensures var a, b := Entries(s.store.rbs[key]), Entries(Exec(s.store, Next(s.procs[pid]), o).0.rbs[key]);
            b == a || AppendsAt(s, Actor(pid, o), key, a, b) || PrunesAt(s, Actor(pid, o), key, a, b)
  {
    var c := Next(s.procs[pid]);
    ExecInPlace(s.store, c, o, key);
    if Entries(Exec(s.store, c, o).0.rbs[key]) != Entries(s.store.rbs[key]) {
      UpdateCurrent(s, pid, key);
      UpdateEffect(s, pid, key, o);
    }
  }

  // Only a matching update changes an annotation in place.
  lemma ExecInPlace(s: Store, c: Call, o: Oracle, k: Key)
    requires SameIncarnation(s, Exec(s, c, o).0, k)
    ensures var s' := Exec(s, c, o).0;
            || Entries(s'.rbs[k]) == Entries(s.rbs[k])
            || (c.UpdateRb? && c.key == k && c.rb.uid == s.rbs[k].uid && c.rb.rv == s.rbs[k].rv
                && Entries(s'.rbs[k]) == Entries(c.rb))
  {}

  lemma UpdateByRec(s: Sys, pid: nat, key: Key)
    requires OwnerInv(s) && pid in s.procs && s.procs[pid].Rec? && Updates(s.procs[pid])
    requires key in s.store.rbs && UpdateBase(s.procs[pid]) == Named(key, s.store.rbs[key])
    requires Next(s.procs[pid]).UpdateRb?
    ensures var a, b := Entries(s.store.rbs[key]), Entries(Next(s.procs[pid]).rb);
            b == a || (Held(s.procs[pid]).Some? && b == a + [EntryOf(Held(s.procs[pid]).value)]
                       && Held(s.procs[pid]).value.uid !in Uids(a))
  {
    var p := s.procs[pid];
    assert Held(p) == Some(p.rec.cr) && CrGood(s.born, p.rec.cr);
    assert PutPending(p);
    if p.rec.EntryPut? {
      AppendOwner(s.born, p.rec.base, p.rec.cr);
    }
  }

  lemma UpdateByClean(s: Sys, pid: nat, key: Key, o: Oracle)
    requires OwnerInv(s) && pid in s.procs && s.procs[pid].Clean? && Updates(s.procs[pid])
    requires key in s.store.rbs && UpdateBase(s.procs[pid]) == Named(key, s.store.rbs[key])
    requires Next(s.procs[pid]).UpdateRb?
    ensures PrunesAt(s, Actor(pid, o), key, Entries(s.store.rbs[key]), Entries(Next(s.procs[pid]).rb))
  {
    var p := s.procs[pid];
    assert CleanGood(s.trace, pid, p);
    PruneOwners(s.born, s.trace, pid, p.ts[0], key.ns, p.clean.todo[0].rb, p.clean.valid);
  }

  lemma UpdateEffect(s: Sys, pid: nat, key: Key, o: Oracle)
    requires OwnerInv(s) && pid in s.procs && Calls(s.procs[pid]) && Updates(s.procs[pid])
    requires key in s.store.rbs && UpdateBase(s.procs[pid]) == Named(key, s.store.rbs[key])
    requires Next(s.procs[pid]).UpdateRb?
    ensures var a, b := Entries(s.store.rbs[key]), Entries(Next(s.procs[pid]).rb);
            b == a || AppendsAt(s, Actor(pid, o), key, a, b) || PrunesAt(s, Actor(pid, o), key, a, b)
  {
    match s.procs[pid]
    case Rec(_, _, _, _) => UpdateByRec(s, pid, key);
    case Clean(_, _, _) => UpdateByClean(s, pid, key, o);
    case Lab(_, _, _, _) =>
  }
}
