// Whole runs from an empty store: an owner stays until a cleanup pass has found it stale,
// and every conflict is paid for by a write of somebody else.
module ScoperRuns {
  import opened Strings
  import opened Ownership
  import opened ScoperTypes
  import opened ScoperActors
  import opened ScoperSystem
  import opened ScoperOwners

  lemma {:induction false} RunKeepsOwnerInv(cfg: Config, states: seq<Sys>, moves: seq<Move>, n: nat)
    requires IsRun(cfg, states, moves) && Init(states[0]) && n < |states|
    ensures OwnerInv(states[n])
  {
    if n > 0 {
      RunKeepsOwnerInv(cfg, states, moves, n - 1);
      OwnerStep(cfg, states[n - 1], moves[n - 1]);
    }
  }

  // At every moment the owners of a binding have distinct UIDs, and each names the namespace
  // and name of the CR that UID was given to.
  lemma OwnersAreTrue(cfg: Config, states: seq<Sys>, moves: seq<Move>, n: nat, key: Key)
    requires IsRun(cfg, states, moves) && Init(states[0]) && n < |states| && key in states[n].store.rbs
    ensures EntriesGood(states[n].born, Entries(states[n].store.rbs[key]))
  {
    RunKeepsOwnerInv(cfg, states, moves, n);
  }

  // The binding key lives on as one object from state a to state b.
  ghost predicate Lives(states: seq<Sys>, a: nat, b: nat, key: Key)
    requires a <= b < |states|
  {
    forall i | a <= i <= b :: SameIncarnation(states[a].store, states[i].store, key)
  }

  ghost predicate Recorded(s: Sys, key: Key, e: OwnerEntry) {
    key in s.store.rbs && e in Entries(s.store.rbs[key])
  }

  // Move i took owner e off the binding: an update by a cleanup pass that had looked e up
  // and found it stale.
  ghost predicate PrunedBy(states: seq<Sys>, moves: seq<Move>, i: nat, key: Key, e: OwnerEntry)
    requires |states| == |moves| + 1 && i < |moves|
  {
    && moves[i].Actor? && moves[i].pid in states[i].procs
    && states[i].procs[moves[i].pid].Clean? && Calls(states[i].procs[moves[i].pid])
    && states[i].procs[moves[i].pid].clean.CleanUpdate?
    && states[i].procs[moves[i].pid].clean.todo[0].key == key
    && Recorded(states[i], key, e) && !Recorded(states[i + 1], key, e)
    && JudgedStale(states[i].trace, moves[i].pid, states[i].procs[moves[i].pid].ts[0], key.ns, e)
  }

  lemma OwnerStays(cfg: Config, states: seq<Sys>, moves: seq<Move>, i: nat, key: Key, e: OwnerEntry)
    requires IsRun(cfg, states, moves) && i < |moves| && OwnerInv(states[i])
    requires SameIncarnation(states[i].store, states[i + 1].store, key)
    requires e in Entries(states[i].store.rbs[key])
    ensures e in Entries(states[i + 1].store.rbs[key]) || PrunedBy(states, moves, i, key, e)
  {
    var s, m := states[i], moves[i];
    assert states[i + 1] == Apply(cfg, s, m);
    AnnotationStep(cfg, s, m, key);
    var es, es' := Entries(s.store.rbs[key]), Entries(states[i + 1].store.rbs[key]);
    if PrunesAt(s, m, key, es, es') {
      PrunedExact(s.trace, m.pid, s.procs[m.pid].ts[0], key.ns, es, es');
    }
  }

  ghost predicate StaysOrPruned(states: seq<Sys>, moves: seq<Move>, i: nat, key: Key, e: OwnerEntry)
    requires |states| == |moves| + 1 && i < |moves|
  {
    Recorded(states[i], key, e) ==> Recorded(states[i + 1], key, e) || PrunedBy(states, moves, i, key, e)
  }

  // What is on at a is on at b, or was cut in between.
  lemma OnOrCut(on: seq<bool>, cut: seq<bool>, a: nat, b: nat)
    requires |on| == |cut| + 1 && a <= b < |on| && on[a]
    requires forall i | a <= i < b :: on[i] ==> on[i + 1] || cut[i]
    ensures on[b] || exists i: nat :: a <= i < b && cut[i]
  {
    for n := a to b
      invariant on[n] || exists i: nat :: a <= i < n && cut[i]
    {
      assert on[n] ==> on[n + 1] || cut[n];
    }
  }

  lemma Persists(states: seq<Sys>, moves: seq<Move>, a: nat, b: nat, key: Key, e: OwnerEntry)
    requires |states| == |moves| + 1 && a <= b < |states| && Recorded(states[a], key, e)
    requires forall i: nat :: a <= i < b ==> StaysOrPruned(states, moves, i, key, e)
    ensures Recorded(states[b], key, e) || exists i: nat :: a <= i < b && PrunedBy(states, moves, i, key, e)
  {
    var on := seq(|states|, i requires 0 <= i < |states| => Recorded(states[i], key, e));
    var cut := seq(|moves|, i requires 0 <= i < |moves| => PrunedBy(states, moves, i, key, e));
    forall i | a <= i < b ensures on[i] ==> on[i + 1] || cut[i] {
      assert StaysOrPruned(states, moves, i, key, e);
    }
    OnOrCut(on, cut, a, b);
    if i: nat :| a <= i < b && cut[i] {
      assert PrunedBy(states, moves, i, key, e);
    }
  }

  // Once recorded, an owner stays on the binding unless a cleanup pass that found it stale
  // takes it off, however the actors interleave.
  lemma NoLostOwner(cfg: Config, states: seq<Sys>, moves: seq<Move>, a: nat, b: nat, key: Key, e: OwnerEntry)
    requires IsRun(cfg, states, moves) && Init(states[0]) && a <= b < |states| && Lives(states, a, b, key)
    requires Recorded(states[a], key, e)
    ensures Recorded(states[b], key, e) || exists i: nat :: a <= i < b && PrunedBy(states, moves, i, key, e)
  {
    forall i: nat | a <= i < b ensures StaysOrPruned(states, moves, i, key, e) {
      RunKeepsOwnerInv(cfg, states, moves, i);
      assert SameIncarnation(states[a].store, states[i].store, key);
      assert SameIncarnation(states[a].store, states[i + 1].store, key);
      if Recorded(states[i], key, e) {
        OwnerStays(cfg, states, moves, i, key, e);
      }
    }
    Persists(states, moves, a, b, key, e);
  }

  // ---- Conflicts ------------------------------------------------------------------------------

  // The snapshot a retry loop is about to write back.
  function Retrying(p: Proc): Option<Named> {
    match p
    case Rec(t, _, _, at) =>
      if at.SubjectsPut? || at.BackfillPut? || at.OwnerPatch? || at.EntryPut? then Some(Named(RecKey(t, at.cr, at.ns), at.base)) else None
    case Lab(t, _, ns, LabSubjectsPut(_, base)) => Some(Named(Key(ns, t.rbName), base))
    case _ => None
  }

  predicate By(ev: Event, pid: nat) { ev.Act? && ev.pid == pid }

  predicate Writes(ev: Event, key: Key) {
    match ev
    case Outside(k) => k == key
    case Act(_, c, r, _, _) =>
      (c.CreateRb? || c.UpdateRb? || c.PatchOwners? || c.DeleteRb?) && c.key == key && r.Ok?
  }

  // Event i is the latest of pid, and it is the read of this snapshot.
  ghost predicate LastRead(trace: seq<Event>, pid: nat, n: Named, i: nat) {
    && i < |trace|
    && trace[i].Act? && trace[i].pid == pid && trace[i].call == GetRb(n.key) && trace[i].reply == GotRb(n.rb)
    && forall j :: i < j < |trace| ==> !By(trace[j], pid)
  }

  ghost predicate WrittenSince(trace: seq<Event>, key: Key, i: nat) {
    exists j: nat :: i < j < |trace| && Writes(trace[j], key)
  }

  predicate Current(s: Store, n: Named) {
    n.key in s.rbs && s.rbs[n.key] == n.rb
  }

  ghost predicate Charged(s: Sys, pid: nat, n: Named) {
    exists i: nat :: LastRead(s.trace, pid, n, i) && (Current(s.store, n) || WrittenSince(s.trace, n.key, i))
  }

  ghost predicate ChargeInv(s: Sys) {
    forall pid | pid in s.procs && Retrying(s.procs[pid]).Some? :: Charged(s, pid, Retrying(s.procs[pid]).value)
  }

  lemma RetryingRec(t: Target, deny: DenyList, id: CrId, at: RecPc, r: Reply)
    requires Answers(NextRec(t, id, at), r)
    ensures var q := ResumeRec(t, deny, id, at, r);
            Retrying(q).Some? ==> r == GotRb(Retrying(q).value.rb) && NextRec(t, id, at) == GetRb(Retrying(q).value.key)
  {}

  lemma RetryingLab(t: Target, deny: DenyList, ns: string, at: LabPc, r: Reply)
    requires Answers(NextLab(t, Key(ns, t.rbName), at), r)
    ensures var q := ResumeLab(t, deny, ns, at, r);
            Retrying(q).Some? ==>
              r == GotRb(Retrying(q).value.rb) && NextLab(t, Key(ns, t.rbName), at) == GetRb(Retrying(q).value.key)
  {}

  lemma RetryingStep(p: Proc, r: Reply, now: nat)
    requires Calls(p) && Answers(Next(p), r)
    ensures var q := Resume(p, r, now);
            Retrying(q).Some? ==> r == GotRb(Retrying(q).value.rb) && Next(p) == GetRb(Retrying(q).value.key)
  {
    match p
    case Rec(t, deny, id, at) => RetryingRec(t, deny, id, at, r);
    case Lab(t, deny, ns, at) => RetryingLab(t, deny, ns, at, r);
    case Hook(_, _, _, _, _) =>
    case Clean(_, _, _) =>
  }

  lemma ExecWrites(s: Store, c: Call, o: Oracle, n: Named, pid: nat, at: nat)
    requires Current(s, n)
    ensures Current(Exec(s, c, o).0, n) || Writes(Act(pid, c, Exec(s, c, o).1, at, s.version), n.key)
  {}

  lemma ChargedLater(s: Sys, s': Sys, ev: Event, pid: nat, n: Named)
    requires Charged(s, pid, n) && s'.trace == s.trace + [ev] && !By(ev, pid)
    requires Current(s.store, n) ==> Current(s'.store, n) || Writes(ev, n.key)
    ensures Charged(s', pid, n)
  {
    var i: nat :| LastRead(s.trace, pid, n, i) && (Current(s.store, n) || WrittenSince(s.trace, n.key, i));
    assert LastRead(s'.trace, pid, n, i);
    if Current(s.store, n) {
      assert s'.trace[|s.trace|] == ev;
    } else {
      var j: nat :| i < j < |s.trace| && Writes(s.trace[j], n.key);
      assert s'.trace[j] == s.trace[j];
    }
  }

  lemma ChargeActor(cfg: Config, s: Sys, pid: nat, o: Oracle)
    requires ChargeInv(s) && Enabled(cfg, s, Actor(pid, o))
    ensures ChargeInv(Apply(cfg, s, Actor(pid, o)))
  {
    var p := s.procs[pid];
    var (store', r) := Exec(s.store, Next(p), o);
    var s' := Apply(cfg, s, Actor(pid, o));
    var ev := Act(pid, Next(p), r, s.clock, s.store.version);
    ExecAnswers(s.store, Next(p), o);
    forall q | q in s'.procs && Retrying(s'.procs[q]).Some? ensures Charged(s', q, Retrying(s'.procs[q]).value) {
      var n := Retrying(s'.procs[q]).value;
      if q == pid {
        RetryingStep(p, r, s.clock);
        assert s'.trace[|s.trace|] == ev && LastRead(s'.trace, pid, n, |s.trace|);
      } else {
        if Current(s.store, n) {
          ExecWrites(s.store, Next(p), o, n, pid, s.clock);
        }
        ChargedLater(s, s', ev, q, n);
      }
    }
  }

  lemma ChargeStep(cfg: Config, s: Sys, m: Move)
    requires ChargeInv(s) && Enabled(cfg, s, m)
    ensures ChargeInv(Apply(cfg, s, m))
  {
    var s' := Apply(cfg, s, m);
    match m
    case Actor(pid, o) => ChargeActor(cfg, s, pid, o);
    case Spawn(pid, st) =>
      assert Retrying(Begin(cfg, st)).None?;
      forall q | q in s'.procs && Retrying(s'.procs[q]).Some? ensures Charged(s', q, Retrying(s'.procs[q]).value) {
        assert Charged(s, q, Retrying(s.procs[q]).value);
      }
    case Removed(key) => ChargeOutside(s, s', key);
    case Tampered(key, rb) => ChargeOutside(s, s', key);
    case _ =>
      forall q | q in s'.procs && Retrying(s'.procs[q]).Some? ensures Charged(s', q, Retrying(s'.procs[q]).value) {
        assert Charged(s, q, Retrying(s.procs[q]).value);
      }
  }

  lemma ChargeOutside(s: Sys, s': Sys, key: Key)
    requires ChargeInv(s) && s'.procs == s.procs && s'.trace == s.trace + [Outside(key)]
    requires forall n :: Current(s.store, n) ==> Current(s'.store, n) || n.key == key
    ensures ChargeInv(s')
  {
    forall q | q in s'.procs && Retrying(s'.procs[q]).Some? ensures Charged(s', q, Retrying(s'.procs[q]).value) {
      ChargedLater(s, s', Outside(key), q, Retrying(s'.procs[q]).value);
    }
  }

  lemma {:induction false} RunKeepsChargeInv(cfg: Config, states: seq<Sys>, moves: seq<Move>, n: nat)
    requires IsRun(cfg, states, moves) && Init(states[0]) && n < |states|
    ensures ChargeInv(states[n])
  {
    if n > 0 {
      RunKeepsChargeInv(cfg, states, moves, n - 1);
      ChargeStep(cfg, states[n - 1], moves[n - 1]);
    }
  }

  lemma ConflictIsStale(s: Store, p: Proc, o: Oracle)
    requires Retrying(p).Some? && Exec(s, Next(p), o).1 == Err(Conflict)
    ensures !Current(s, Retrying(p).value)
  {}

  // When a retry loop gets a conflict, someone else has successfully written the binding
  // since the loop read it; that read is the loop's latest call, so two conflicts of one
  // actor are never charged to the same write.
  lemma ConflictCharged(cfg: Config, states: seq<Sys>, moves: seq<Move>, n: nat)
    requires IsRun(cfg, states, moves) && Init(states[0]) && n < |moves| && moves[n].Actor?
    requires Retrying(states[n].procs[moves[n].pid]).Some?
    requires Exec(states[n].store, Next(states[n].procs[moves[n].pid]), moves[n].oracle).1 == Err(Conflict)
    ensures var snapshot := Retrying(states[n].procs[moves[n].pid]).value;
            exists i: nat, j: nat :: LastRead(states[n].trace, moves[n].pid, snapshot, i) && i < j < |states[n].trace|
                           && Writes(states[n].trace[j], snapshot.key) && !By(states[n].trace[j], moves[n].pid)
  {
    RunKeepsChargeInv(cfg, states, moves, n);
    var s, pid := states[n], moves[n].pid;
    var snapshot := Retrying(s.procs[pid]).value;
    assert Charged(s, pid, snapshot);
    var i: nat :| LastRead(s.trace, pid, snapshot, i) && (Current(s.store, snapshot) || WrittenSince(s.trace, snapshot.key, i));
    ConflictIsStale(s.store, s.procs[pid], moves[n].oracle);
    var j: nat :| i < j < |s.trace| && Writes(s.trace[j], snapshot.key);
    assert !By(s.trace[j], pid);
  }

  // ---- Retries -----------------------------------------------------------------------------------

  // The try a retry loop is at.
  function TryOf(p: Proc): Option<nat> {
    match p
    case Rec(_, _, _, at) =>
      if at.SubjectsGet? || at.SubjectsPut? || at.BackfillGet? || at.BackfillPut? || at.OwnerGet? || at.OwnerPatch?
         || at.EntryGet? || at.EntryPut?
      then Some(at.n) else None
    case Lab(_, _, _, at) => if at.LabSubjectsGet? || at.LabSubjectsPut? then Some(at.n) else None
    case _ => None
  }

  // A conflict is answered by reading the binding again, for the next try; the fifth is final.
  lemma FifthConflictFails(p: Proc, now: nat)
    requires Retrying(p).Some?
    ensures var q := Resume(p, Err(Conflict), now);
            && TryOf(p).Some?
            && if TryOf(p).value < 5
               then Calls(q) && Next(q) == GetRb(Retrying(p).value.key) && TryOf(q) == Some(TryOf(p).value + 1)
               else q == Fin(Failure)
  {}

  // Loops begin with their first try, go on with the same one or the next, and so never pass five.
  lemma TriesStep(p: Proc, r: Reply, now: nat)
    requires Calls(p) && (TryOf(p).Some? ==> 1 <= TryOf(p).value <= 5)
    ensures var q := Resume(p, r, now);
            TryOf(q).Some? ==> 1 <= TryOf(q).value <= 5
  {
    match p
    case Rec(t, deny, id, at) => TriesRec(t, deny, id, at, r);
    case Lab(t, deny, ns, at) => TriesLab(t, deny, ns, at, r);
    case Hook(_, _, _, _, _) =>
    case Clean(_, _, _) =>
  }

  lemma TriesRec(t: Target, deny: DenyList, id: CrId, at: RecPc, r: Reply)
    requires var n := TryOf(Rec(t, deny, id, at)); n.Some? ==> 1 <= n.value <= 5
    ensures var n := TryOf(ResumeRec(t, deny, id, at, r)); n.Some? ==> 1 <= n.value <= 5
  {}

  lemma TriesLab(t: Target, deny: DenyList, ns: string, at: LabPc, r: Reply)
    requires var n := TryOf(Lab(t, deny, ns, at)); n.Some? ==> 1 <= n.value <= 5
    ensures var n := TryOf(ResumeLab(t, deny, ns, at, r)); n.Some? ==> 1 <= n.value <= 5
  {}

  predicate TryOk(p: Proc) { TryOf(p).Some? ==> 1 <= TryOf(p).value <= 5 }

  lemma TriesMove(cfg: Config, s: Sys, m: Move, pid: nat)
    requires Enabled(cfg, s, m) && pid in Apply(cfg, s, m).procs && (pid in s.procs ==> TryOk(s.procs[pid]))
    ensures TryOk(Apply(cfg, s, m).procs[pid])
  {
    if m.Actor? && m.pid == pid {
      TriesStep(s.procs[pid], Exec(s.store, Next(s.procs[pid]), m.oracle).1, s.clock);
    } else if m.Spawn? && m.pid == pid {
      assert TryOf(Begin(cfg, m.start)).None?;
    }
  }

  // In no run does a retry loop make a sixth try.
  lemma {:induction false} FiveTriesAtMost(cfg: Config, states: seq<Sys>, moves: seq<Move>, n: nat, pid: nat)
    requires IsRun(cfg, states, moves) && Init(states[0]) && n < |states| && pid in states[n].procs
    ensures TryOf(states[n].procs[pid]).Some? ==> 1 <= TryOf(states[n].procs[pid]).value <= 5
  {
    if n > 0 {
      if pid in states[n - 1].procs {
        FiveTriesAtMost(cfg, states, moves, n - 1, pid);
      }
      TriesMove(cfg, states[n - 1], moves[n - 1], pid);
    }
  }
}
