// Owner references, which are patched as a whole and without a version: exactly when one is
// lost, and what the label trigger may delete in spite of one.
module ScoperRefs {
  import opened Strings
  import opened ScoperTypes
  import opened ScoperActors
  import opened ScoperSystem
  import opened ScoperOwners
  import opened ScoperRuns

  // ---- Setting a reference -----------------------------------------------------------------------

  // r is what setting x overwrites: the first reference to x's object, and the only copy of it.
  ghost predicate Displaced(refs: seq<OwnerRef>, x: OwnerRef, r: OwnerRef) {
    SameObject(r, x) && exists i :: FirstAndOnly(refs, x, r, i)
  }

  predicate FirstAndOnly(refs: seq<OwnerRef>, x: OwnerRef, r: OwnerRef, i: int) {
    && 0 <= i < |refs| && refs[i] == r
    && (forall j | 0 <= j < i :: !SameObject(refs[j], x))
    && (forall j | i < j < |refs| :: refs[j] != r)
  }

  lemma {:induction false} SetOwnerExactly(refs: seq<OwnerRef>, x: OwnerRef, r: OwnerRef)
    ensures r in SetOwner(refs, x) <==> r == x || (r in refs && !Displaced(refs, x, r))
  {
    SetOwnerAt(refs, x);
    if refs != [] {
      assert refs == [refs[0]] + refs[1..];
      if SameObject(refs[0], x) {
        if r == refs[0] && r !in refs[1..] {
          assert FirstAndOnly(refs, x, r, 0);
        }
      } else {
        SetOwnerExactly(refs[1..], x, r);
        if i :| FirstAndOnly(refs[1..], x, r, i) {
          if SameObject(r, x) {
            assert FirstAndOnly(refs, x, r, i + 1);
          }
        }
        if i :| FirstAndOnly(refs, x, r, i) {
          if SameObject(r, x) {
            assert FirstAndOnly(refs[1..], x, r, i - 1);
          }
        }
      }
    }
  }

  // ---- One step ------------------------------------------------------------------------------------

  ghost predicate RefRecorded(s: Sys, key: Key, r: OwnerRef) {
    key in s.store.rbs && r in s.store.rbs[key].owners
  }

  // A patch of the owner references of key that gets through.
  predicate Patches(s: Sys, m: Move, key: Key) {
    && m.Actor? && m.oracle.Answer? && m.pid in s.procs && s.procs[m.pid].Rec? && s.procs[m.pid].rec.OwnerPatch?
    && RecKey(s.procs[m.pid].t, s.procs[m.pid].rec.cr, s.procs[m.pid].rec.ns) == key
  }

  // A backfill of the pending owner of key that gets through.
  ghost predicate Backfills(s: Sys, m: Move, key: Key) {
    && m.Actor? && m.pid in s.procs && s.procs[m.pid].Rec? && s.procs[m.pid].rec.BackfillPut?
    && RecKey(s.procs[m.pid].t, s.procs[m.pid].rec.cr, s.procs[m.pid].rec.ns) == key
    && Exec(s.store, Next(s.procs[m.pid]), m.oracle).1.Ok?
  }

  // The reference of the CR that the actor moving works for.
  function MoverRef(s: Sys, m: Move): OwnerRef
    requires m.Actor? && m.pid in s.procs && s.procs[m.pid].Rec? && !s.procs[m.pid].rec.FetchCr?
  {
    RefOf(s.procs[m.pid].rec.cr)
  }

  // The latest call of pid read key and showed r, where setting x leaves it.
  ghost predicate LastReadHad(s: Sys, pid: nat, key: Key, x: OwnerRef, r: OwnerRef) {
    exists i: nat, read: RoleBinding ::
      LastRead(s.trace, pid, Named(key, read), i) && r in read.owners && !Displaced(read.owners, x, r)
  }

  // Move m takes r off: a patch whose own read lacked r or showed it where the patch puts its own
  // reference, a backfill that overwrites r, or a change by an outsider without it.
  ghost predicate RefDropped(s: Sys, m: Move, key: Key, r: OwnerRef) {
    || (Patches(s, m, key) && r != MoverRef(s, m) && !LastReadHad(s, m.pid, key, MoverRef(s, m), r))
    || (Backfills(s, m, key) && r != MoverRef(s, m) && key in s.store.rbs
        && Displaced(s.store.rbs[key].owners, MoverRef(s, m), r))
    || (m.Tampered? && m.key == key && r !in m.rb.owners)
  }

  // Move m puts r on, whether or not it was there: its own CR's patch or backfill, a patch whose
  // own read showed r, or a change by an outsider with it.
  ghost predicate RefPut(s: Sys, m: Move, key: Key, r: OwnerRef) {
    || (Patches(s, m, key) && (r == MoverRef(s, m) || LastReadHad(s, m.pid, key, MoverRef(s, m), r)))
    || (Backfills(s, m, key) && r == MoverRef(s, m))
    || (m.Tampered? && m.key == key && r in m.rb.owners)
  }

  lemma ExecOwners(s: Store, c: Call, o: Oracle, k: Key)
    requires SameIncarnation(s, Exec(s, c, o).0, k)
    ensures var (s', r) := Exec(s, c, o);
            s'.rbs[k].owners ==
              if c.PatchOwners? && c.key == k && o.Answer? then c.owners
              else if c.UpdateRb? && c.key == k && r.Ok? then c.rb.owners
              else s.rbs[k].owners
    ensures c.UpdateRb? && c.key == k && Exec(s, c, o).1.Ok? ==> c.rb.uid == s.rbs[k].uid && c.rb.rv == s.rbs[k].rv
  {}

  lemma UpdateOwners(p: Proc)
    requires Calls(p) && Updates(p) && Next(p).UpdateRb?
    ensures Next(p).rb.owners ==
              if p.Rec? && p.rec.BackfillPut? then SetOwner(UpdateBase(p).rb.owners, RefOf(p.rec.cr))
              else UpdateBase(p).rb.owners
  {}

  lemma OneLastRead(trace: seq<Event>, pid: nat, a: Named, i: nat, b: Named, j: nat)
    requires LastRead(trace, pid, a, i) && LastRead(trace, pid, b, j)
    ensures i == j && a.rb == b.rb
  {
    assert By(trace[i], pid) && By(trace[j], pid);
  }

  lemma PatchEffect(s: Sys, m: Move, key: Key, r: OwnerRef)
    requires ChargeInv(s) && Patches(s, m, key)
    ensures r in SetOwner(s.procs[m.pid].rec.base.owners, MoverRef(s, m)) <==>
              r == MoverRef(s, m) || LastReadHad(s, m.pid, key, MoverRef(s, m), r)
  {
    var n := Named(key, s.procs[m.pid].rec.base);
    SetOwnerExactly(n.rb.owners, MoverRef(s, m), r);
    assert Retrying(s.procs[m.pid]) == Some(n) && Charged(s, m.pid, n);
    var i: nat :| LastRead(s.trace, m.pid, n, i);
    forall j: nat, read: RoleBinding | LastRead(s.trace, m.pid, Named(key, read), j) ensures read == n.rb {
      OneLastRead(s.trace, m.pid, n, i, Named(key, read), j);
    }
  }

  lemma RefPatched(cfg: Config, s: Sys, m: Move, key: Key, r: OwnerRef)
    requires ChargeInv(s) && Enabled(cfg, s, m) && m.Actor? && Next(s.procs[m.pid]).PatchOwners?
    requires SameIncarnation(s.store, Exec(s.store, Next(s.procs[m.pid]), m.oracle).0, key)
    ensures RefRecorded(Apply(cfg, s, m), key, r) <==>
              RefPut(s, m, key, r) || (RefRecorded(s, key, r) && !RefDropped(s, m, key, r))
  {
    var p := s.procs[m.pid];
    OnlyOwnerPatches(p);
    ExecOwners(s.store, Next(p), m.oracle, key);
    if Patches(s, m, key) {
      PatchEffect(s, m, key, r);
    }
  }

  lemma RefUpdated(cfg: Config, s: Sys, m: Move, key: Key, r: OwnerRef)
    requires VersionInv(s) && Enabled(cfg, s, m) && m.Actor? && Next(s.procs[m.pid]).UpdateRb?
    requires SameIncarnation(s.store, Exec(s.store, Next(s.procs[m.pid]), m.oracle).0, key)
    ensures RefRecorded(Apply(cfg, s, m), key, r) <==>
              RefPut(s, m, key, r) || (RefRecorded(s, key, r) && !RefDropped(s, m, key, r))
  {
    var p := s.procs[m.pid];
    ExecOwners(s.store, Next(p), m.oracle, key);
    OnlyUpdates(p);
    UpdateBaseHeld(p);
    UpdateOwners(p);
    if Next(p).key == key && Exec(s.store, Next(p), m.oracle).1.Ok? {
      UpdateCurrent(s, m.pid, key);
      if p.Rec? && p.rec.BackfillPut? {
        SetOwnerExactly(s.store.rbs[key].owners, RefOf(p.rec.cr), r);
      }
    }
  }

  // The two moves that can change a reference are told by the call they make.
  lemma MoverCalls(s: Sys, m: Move, key: Key)
    requires m.Actor? && m.pid in s.procs && Calls(s.procs[m.pid])
    ensures Patches(s, m, key) ==> Next(s.procs[m.pid]).PatchOwners?
    ensures Backfills(s, m, key) ==> Next(s.procs[m.pid]).UpdateRb?
  {}

  lemma RefUntouched(cfg: Config, s: Sys, m: Move, key: Key, r: OwnerRef)
    requires Enabled(cfg, s, m) && m.Actor?
    requires !Next(s.procs[m.pid]).UpdateRb? && !Next(s.procs[m.pid]).PatchOwners?
    requires SameIncarnation(s.store, Exec(s.store, Next(s.procs[m.pid]), m.oracle).0, key)
    ensures RefRecorded(Apply(cfg, s, m), key, r) <==>
              RefPut(s, m, key, r) || (RefRecorded(s, key, r) && !RefDropped(s, m, key, r))
  {
    ExecOwners(s.store, Next(s.procs[m.pid]), m.oracle, key);
    MoverCalls(s, m, key);
  }

  // One move, exactly: after it the reference is there if the move puts it on, or if it was
  // there and the move does not take it off.
  lemma RefStep(cfg: Config, s: Sys, m: Move, key: Key, r: OwnerRef)
    requires VersionInv(s) && ChargeInv(s) && Enabled(cfg, s, m)
    requires SameIncarnation(s.store, Apply(cfg, s, m).store, key)
    ensures RefRecorded(Apply(cfg, s, m), key, r) <==>
              RefPut(s, m, key, r) || (RefRecorded(s, key, r) && !RefDropped(s, m, key, r))
  {
    if m.Actor? {
      if Next(s.procs[m.pid]).PatchOwners? {
        RefPatched(cfg, s, m, key, r);
      } else if Next(s.procs[m.pid]).UpdateRb? {
        RefUpdated(cfg, s, m, key, r);
      } else {
        RefUntouched(cfg, s, m, key, r);
      }
    }
  }

  // ---- Whole runs --------------------------------------------------------------------------------------

  // Move i of the run takes r off; move i puts it on.
  ghost predicate DropsAt(states: seq<Sys>, moves: seq<Move>, i: nat, key: Key, r: OwnerRef)
    requires i < |states| && i < |moves|
  {
    RefDropped(states[i], moves[i], key, r)
  }

  ghost predicate PutsAt(states: seq<Sys>, moves: seq<Move>, i: nat, key: Key, r: OwnerRef)
    requires i < |states| && i < |moves|
  {
    RefPut(states[i], moves[i], key, r)
  }

  // After move i and before state b a move puts r on.
  ghost predicate PutBack(states: seq<Sys>, moves: seq<Move>, i: nat, b: nat, key: Key, r: OwnerRef)
    requires b <= |moves| <= |states|
  {
    exists j: nat :: i < j < b && PutsAt(states, moves, j, key, r)
  }

  // Move i changes r as it says.
  ghost predicate SwitchesAt(states: seq<Sys>, moves: seq<Move>, i: nat, key: Key, r: OwnerRef)
    requires |states| == |moves| + 1 && i < |moves|
  {
    && !(PutsAt(states, moves, i, key, r) && DropsAt(states, moves, i, key, r))
    && (RefRecorded(states[i + 1], key, r) <==>
          PutsAt(states, moves, i, key, r)
          || (RefRecorded(states[i], key, r) && !DropsAt(states, moves, i, key, r)))
  }

  lemma RefStepInRun(cfg: Config, states: seq<Sys>, moves: seq<Move>, i: nat, key: Key, r: OwnerRef)
    requires IsRun(cfg, states, moves) && Init(states[0]) && i < |moves|
    requires SameIncarnation(states[i].store, states[i + 1].store, key)
    ensures SwitchesAt(states, moves, i, key, r)
  {
    RunKeepsOwnerInv(cfg, states, moves, i);
    RunKeepsChargeInv(cfg, states, moves, i);
    RefStep(cfg, states[i], moves[i], key, r);
  }

  // A switch that put[i] sets and drop[i] clears, on at a.
  predicate Switches(on: seq<bool>, put: seq<bool>, drop: seq<bool>, a: nat) {
    && |on| == |put| + 1 && |drop| == |put| && a < |on| && on[a]
    && forall i | a <= i < |put| :: !(put[i] && drop[i]) && on[i + 1] == (put[i] || (on[i] && !drop[i]))
  }

  predicate PutLater(put: seq<bool>, i: nat, b: nat)
    requires b <= |put|
  {
    exists j :: i < j < b && put[j]
  }

  lemma SwitchedOn(on: seq<bool>, put: seq<bool>, drop: seq<bool>, a: nat, b: nat)
    requires Switches(on, put, drop, a) && a <= b < |on|
    ensures (forall i | a <= i <= b :: on[i]) <==> (forall i | a <= i < b :: !drop[i])
    ensures on[b] <==> forall i | a <= i < b && drop[i] :: PutLater(put, i, b)
  {
    for n := a to b
      invariant (forall i | a <= i <= n :: on[i]) <==> (forall i | a <= i < n :: !drop[i])
      invariant on[n] <==> forall i | a <= i < n && drop[i] :: PutLater(put, i, n)
    {
      LaterStep(put, n);
      assert on[n + 1] == (put[n] || (on[n] && !drop[n]));
    }
  }

  lemma LaterStep(put: seq<bool>, n: nat)
    requires n < |put|
    ensures forall i: nat | i < n :: PutLater(put, i, n + 1) <==> put[n] || PutLater(put, i, n)
    ensures !PutLater(put, n, n + 1)
  {
    forall i: nat | i < n ensures PutLater(put, i, n + 1) <==> put[n] || PutLater(put, i, n) {
      if j :| i < j < n && put[j] {
        assert i < j < n + 1 && put[j];
      }
    }
  }

  lemma KeptBySwitching(states: seq<Sys>, moves: seq<Move>, a: nat, b: nat, key: Key, r: OwnerRef)
    requires |states| == |moves| + 1 && a <= b < |states| && RefRecorded(states[a], key, r)
    requires forall i: nat | a <= i < b :: SwitchesAt(states, moves, i, key, r)
    ensures (forall i: nat | a <= i <= b :: RefRecorded(states[i], key, r))
            <==> (forall i: nat | a <= i < b :: !DropsAt(states, moves, i, key, r))
    ensures RefRecorded(states[b], key, r)
            <==> forall i: nat | a <= i < b && DropsAt(states, moves, i, key, r) :: PutBack(states, moves, i, b, key, r)
  {
    var on := seq(b + 1, i requires 0 <= i <= b => RefRecorded(states[i], key, r));
    var put := seq(b, i requires 0 <= i < b => PutsAt(states, moves, i, key, r));
    var drop := seq(b, i requires 0 <= i < b => DropsAt(states, moves, i, key, r));
    forall i | a <= i < b ensures !(put[i] && drop[i]) && on[i + 1] == (put[i] || (on[i] && !drop[i])) {
      assert SwitchesAt(states, moves, i, key, r);
    }
    SwitchedOn(on, put, drop, a, b);
    forall i: nat | a <= i < b ensures PutBack(states, moves, i, b, key, r) == PutLater(put, i, b) {
      if j: nat :| i < j < b && PutsAt(states, moves, j, key, r) {
        assert put[j];
      }
      if j :| i < j < b && put[j] {
        assert PutsAt(states, moves, j, key, r);
      }
    }
    forall i: nat | a <= i < b ensures drop[i] == DropsAt(states, moves, i, key, r) {}
    forall i: nat | a <= i <= b ensures on[i] == RefRecorded(states[i], key, r) {}
  }

  // While a binding lives from state a to state b, a reference recorded at a stays throughout
  // if and only if no move takes it off: no patch whose own latest read lacked it or showed it
  // where the patch puts its own, no backfill over it, no outside change without it. And it is
  // there at b if and only if after every move that took it off another put it back.
  lemma RefKeptExactly(cfg: Config, states: seq<Sys>, moves: seq<Move>, a: nat, b: nat, key: Key, r: OwnerRef)
    requires IsRun(cfg, states, moves) && Init(states[0]) && a <= b < |states| && Lives(states, a, b, key)
    requires RefRecorded(states[a], key, r)
    ensures (forall i: nat | a <= i <= b :: RefRecorded(states[i], key, r))
            <==> (forall i: nat | a <= i < b :: !DropsAt(states, moves, i, key, r))
    ensures RefRecorded(states[b], key, r)
            <==> forall i: nat | a <= i < b && DropsAt(states, moves, i, key, r) :: PutBack(states, moves, i, b, key, r)
  {
    forall i: nat | a <= i < b ensures SwitchesAt(states, moves, i, key, r) {
      assert SameIncarnation(states[a].store, states[i].store, key);
      assert SameIncarnation(states[a].store, states[i + 1].store, key);
      RefStepInRun(cfg, states, moves, i, key, r);
    }
    KeptBySwitching(states, moves, a, b, key, r);
  }

  // ---- The race ------------------------------------------------------------------------------------------

  lemma OwnerRead(s: Store, t: Target, deny: DenyList, id: CrId, cr: Cr, ns: string, now: nat)
    requires RecKey(t, cr, ns) in s.rbs && !HasOwner(s.rbs[RecKey(t, cr, ns)].owners, cr.uid)
    ensures Step(s, Rec(t, deny, id, OwnerGet(cr, ns, 1)), Answer([]), now)
         == (s, Rec(t, deny, id, OwnerPatch(cr, ns, 1, s.rbs[RecKey(t, cr, ns)])))
  {}

  lemma OwnerWrite(s: Store, t: Target, deny: DenyList, id: CrId, cr: Cr, ns: string, base: RoleBinding, now: nat)
    requires RecKey(t, cr, ns) in s.rbs
    ensures Step(s, Rec(t, deny, id, OwnerPatch(cr, ns, 1, base)), Answer([]), now)
         == (Put(s, RecKey(t, cr, ns), s.rbs[RecKey(t, cr, ns)].(owners := SetOwner(base.owners, RefOf(cr)))), Fin(Success))
  {}

  // Two reconcilers that both read before either patches: both report success, and the
  // owner recorded first is gone.
  lemma PatchRace(s: Store, t: Target, deny: DenyList, a: Cr, b: Cr, ns: string, now: nat)
    requires RecKey(t, a, ns) == RecKey(t, b, ns) && RecKey(t, a, ns) in s.rbs
    requires !HasOwner(s.rbs[RecKey(t, a, ns)].owners, a.uid) && !HasOwner(s.rbs[RecKey(t, b, ns)].owners, b.uid)
    requires a.uid != b.uid
    ensures var key := RecKey(t, a, ns);
            var ok := Answer([]);
            var (s1, a1) := Step(s, Rec(t, deny, a.id, OwnerGet(a, ns, 1)), ok, now);
            var (s2, b1) := Step(s1, Rec(t, deny, b.id, OwnerGet(b, ns, 1)), ok, now);
            Calls(a1) && Calls(b1) &&
            var (s3, a2) := Step(s2, a1, ok, now);
            var (s4, b2) := Step(s3, b1, ok, now);
            && a2 == b2 == Fin(Success)
            && key in s3.rbs && HasOwner(s3.rbs[key].owners, a.uid)
            && key in s4.rbs && !HasOwner(s4.rbs[key].owners, a.uid)
  {
    var key := RecKey(t, a, ns);
    var base := s.rbs[key];
    var refs := base.owners;
    OwnerRead(s, t, deny, a.id, a, ns, now);
    OwnerRead(s, t, deny, b.id, b, ns, now);
    OwnerWrite(s, t, deny, a.id, a, ns, base, now);
    var s3 := Put(s, key, base.(owners := SetOwner(refs, RefOf(a))));
    OwnerWrite(s3, t, deny, b.id, b, ns, base, now);
    SetOwnerAt(refs, RefOf(a));
    SetOwnerAt(refs, RefOf(b));
    var i :| 0 <= i < |SetOwner(refs, RefOf(a))| && SetOwner(refs, RefOf(a))[i] == RefOf(a);
    assert forall r :: r in refs ==> r.uid != a.uid;
    assert forall r :: r in SetOwner(refs, RefOf(b)) ==> r.uid != a.uid;
  }
}
