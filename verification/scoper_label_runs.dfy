// What the label trigger deletes when others move between its read and its deletion: the
// binding it read had no owner, and the one it deletes has one exactly if it was adopted since.
module ScoperLabelRuns {
  import opened Strings
  import opened ScoperTypes
  import opened ScoperActors
  import opened ScoperSystem
  import opened ScoperOwners
  import opened ScoperRuns
  import opened ScoperRefs

  predicate LabDeletes(p: Proc) {
    p.Lab? && (p.lab.LabOrphanDelete? || p.lab.LabDriftDelete?)
  }

  function LabKey(p: Proc): Key
    requires p.Lab?
  {
    Key(p.ns, p.t.rbName)
  }

  // A binding that lets p delete: without owners, and made by the label trigger or, when it is
  // to be replaced, with another roleRef.
  predicate Deletable(p: Proc, rb: RoleBinding)
    requires LabDeletes(p)
  {
    && rb.owners == []
    && if p.lab.LabOrphanDelete? then Ann(rb, CREATED_BY_KEY) == BY_LABEL_TRIGGER else rb.roleRef != ExpectedRef(p.t)
  }

  lemma DeletesAfterRead(p: Proc, r: Reply, now: nat)
    requires Calls(p) && Answers(Next(p), r) && LabDeletes(Resume(p, r, now))
    ensures var q := Resume(p, r, now);
            Next(p) == GetRb(LabKey(q)) && r.GotRb? && Deletable(q, r.rb)
  {}

  predicate MovesBy(m: Move, pid: nat) { m.Actor? && m.pid == pid }

  // Move c is the latest of pid before state n, and it read the binding p may delete.
  ghost predicate ReadAt(states: seq<Sys>, moves: seq<Move>, c: nat, n: nat, pid: nat, p: Proc)
    requires |states| == |moves| + 1 && n < |states| && LabDeletes(p)
  {
    && c < n && MovesBy(moves[c], pid)
    && pid in states[c].procs && Calls(states[c].procs[pid]) && Next(states[c].procs[pid]) == GetRb(LabKey(p))
    && LabKey(p) in states[c].store.rbs && Deletable(p, states[c].store.rbs[LabKey(p)])
    && states[c + 1].store == states[c].store
    && forall d | c < d < n :: !MovesBy(moves[d], pid)
  }

  lemma DeletesByMove(cfg: Config, s: Sys, m: Move, pid: nat)
    requires Enabled(cfg, s, m)
    requires pid in Apply(cfg, s, m).procs && LabDeletes(Apply(cfg, s, m).procs[pid])
    ensures var s' := Apply(cfg, s, m);
            var p := s'.procs[pid];
            if MovesBy(m, pid)
            then && Next(s.procs[pid]) == GetRb(LabKey(p)) && LabKey(p) in s.store.rbs
                 && Deletable(p, s.store.rbs[LabKey(p)]) && s'.store == s.store
            else pid in s.procs && s.procs[pid] == p
  {
    if MovesBy(m, pid) {
      ExecAnswers(s.store, Next(s.procs[pid]), m.oracle);
      DeletesAfterRead(s.procs[pid], Exec(s.store, Next(s.procs[pid]), m.oracle).1, s.clock);
    }
  }

  lemma {:induction false} ReadBefore(cfg: Config, states: seq<Sys>, moves: seq<Move>, n: nat, pid: nat)
    requires IsRun(cfg, states, moves) && Init(states[0]) && n < |states|
    requires pid in states[n].procs && LabDeletes(states[n].procs[pid])
    ensures exists c: nat :: ReadAt(states, moves, c, n, pid, states[n].procs[pid])
  {
    if n > 0 {
      DeletesByMove(cfg, states[n - 1], moves[n - 1], pid);
      if MovesBy(moves[n - 1], pid) {
        assert ReadAt(states, moves, n - 1, n, pid, states[n].procs[pid]);
      } else {
        ReadBefore(cfg, states, moves, n - 1, pid);
        var c: nat :| ReadAt(states, moves, c, n - 1, pid, states[n].procs[pid]);
        assert ReadAt(states, moves, c, n, pid, states[n].procs[pid]);
      }
    }
  }

  // ---- Adoption ----------------------------------------------------------------------------------

  ghost predicate Owned(s: Sys, key: Key) {
    key in s.store.rbs && s.store.rbs[key].owners != []
  }

  // A creation of key by a reconciler.
  predicate RecCreates(s: Sys, m: Move, key: Key) {
    && m.Actor? && m.pid in s.procs && s.procs[m.pid].Rec?
    && (s.procs[m.pid].rec.CreateNew? || s.procs[m.pid].rec.Recreate?)
    && RecKey(s.procs[m.pid].t, s.procs[m.pid].rec.cr, s.procs[m.pid].rec.ns) == key
  }

  // The moves that can give a binding its first owner.
  ghost predicate CanAdopt(s: Sys, m: Move, key: Key) {
    || Patches(s, m, key) || Backfills(s, m, key) || RecCreates(s, m, key)
    || (m.Tampered? && m.key == key)
  }

  lemma FirstOwnerCreated(s: Store, p: Proc, o: Oracle, key: Key)
    requires Calls(p) && key !in s.rbs && key in Exec(s, Next(p), o).0.rbs
    requires Exec(s, Next(p), o).0.rbs[key].owners != []
    ensures p.Rec? && (p.rec.CreateNew? || p.rec.Recreate?) && RecKey(p.t, p.rec.cr, p.rec.ns) == key
  {
    assert Next(p).CreateRb? && Next(p).key == key && Next(p).rb.owners != [];
  }

  lemma ActorIncarnation(s: Store, c: Call, o: Oracle, key: Key)
    requires key in s.rbs && key in Exec(s, c, o).0.rbs
    ensures SameIncarnation(s, Exec(s, c, o).0, key)
  {}

  lemma Adoption(cfg: Config, s: Sys, m: Move, key: Key)
    requires VersionInv(s) && ChargeInv(s) && Enabled(cfg, s, m)
    requires !Owned(s, key) && Owned(Apply(cfg, s, m), key)
    ensures CanAdopt(s, m, key)
  {
    if m.Actor? {
      var p := s.procs[m.pid];
      if key in s.store.rbs {
        ActorIncarnation(s.store, Next(p), m.oracle, key);
        var r := Apply(cfg, s, m).store.rbs[key].owners[0];
        RefStep(cfg, s, m, key, r);
      } else {
        FirstOwnerCreated(s.store, p, m.oracle, key);
      }
    }
  }

  // Move d gives the binding its first owner, and it has one from then on to state n.
  ghost predicate AdoptedBy(states: seq<Sys>, moves: seq<Move>, d: nat, n: nat, key: Key)
    requires |states| == |moves| + 1 && n < |states|
  {
    && d < n && !Owned(states[d], key) && CanAdopt(states[d], moves[d], key)
    && forall i: nat | d < i <= n :: Owned(states[i], key)
  }

  lemma {:induction false} AdoptedSince(cfg: Config, states: seq<Sys>, moves: seq<Move>, c: nat, n: nat, key: Key)
    requires IsRun(cfg, states, moves) && Init(states[0]) && c <= n < |states|
    requires !Owned(states[c], key) && Owned(states[n], key)
    ensures exists d: nat :: c <= d && AdoptedBy(states, moves, d, n, key)
    decreases n
  {
    if Owned(states[n - 1], key) {
      AdoptedSince(cfg, states, moves, c, n - 1, key);
      var d: nat :| c <= d && AdoptedBy(states, moves, d, n - 1, key);
      assert AdoptedBy(states, moves, d, n, key);
    } else {
      RunKeepsOwnerInv(cfg, states, moves, n - 1);
      RunKeepsChargeInv(cfg, states, moves, n - 1);
      Adoption(cfg, states[n - 1], moves[n - 1], key);
      assert AdoptedBy(states, moves, n - 1, n, key);
    }
  }

  // After move c and before state n a move of somebody else than pid adopted the binding.
  ghost predicate AdoptedAfter(states: seq<Sys>, moves: seq<Move>, c: nat, n: nat, pid: nat, key: Key)
    requires |states| == |moves| + 1 && n < |states|
  {
    exists d: nat :: c < d && AdoptedBy(states, moves, d, n, key) && !MovesBy(moves[d], pid)
  }

  lemma OwnedIffAdopted(cfg: Config, states: seq<Sys>, moves: seq<Move>, c: nat, n: nat, pid: nat, p: Proc)
    requires IsRun(cfg, states, moves) && Init(states[0]) && n < |states|
    requires LabDeletes(p) && ReadAt(states, moves, c, n, pid, p)
    ensures Owned(states[n], LabKey(p)) <==> AdoptedAfter(states, moves, c, n, pid, LabKey(p))
  {
    if Owned(states[n], LabKey(p)) {
      AdoptedSince(cfg, states, moves, c + 1, n, LabKey(p));
      var d: nat :| c + 1 <= d && AdoptedBy(states, moves, d, n, LabKey(p));
      assert !MovesBy(moves[d], pid);
    }
  }

  lemma LabDeleted(s: Store, p: Proc, o: Oracle)
    requires Calls(p) && LabDeletes(p) && Exec(s, Next(p), o).1.Ok?
    ensures LabKey(p) in s.rbs && LabKey(p) !in Exec(s, Next(p), o).0.rbs
  {}

  // When the label trigger deletes, its latest call read a binding it may delete; and what it
  // deletes has owners if and only if, after that read, somebody else gave it its first one.
  lemma DeletedUnlessAdopted(cfg: Config, states: seq<Sys>, moves: seq<Move>, n: nat, pid: nat)
    requires IsRun(cfg, states, moves) && Init(states[0]) && n < |moves| && MovesBy(moves[n], pid)
    requires LabDeletes(states[n].procs[pid]) && Exec(states[n].store, Next(states[n].procs[pid]), moves[n].oracle).1.Ok?
    ensures var p := states[n].procs[pid];
            && LabKey(p) in states[n].store.rbs && LabKey(p) !in states[n + 1].store.rbs
            && exists c: nat ::
                 && ReadAt(states, moves, c, n, pid, p)
                 && (Owned(states[n], LabKey(p)) <==> AdoptedAfter(states, moves, c, n, pid, LabKey(p)))
  {
    var p := states[n].procs[pid];
    LabDeleted(states[n].store, p, moves[n].oracle);
    ReadBefore(cfg, states, moves, n, pid);
    var c: nat :| ReadAt(states, moves, c, n, pid, p);
    OwnedIffAdopted(cfg, states, moves, c, n, pid, p);
  }

  // Between the label trigger's read and its deletion a reconciler adopts the binding: both
  // report success, and the binding is gone.
  lemma LabelRace(s: Store, t: Target, deny: DenyList, cr: Cr, ns: string, now: nat)
    requires RecKey(t, cr, ns) == Key(ns, t.rbName) && Key(ns, t.rbName) in s.rbs
    requires s.rbs[Key(ns, t.rbName)].owners == [] && Ann(s.rbs[Key(ns, t.rbName)], CREATED_BY_KEY) == BY_LABEL_TRIGGER
    ensures var key := Key(ns, t.rbName);
            var ok := Answer([]);
            var (s1, l1) := Step(s, Lab(t, deny, ns, LabOrphanGet), ok, now);
            var (s2, r1) := Step(s1, Rec(t, deny, cr.id, OwnerGet(cr, ns, 1)), ok, now);
            Calls(l1) && Calls(r1) &&
            var (s3, r2) := Step(s2, r1, ok, now);
            var (s4, l2) := Step(s3, l1, ok, now);
            && r2 == l2 == Fin(Success)
            && key in s3.rbs && HasOwner(s3.rbs[key].owners, cr.uid)
            && key !in s4.rbs
  {
    var key := Key(ns, t.rbName);
    OwnerRead(s, t, deny, cr.id, cr, ns, now);
    OwnerWrite(s, t, deny, cr.id, cr, ns, s.rbs[key], now);
    assert SetOwner([], RefOf(cr)) == [RefOf(cr)];
    assert [RefOf(cr)][0].uid == cr.uid;
  }
}
