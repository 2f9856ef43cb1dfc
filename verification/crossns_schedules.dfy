// Two controllers on one cluster, their API calls interleaved in any order: each leaves its
// own objects exactly as if it had run alone.
module CrossnsSchedules {
  import opened Rbac
  import opened CrossnsProgram

  // What a controller does next: begin a call of Apply or Teardown, or make one API call.
  datatype Act = Start(job: Job, teardown: bool) | Go(oracle: Oracle)

  datatype Move = Move(who: bool, act: Act)

  datatype Sys = Sys(store: Store, one: Proc, two: Proc)

  function ProcOf(sys: Sys, who: bool): Proc {
    if who then sys.one else sys.two
  }

  // A controller begins a call only when its last one has ended.
  ghost function Do(s: Store, p: Proc, a: Act): (r: (Store, Proc))
    requires Calls(p) || p.Fin?
    ensures Calls(r.1) || r.1.Fin?
  {
    match a
    case Start(job, teardown) =>
      if !p.Fin? then (s, p) else (s, if teardown then TeardownStart(job.owner) else ApplyStart(job))
    case Go(o) => if p.Fin? then (s, p) else Step(s, p, o)
  }

  predicate Live(sys: Sys) {
    (Calls(sys.one) || sys.one.Fin?) && (Calls(sys.two) || sys.two.Fin?)
  }

  ghost function Turn(sys: Sys, m: Move): (r: Sys)
    requires Live(sys)
    ensures Live(r)
  {
    var (s', p') := Do(sys.store, ProcOf(sys, m.who), m.act);
    if m.who then Sys(s', p', sys.two) else Sys(s', sys.one, p')
  }

  ghost function Together(sys: Sys, moves: seq<Move>): (r: Sys)
    requires Live(sys)
    ensures Live(r)
    decreases |moves|
  {
    if moves == [] then sys else Together(Turn(sys, moves[0]), moves[1..])
  }

  // The same controller alone on the cluster.
  ghost function Alone(s: Store, p: Proc, moves: seq<Move>, who: bool): (r: (Store, Proc))
    requires Calls(p) || p.Fin?
    ensures Calls(r.1) || r.1.Fin?
    decreases |moves|
  {
    if moves == [] then (s, p)
    else if moves[0].who != who then Alone(s, p, moves[1..], who)
    else
      var (s', p') := Do(s, p, moves[0].act);
      Alone(s', p', moves[1..], who)
  }

  // The reply, if the move makes a call.
  ghost function ReplyTo(s: Store, p: Proc, a: Act): seq<Reply>
    requires Calls(p) || p.Fin?
  {
    if a.Go? && !p.Fin? then [Exec(s, Next(p), a.oracle).1] else []
  }

  // The replies controller who gets, together with the other and alone.
  ghost function Heard(sys: Sys, moves: seq<Move>, who: bool): seq<Reply>
    requires Live(sys)
    decreases |moves|
  {
    if moves == [] then []
    else
      (if moves[0].who == who then ReplyTo(sys.store, ProcOf(sys, who), moves[0].act) else [])
      + Heard(Turn(sys, moves[0]), moves[1..], who)
  }

  ghost function HeardAlone(s: Store, p: Proc, moves: seq<Move>, who: bool): seq<Reply>
    requires Calls(p) || p.Fin?
    decreases |moves|
  {
    if moves == [] then []
    else if moves[0].who != who then HeardAlone(s, p, moves[1..], who)
    else
      var (s', p') := Do(s, p, moves[0].act);
      ReplyTo(s, p, moves[0].act) + HeardAlone(s', p', moves[1..], who)
  }

  // ---- Territories ------------------------------------------------------------------------------

  // The controller with this owner label names only objects in keys.
  ghost predicate JobIn(job: Job, owner: OwnerLabel, keys: iset<Key>) {
    job.owner == owner && forall rs | rs in job.sets :: RoleKey(rs) in keys && BindingKey(rs) in keys
  }

  ghost predicate ProcIn(p: Proc, owner: OwnerLabel, keys: iset<Key>) {
    p.At? ==> JobIn(p.job, owner, keys) && (p.pc.Sweep? ==> forall k | k in p.pc.todo :: k in keys)
  }

  ghost predicate MoveIn(a: Act, owner: OwnerLabel, keys: iset<Key>) {
    a.Start? ==> JobIn(a.job, owner, keys)
  }

  ghost predicate OwnedIn(s: Store, owner: OwnerLabel, keys: iset<Key>) {
    forall k | Owned(s, owner, k) :: k in keys
  }

  // Same objects, same versions, in keys.
  ghost predicate Agree(s: Store, t: Store, keys: iset<Key>) {
    forall k | k in keys ::
      && (k in s.objs <==> k in t.objs) && (k in s.objs ==> s.objs[k] == t.objs[k])
      && TickOf(s, k) == TickOf(t, k)
  }

  predicate Apart(a: OwnerLabel, b: OwnerLabel) {
    a.key != "" && a.key == b.key && a.value != b.value
  }

  // ---- One step ------------------------------------------------------------------------------------

  function KeyOf(c: Call): Key
    requires !c.List?
  {
    c.key
  }

  lemma NextIn(p: Proc, owner: OwnerLabel, keys: iset<Key>)
    requires Calls(p) && ProcIn(p, owner, keys)
    ensures Next(p).List? ==> Next(p).selector == ManagedLabels(owner)
    ensures !Next(p).List? ==> KeyOf(Next(p)) in keys
  {
    if p.pc.Sweep? {
      assert p.pc.todo[0] in p.pc.todo;
    }
  }

  // A write by the controller labels the object as its own.
  lemma WritesOwn(p: Proc, owner: OwnerLabel, keys: iset<Key>)
    requires Calls(p) && ProcIn(p, owner, keys)
    ensures Next(p).Create? || Next(p).Update? ==> Matches(Next(p).obj.labels, ManagedLabels(owner))
  {}

  lemma ListsAlike(s: Store, t: Store, owner: OwnerLabel, keys: iset<Key>, kind: Kind, order: seq<Key>)
    requires Agree(s, t, keys) && OwnedIn(s, owner, keys) && OwnedIn(t, owner, keys)
    ensures Lists(s, kind, ManagedLabels(owner), order) <==> Lists(t, kind, ManagedLabels(owner), order)
  {
    assert forall k :: Owned(s, owner, k) <==> Owned(t, owner, k);
  }

  lemma ExecInAlike(s: Store, t: Store, c: Call, o: Oracle, owner: OwnerLabel, keys: iset<Key>)
    requires Agree(s, t, keys) && OwnedIn(s, owner, keys) && OwnedIn(t, owner, keys)
    requires !c.List? && KeyOf(c) in keys
    ensures Exec(s, c, o).1 == Exec(t, c, o).1 && Agree(Exec(s, c, o).0, Exec(t, c, o).0, keys)
    ensures OwnedIn(Exec(s, c, o).0, owner, keys) && OwnedIn(Exec(t, c, o).0, owner, keys)
  {
    ExecOwnedIn(s, c, o, owner, keys);
    ExecOwnedIn(t, c, o, owner, keys);
  }

  lemma ExecOwnedIn(s: Store, c: Call, o: Oracle, owner: OwnerLabel, keys: iset<Key>)
    requires OwnedIn(s, owner, keys) && !c.List? && KeyOf(c) in keys
    ensures OwnedIn(Exec(s, c, o).0, owner, keys)
  {
    forall k | Owned(Exec(s, c, o).0, owner, k) ensures k in keys {
      if k != KeyOf(c) {
        assert Owned(s, owner, k);
      }
    }
  }

  lemma ExecAlike(s: Store, t: Store, c: Call, o: Oracle, owner: OwnerLabel, keys: iset<Key>)
    requires Agree(s, t, keys) && OwnedIn(s, owner, keys) && OwnedIn(t, owner, keys)
    requires if c.List? then c.selector == ManagedLabels(owner) else KeyOf(c) in keys
    ensures Exec(s, c, o).1 == Exec(t, c, o).1 && Agree(Exec(s, c, o).0, Exec(t, c, o).0, keys)
    ensures OwnedIn(Exec(s, c, o).0, owner, keys) && OwnedIn(Exec(t, c, o).0, owner, keys)
  {
    if c.List? {
      if o.Answer? {
        ListsAlike(s, t, owner, keys, c.kind, o.order);
      }
    } else {
      ExecInAlike(s, t, c, o, owner, keys);
    }
  }

  lemma {:induction false} UnwantedIn(job: Job, listed: seq<Key>)
    ensures forall k | k in Unwanted(job, listed) :: k in listed
  {
    if listed != [] {
      UnwantedIn(job, listed[1..]);
    }
  }

  lemma SweepIn(s: Store, p: Proc, o: Oracle, owner: OwnerLabel, keys: iset<Key>)
    requires Calls(p) && !Applying(p.pc) && ProcIn(p, owner, keys) && OwnedIn(s, owner, keys)
    ensures ProcIn(Step(s, p, o).1, owner, keys)
  {
    var r := Exec(s, Next(p), o).1;
    if r.Listed? {
      UnwantedIn(p.job, r.keys);
      assert forall k | k in r.keys :: Owned(s, owner, k);
    }
    SweepGoesOn(p, r, owner, keys);
  }

  lemma SweepGoesOn(p: Proc, r: Reply, owner: OwnerLabel, keys: iset<Key>)
    requires Calls(p) && !Applying(p.pc) && ProcIn(p, owner, keys)
    requires r.Listed? ==> forall k | k in Unwanted(p.job, r.keys) :: k in keys
    ensures ProcIn(ResumeSweep(p.job, p.pc, r), owner, keys)
  {}

  // Applying a rule set never leads straight into deleting.
  lemma ApplyIn(job: Job, pc: Pc, r: Reply)
    requires Applying(pc) && pc.i < |job.sets|
    ensures var q := ResumeApply(job, pc, r);
            q.At? ==> !q.pc.Sweep?
  {}

  lemma ResumeIn(s: Store, p: Proc, o: Oracle, owner: OwnerLabel, keys: iset<Key>)
    requires Calls(p) && ProcIn(p, owner, keys) && OwnedIn(s, owner, keys)
    ensures ProcIn(Step(s, p, o).1, owner, keys)
  {
    if Applying(p.pc) {
      ApplyIn(p.job, p.pc, Exec(s, Next(p), o).1);
    } else {
      SweepIn(s, p, o, owner, keys);
    }
  }

  lemma MyStep(s: Store, t: Store, p: Proc, a: Act, owner: OwnerLabel, keys: iset<Key>)
    requires Calls(p) || p.Fin?
    requires ProcIn(p, owner, keys) && MoveIn(a, owner, keys)
    requires Agree(s, t, keys) && OwnedIn(s, owner, keys) && OwnedIn(t, owner, keys)
    ensures ReplyTo(s, p, a) == ReplyTo(t, p, a)
    ensures Do(s, p, a).1 == Do(t, p, a).1 && Agree(Do(s, p, a).0, Do(t, p, a).0, keys)
    ensures OwnedIn(Do(s, p, a).0, owner, keys) && OwnedIn(Do(t, p, a).0, owner, keys)
    ensures ProcIn(Do(s, p, a).1, owner, keys)
  {
    if a.Go? && !p.Fin? {
      NextIn(p, owner, keys);
      ExecAlike(s, t, Next(p), a.oracle, owner, keys);
      ResumeIn(s, p, a.oracle, owner, keys);
    }
  }

  lemma LabelledForOne(labels: map<string, string>, me: OwnerLabel, them: OwnerLabel)
    requires Apart(me, them) && Matches(labels, ManagedLabels(them))
    ensures !Matches(labels, ManagedLabels(me))
  {
    assert me.key in ManagedLabels(me) && them.key in ManagedLabels(them);
  }

  lemma ExecElsewhere(s: Store, c: Call, o: Oracle, me: OwnerLabel, mine: iset<Key>, them: OwnerLabel, theirs: iset<Key>)
    requires Apart(me, them) && mine !! theirs
    requires OwnedIn(s, me, mine) && OwnedIn(s, them, theirs)
    requires !c.List? ==> KeyOf(c) in theirs
    requires c.Create? || c.Update? ==> Matches(c.obj.labels, ManagedLabels(them))
    ensures var s' := Exec(s, c, o).0;
            Agree(s, s', mine) && OwnedIn(s', me, mine) && OwnedIn(s', them, theirs)
  {
    var s' := Exec(s, c, o).0;
    forall k | Owned(s', me, k) ensures k in mine {
      if c.Create? || c.Update? {
        LabelledForOne(c.obj.labels, me, them);
      }
      assert Owned(s, me, k);
    }
    forall k | Owned(s', them, k) ensures k in theirs {
      if c.List? || k != KeyOf(c) {
        assert Owned(s, them, k);
      }
    }
  }

  // What the other controller does leaves this one's territory alone, and never makes an
  // object this one's.
  lemma TheirStep(s: Store, p: Proc, a: Act, them: OwnerLabel, theirs: iset<Key>, me: OwnerLabel, mine: iset<Key>)
    requires Calls(p) || p.Fin?
    requires ProcIn(p, them, theirs) && MoveIn(a, them, theirs) && Apart(me, them) && mine !! theirs
    requires OwnedIn(s, me, mine) && OwnedIn(s, them, theirs)
    ensures Agree(s, Do(s, p, a).0, mine) && OwnedIn(Do(s, p, a).0, me, mine)
    ensures OwnedIn(Do(s, p, a).0, them, theirs) && ProcIn(Do(s, p, a).1, them, theirs)
  {
    if a.Go? && !p.Fin? {
      NextIn(p, them, theirs);
      WritesOwn(p, them, theirs);
      ExecElsewhere(s, Next(p), a.oracle, me, mine, them, theirs);
      ResumeIn(s, p, a.oracle, them, theirs);
    }
  }

  // ---- Whole schedules -----------------------------------------------------------------------------------

  ghost predicate Shared(sys: Sys, t: Store, who: bool, me: OwnerLabel, mine: iset<Key>, them: OwnerLabel, theirs: iset<Key>) {
    && Agree(sys.store, t, mine) && OwnedIn(sys.store, me, mine) && OwnedIn(t, me, mine)
    && OwnedIn(sys.store, them, theirs)
    && ProcIn(ProcOf(sys, who), me, mine) && ProcIn(ProcOf(sys, !who), them, theirs)
  }

  lemma {:induction false} Schedule(sys: Sys, t: Store, moves: seq<Move>, who: bool,
                                    me: OwnerLabel, mine: iset<Key>, them: OwnerLabel, theirs: iset<Key>)
    requires Live(sys) && Shared(sys, t, who, me, mine, them, theirs) && Apart(me, them) && mine !! theirs
    requires forall m | m in moves :: if m.who == who then MoveIn(m.act, me, mine) else MoveIn(m.act, them, theirs)
    ensures Heard(sys, moves, who) == HeardAlone(t, ProcOf(sys, who), moves, who)
    ensures ProcOf(Together(sys, moves), who) == Alone(t, ProcOf(sys, who), moves, who).1
    ensures Agree(Together(sys, moves).store, Alone(t, ProcOf(sys, who), moves, who).0, mine)
    decreases |moves|
  {
    if moves != [] {
      var m := moves[0];
      var p := ProcOf(sys, m.who);
      var next := Turn(sys, m);
      assert m in moves && forall x | x in moves[1..] :: x in moves;
      if m.who == who {
        MyStep(sys.store, t, p, m.act, me, mine);
        TheirTerritory(sys.store, p, m.act, me, mine, them, theirs);
        Schedule(next, Do(t, p, m.act).0, moves[1..], who, me, mine, them, theirs);
      } else {
        TheirStep(sys.store, p, m.act, them, theirs, me, mine);
        Schedule(next, t, moves[1..], who, me, mine, them, theirs);
      }
    }
  }

  lemma TheirTerritory(s: Store, p: Proc, a: Act, me: OwnerLabel, mine: iset<Key>, them: OwnerLabel, theirs: iset<Key>)
    requires Calls(p) || p.Fin?
    requires ProcIn(p, me, mine) && MoveIn(a, me, mine) && Apart(me, them) && mine !! theirs
    requires OwnedIn(s, me, mine) && OwnedIn(s, them, theirs)
    ensures OwnedIn(Do(s, p, a).0, them, theirs)
  {
    TheirStep(s, p, a, me, mine, them, theirs);
  }

  // Two controllers with the same owner key, different values and disjoint sets of names: in
  // any schedule of their calls, with any failures, each gets the same replies, ends in the same
  // state and leaves the same objects in its names as it would alone.
  lemma NonInterference(s: Store, moves: seq<Move>, who: bool,
                        me: OwnerLabel, mine: iset<Key>, them: OwnerLabel, theirs: iset<Key>)
    requires Apart(me, them) && mine !! theirs
    requires forall k :: !Owned(s, me, k) && !Owned(s, them, k)
    requires forall m | m in moves :: if m.who == who then MoveIn(m.act, me, mine) else MoveIn(m.act, them, theirs)
    ensures var start := Sys(s, Fin([]), Fin([]));
            var end := Together(start, moves);
            var alone := Alone(s, Fin([]), moves, who);
            && Heard(start, moves, who) == HeardAlone(s, Fin([]), moves, who)
            && ProcOf(end, who) == alone.1 && Agree(end.store, alone.0, mine)
  {
    Schedule(Sys(s, Fin([]), Fin([])), s, moves, who, me, mine, them, theirs);
  }
}
