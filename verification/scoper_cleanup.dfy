// One cleanup pass: exactly which bindings it prunes and deletes, and that the number it
// reports is the number it removed.
module ScoperCleanup {
  import opened Strings
  import opened Ownership
  import opened ScoperTypes
  import opened ScoperActors
  import opened ScoperLaws

  // ---- Conservation: under any faults -------------------------------------------------------------

  predicate KeysDistinct(todo: seq<Named>) {
    forall i, j | 0 <= i < j < |todo| :: todo[i].key != todo[j].key
  }

  predicate AllPresent(s: Store, todo: seq<Named>) {
    forall n | n in todo :: n.key in s.rbs
  }

  function Todo(at: CleanPc): seq<Named> {
    match at
    case CleanList => []
    case CleanPending(_, todo) => todo
    case CleanOwner(_, _, todo) => todo
    case CleanDelete(todo) => todo
    case CleanUpdate(_, todo) => todo
  }

  // count bindings out of total are gone, and those still to be visited are there.
  predicate Balanced(total: int, s: Store, p: Proc) {
    match p
    case Fin(o) => o.Orphans? && o.count + |s.rbs| == total
    case Clean(_, count, at) =>
      count + |s.rbs| == total && KeysDistinct(Todo(at)) && AllPresent(s, Todo(at))
    case _ => false
  }

  lemma VisitBalanced(total: int, s: Store, ts: seq<Target>, count: nat, todo: seq<Named>, now: nat)
    requires ts != [] && count + |s.rbs| == total && KeysDistinct(todo) && AllPresent(s, todo)
    ensures Balanced(total, s, Visit(ts, count, todo, now))
    decreases |todo|
  {
    if todo != [] {
      VisitBalanced(total, s, ts, count, todo[1..], now);
    }
  }

  lemma {:induction false} OfNameDistinct(items: seq<Named>, name: string)
    requires KeysDistinct(items)
    ensures KeysDistinct(OfName(items, name))
    ensures forall n :: n in OfName(items, name) <==> n in items && n.key.name == name
  {
    if items != [] {
      OfNameDistinct(items[1..], name);
      var rest := OfName(items[1..], name);
      assert forall n :: n in items[1..] ==> n.key != items[0].key;
    }
  }

  lemma DropOne(s: Store, todo: seq<Named>)
    requires todo != [] && KeysDistinct(todo) && AllPresent(s, todo)
    ensures var s' := s.(rbs := s.rbs - {todo[0].key});
            |s'.rbs| == |s.rbs| - 1 && AllPresent(s', todo[1..])
  {
    var key := todo[0].key;
    assert todo[0] in todo;
    assert (s.rbs - {key}).Keys == s.rbs.Keys - {key};
    assert |s.rbs.Keys - {key}| == |s.rbs.Keys| - 1;
    forall n | n in todo[1..] ensures n.key in s.rbs && n.key != key {}
  }

  lemma KeepAll(s: Store, s': Store)
    requires s'.rbs.Keys == s.rbs.Keys
    ensures |s'.rbs| == |s.rbs|
  {
    assert |s'.rbs| == |s'.rbs.Keys| && |s.rbs| == |s.rbs.Keys|;
  }

  lemma ListedBalanced(s: Store, order: seq<Key>, name: string)
    requires Lists(s, order)
    ensures KeysDistinct(OfName(Items(s.rbs, order), name)) && AllPresent(s, OfName(Items(s.rbs, order), name))
  {
    OfNameDistinct(Items(s.rbs, order), name);
    forall n | n in OfName(Items(s.rbs, order), name) ensures n.key in s.rbs {
      assert n in Items(s.rbs, order);
    }
  }

  lemma DeleteBalanced(total: int, s: Store, ts: seq<Target>, count: nat, todo: seq<Named>, o: Oracle, now: nat)
    requires ts != [] && todo != [] && Balanced(total, s, Clean(ts, count, CleanDelete(todo)))
    ensures var (s', p') := Step(s, Clean(ts, count, CleanDelete(todo)), o, now);
            Balanced(total, s', p')
  {
    assert todo[0] in todo;
    if o.Answer? {
      DropOne(s, todo);
      VisitBalanced(total, s.(rbs := s.rbs - {todo[0].key}), ts, count + 1, todo[1..], now);
    } else {
      VisitBalanced(total, s, ts, count, todo[1..], now);
    }
  }

  lemma UpdateBalanced(total: int, s: Store, ts: seq<Target>, count: nat, valid: seq<OwnerEntry>, todo: seq<Named>,
                       o: Oracle, now: nat)
    requires ts != [] && todo != [] && Balanced(total, s, Clean(ts, count, CleanUpdate(valid, todo)))
    ensures var (s', p') := Step(s, Clean(ts, count, CleanUpdate(valid, todo)), o, now);
            Balanced(total, s', p')
  {
    var s' := Step(s, Clean(ts, count, CleanUpdate(valid, todo)), o, now).0;
    assert todo[0] in todo;
    assert s'.rbs.Keys == s.rbs.Keys;
    KeepAll(s, s');
    VisitBalanced(total, s', ts, count, todo[1..], now);
  }

  lemma ListBalanced(total: int, s: Store, ts: seq<Target>, count: nat, o: Oracle, now: nat)
    requires ts != [] && Balanced(total, s, Clean(ts, count, CleanList))
    ensures var (s', p') := Step(s, Clean(ts, count, CleanList), o, now);
            Balanced(total, s', p')
  {
    if o.Answer? && Lists(s, o.order) {
      ListedBalanced(s, o.order, ts[0].rbName);
      VisitBalanced(total, s, ts, count, OfName(Items(s.rbs, o.order), ts[0].rbName), now);
    }
  }

  lemma LookupBalanced(total: int, s: Store, p: Proc, o: Oracle, now: nat)
    requires p.Clean? && Calls(p) && Balanced(total, s, p) && (p.clean.CleanPending? || p.clean.CleanOwner?)
    ensures Balanced(total, Step(s, p, o, now).0, Step(s, p, o, now).1)
  {
    var r := Exec(s, Next(p), o).1;
    assert Exec(s, Next(p), o).0 == s;
    VisitBalanced(total, s, p.ts, p.count, p.clean.todo[1..], now);
    LookedUpBalanced(total, s, p.ts, p.count, p.clean, r, now);
  }

  lemma LookedUpBalanced(total: int, s: Store, ts: seq<Target>, count: nat, at: CleanPc, r: Reply, now: nat)
    requires Calls(Clean(ts, count, at)) && Balanced(total, s, Clean(ts, count, at))
    requires at.CleanPending? || at.CleanOwner?
    requires Balanced(total, s, Visit(ts, count, at.todo[1..], now))
    ensures Balanced(total, s, ResumeClean(ts, count, at, r, now))
  {}

  lemma StepBalanced(total: int, s: Store, p: Proc, o: Oracle, now: nat)
    requires p.Clean? && Calls(p) && Balanced(total, s, p)
    ensures Balanced(total, Step(s, p, o, now).0, Step(s, p, o, now).1)
  {
    match p.clean
    case CleanList => ListBalanced(total, s, p.ts, p.count, o, now);
    case CleanDelete(todo) => DeleteBalanced(total, s, p.ts, p.count, todo, o, now);
    case CleanUpdate(valid, todo) => UpdateBalanced(total, s, p.ts, p.count, valid, todo, o, now);
    case _ => LookupBalanced(total, s, p, o, now);
  }

  lemma {:induction false} RunBalanced(total: int, s: Store, p: Proc, os: seq<Oracle>, now: nat)
    requires (p.Clean? && Calls(p)) || p.Fin?
    requires Balanced(total, s, p)
    ensures Balanced(total, Run(s, p, os, now).0, Run(s, p, os, now).1)
    decreases |os|
  {
    if os != [] && !p.Fin? {
      StepBalanced(total, s, p, os[0], now);
      var (s', p') := Step(s, p, os[0], now);
      RunBalanced(total, s', p', os[1..], now);
    }
  }

  // The reported total is the number of bindings removed, over all targets and listings,
  // whatever calls fail on the way.
  lemma ReportedIsRemoved(s: Store, ts: seq<Target>, os: seq<Oracle>, now: nat)
    requires Run(s, CleanStart(ts), os, now).1.Fin?
    ensures var (s', p') := Run(s, CleanStart(ts), os, now);
            p'.outcome.Orphans? && p'.outcome.count == |s.rbs| - |s'.rbs|
  {
    RunBalanced(|s.rbs|, s, CleanStart(ts), os, now);
  }

  // ---- The verdict on each binding -------------------------------------------------------------------

  predicate OwnerLive(s: Store, t: Target, e: OwnerEntry, ns: string) {
    var id := CrId(t.gvk, e.ns, e.name);
    id in s.crs && s.crs[id].uid == e.uid && (t.nsField.Some? ==> Field(s.crs[id], t.nsField.value) == Some(ns))
  }

  function LiveOnes(s: Store, t: Target, ns: string, es: seq<OwnerEntry>): seq<OwnerEntry> {
    if es == [] then []
    else (if OwnerLive(s, t, es[0], ns) then [es[0]] else []) + LiveOnes(s, t, ns, es[1..])
  }

  datatype Verdict = Keep | Prune(valid: seq<OwnerEntry>) | Drop

  // A pending binding is dropped when its time is up and its CR is not there; another one is
  // cut down to its live owners, and dropped when it had owners and none is live.
  function VerdictOn(s: Store, t: Target, now: nat, key: Key, rb: RoleBinding): Verdict {
    if PENDING_KEY in rb.annotations then
      match ParsePending(rb.annotations[PENDING_KEY])
      case None => Keep
      case Some(p) => if Expired(p, now) && CrId(t.gvk, p.ns, p.name) !in s.crs then Drop else Keep
    else
      var live := LiveOnes(s, t, key.ns, Entries(rb));
      if |live| == |Entries(rb)| then Keep else if live == [] then Drop else Prune(live)
  }

  // Binding key after verdict v.
  predicate Ruled(s: Store, s': Store, key: Key, v: Verdict)
    requires key in s.rbs
  {
    match v
    case Keep => key in s'.rbs && s'.rbs[key] == s.rbs[key]
    case Drop => key !in s'.rbs
    case Prune(valid) =>
      key in s'.rbs && s'.rbs[key] == WithEntries(s.rbs[key], valid).(rv := s'.rbs[key].rv)
  }

  predicate Same(s: Store, s': Store, key: Key) {
    (key in s.rbs <==> key in s'.rbs) && (key in s.rbs ==> s'.rbs[key] == s.rbs[key])
  }

  // s' is s with one target cleaned.
  ghost predicate Cleaned(s: Store, t: Target, now: nat, s': Store) {
    && SameWorld(s, s')
    && forall k ::
         if k in s.rbs && k.name == t.rbName && Managed(s.rbs[k])
         then Ruled(s, s', k, VerdictOn(s, t, now, k, s.rbs[k]))
         else Same(s, s', k)
  }

  ghost predicate CleanedAll(s: Store, ts: seq<Target>, now: nat, s': Store)
    decreases |ts|
  {
    if ts == [] then s' == s
    else exists mid :: Cleaned(s, ts[0], now, mid) && CleanedAll(mid, ts[1..], now, s')
  }

  // The run from p comes to its end, and no call fails but for a missing object.
  ghost predicate Healthy(s: Store, p: Proc, os: seq<Oracle>, now: nat)
    requires Calls(p) || p.Fin?
    decreases |os|
  {
    p.Fin? || (os != [] && Exec(s, Next(p), os[0]).1 != Err(Transient)
               && Healthy(Step(s, p, os[0], now).0, Step(s, p, os[0], now).1, os[1..], now))
  }

  // ---- The pass, binding by binding ---------------------------------------------------------------------

  lemma {:induction false} LiveOnesShort(s: Store, t: Target, ns: string, es: seq<OwnerEntry>)
    ensures |LiveOnes(s, t, ns, es)| <= |es|
    ensures forall e :: e in LiveOnes(s, t, ns, es) <==> e in es && OwnerLive(s, t, e, ns)
    ensures |LiveOnes(s, t, ns, es)| == |es| ==> LiveOnes(s, t, ns, es) == es
  {
    if es != [] {
      LiveOnesShort(s, t, ns, es[1..]);
    }
  }

  lemma {:induction false} OwnersLoop(s: Store, ts: seq<Target>, count: nat, left: seq<OwnerEntry>,
                                      valid: seq<OwnerEntry>, todo: seq<Named>, os: seq<Oracle>, now: nat)
    requires ts != [] && todo != [] && left != []
    requires Healthy(s, Clean(ts, count, CleanOwner(left, valid, todo)), os, now)
    ensures var p := OwnersLeft(ts, count, [], valid + LiveOnes(s, ts[0], todo[0].key.ns, left), todo, now);
            && |left| <= |os|
            && Healthy(s, p, os[|left|..], now)
            && Run(s, Clean(ts, count, CleanOwner(left, valid, todo)), os, now) == Run(s, p, os[|left|..], now)
    decreases |left|
  {
    var p := Clean(ts, count, CleanOwner(left, valid, todo));
    var (s', p') := Step(s, p, os[0], now);
    assert s' == s && Run(s, p, os, now) == Run(s, p', os[1..], now);
    var live := OwnerLive(s, ts[0], left[0], todo[0].key.ns);
    var valid' := if live then valid + [left[0]] else valid;
    assert valid + LiveOnes(s, ts[0], todo[0].key.ns, left)
        == valid' + LiveOnes(s, ts[0], todo[0].key.ns, left[1..]);
    if |left| > 1 {
      OwnersLoop(s, ts, count, left[1..], valid', todo, os[1..], now);
      assert os[1..][|left[1..]|..] == os[|left|..];
    } else {
      assert LiveOnes(s, ts[0], todo[0].key.ns, left[1..]) == [];
      assert valid' + [] == valid';
    }
  }

  // One visited binding is ruled by its verdict; the rest of the store stays.
  ghost predicate Visited(s: Store, s': Store, t: Target, now: nat, n: Named) {
    && SameWorld(s, s') && n.key in s.rbs
    && Ruled(s, s', n.key, VerdictOn(s, t, now, n.key, n.rb))
    && forall k | k != n.key :: Same(s, s', k)
  }

  lemma DeleteItem(s: Store, ts: seq<Target>, count: nat, todo: seq<Named>, os: seq<Oracle>, now: nat)
    requires ts != [] && todo != [] && todo[0].key in s.rbs
    requires Healthy(s, Clean(ts, count, CleanDelete(todo)), os, now)
    ensures var s' := s.(rbs := s.rbs - {todo[0].key});
            && os != []
            && Healthy(s', Visit(ts, count + 1, todo[1..], now), os[1..], now)
            && Run(s, Clean(ts, count, CleanDelete(todo)), os, now)
            == Run(s', Visit(ts, count + 1, todo[1..], now), os[1..], now)
  {}

  lemma UpdateItem(s: Store, ts: seq<Target>, count: nat, valid: seq<OwnerEntry>, todo: seq<Named>,
                   os: seq<Oracle>, now: nat)
    requires ts != [] && todo != [] && todo[0].key in s.rbs && s.rbs[todo[0].key] == todo[0].rb
    requires Healthy(s, Clean(ts, count, CleanUpdate(valid, todo)), os, now)
    ensures var s' := Put(s, todo[0].key, WithEntries(todo[0].rb, valid));
            && os != []
            && Healthy(s', Visit(ts, count, todo[1..], now), os[1..], now)
            && Run(s, Clean(ts, count, CleanUpdate(valid, todo)), os, now)
            == Run(s', Visit(ts, count, todo[1..], now), os[1..], now)
  {}

  lemma DropVisited(s: Store, t: Target, now: nat, n: Named)
    requires n.key in s.rbs && VerdictOn(s, t, now, n.key, n.rb) == Drop
    ensures Visited(s, s.(rbs := s.rbs - {n.key}), t, now, n)
  {}

  lemma PruneVisited(s: Store, t: Target, now: nat, n: Named, live: seq<OwnerEntry>)
    requires n.key in s.rbs && s.rbs[n.key] == n.rb && VerdictOn(s, t, now, n.key, n.rb) == Prune(live)
    ensures Visited(s, Put(s, n.key, WithEntries(n.rb, live)), t, now, n)
  {}

  lemma OwnersItem(s: Store, ts: seq<Target>, count: nat, todo: seq<Named>, os: seq<Oracle>, now: nat)
    returns (s': Store, count': nat, os': seq<Oracle>)
    requires ts != [] && todo != [] && todo[0].key in s.rbs && s.rbs[todo[0].key] == todo[0].rb
    requires PENDING_KEY !in todo[0].rb.annotations && Entries(todo[0].rb) != []
    requires Healthy(s, Visit(ts, count, todo, now), os, now)
    ensures Visited(s, s', ts[0], now, todo[0])
    ensures Healthy(s', Visit(ts, count', todo[1..], now), os', now)
    ensures Run(s, Visit(ts, count, todo, now), os, now) == Run(s', Visit(ts, count', todo[1..], now), os', now)
  {
    var n := todo[0];
    var es := Entries(n.rb);
    var live := LiveOnes(s, ts[0], n.key.ns, es);
    var p := Clean(ts, count, CleanOwner(es, [], todo));
    assert Visit(ts, count, todo, now) == p;
    OwnersLoop(s, ts, count, es, [], todo, os, now);
    assert [] + live == live;
    s', count', os' := s, count, os[|es|..];
    if |live| == |es| {
      assert VerdictOn(s, ts[0], now, n.key, n.rb) == Keep;
    } else if live == [] {
      assert VerdictOn(s, ts[0], now, n.key, n.rb) == Drop;
      assert OwnersLeft(ts, count, [], live, todo, now) == Clean(ts, count, CleanDelete(todo));
      DeleteItem(s, ts, count, todo, os', now);
      DropVisited(s, ts[0], now, n);
      s', count', os' := s.(rbs := s.rbs - {n.key}), count + 1, os'[1..];
    } else {
      assert VerdictOn(s, ts[0], now, n.key, n.rb) == Prune(live);
      assert OwnersLeft(ts, count, [], live, todo, now) == Clean(ts, count, CleanUpdate(live, todo));
      UpdateItem(s, ts, count, live, todo, os', now);
      PruneVisited(s, ts[0], now, n, live);
      s', os' := Put(s, n.key, WithEntries(n.rb, live)), os'[1..];
    }
  }

  lemma OneItem(s: Store, ts: seq<Target>, count: nat, todo: seq<Named>, os: seq<Oracle>, now: nat)
    returns (s': Store, count': nat, os': seq<Oracle>)
    requires ts != [] && todo != [] && todo[0].key in s.rbs && s.rbs[todo[0].key] == todo[0].rb
    requires Healthy(s, Visit(ts, count, todo, now), os, now)
    ensures Visited(s, s', ts[0], now, todo[0])
    ensures Healthy(s', Visit(ts, count', todo[1..], now), os', now)
    ensures Run(s, Visit(ts, count, todo, now), os, now) == Run(s', Visit(ts, count', todo[1..], now), os', now)
  {
    var n := todo[0];
    s', count', os' := s, count, os;
    if PENDING_KEY in n.rb.annotations {
      var parsed := ParsePending(n.rb.annotations[PENDING_KEY]);
      if parsed.Some? && Expired(parsed.value, now) {
        var p := Clean(ts, count, CleanPending(parsed.value, todo));
        assert Visit(ts, count, todo, now) == p;
        assert Run(s, p, os, now) == Run(Step(s, p, os[0], now).0, Step(s, p, os[0], now).1, os[1..], now);
        os' := os[1..];
        if CrId(ts[0].gvk, parsed.value.ns, parsed.value.name) !in s.crs {
          DeleteItem(s, ts, count, todo, os', now);
          s', count', os' := s.(rbs := s.rbs - {n.key}), count + 1, os'[1..];
        }
      }
    } else if Entries(n.rb) != [] {
      s', count', os' := OwnersItem(s, ts, count, todo, os, now);
    } else {
      assert LiveOnes(s, ts[0], n.key.ns, Entries(n.rb)) == [];
    }
  }

  // The listed bindings still to be visited are as they were listed.
  predicate Untouched(s: Store, todo: seq<Named>) {
    forall n | n in todo :: n.key in s.rbs && s.rbs[n.key] == n.rb
  }

  // The visited bindings are ruled by their verdicts; the rest of the store stays.
  ghost predicate AllVisited(s: Store, s': Store, t: Target, now: nat, todo: seq<Named>) {
    && SameWorld(s, s')
    && (forall n | n in todo :: n.key in s.rbs && Ruled(s, s', n.key, VerdictOn(s, t, now, n.key, n.rb)))
    && (forall k | (forall n | n in todo :: n.key != k) :: Same(s, s', k))
  }

  lemma VerdictWorld(s: Store, u: Store, t: Target, now: nat, key: Key, rb: RoleBinding)
    requires SameWorld(s, u)
    ensures VerdictOn(s, t, now, key, rb) == VerdictOn(u, t, now, key, rb)
  {
    LiveWorld(s, u, t, key.ns, Entries(rb));
  }

  lemma {:induction false} LiveWorld(s: Store, u: Store, t: Target, ns: string, es: seq<OwnerEntry>)
    requires SameWorld(s, u)
    ensures LiveOnes(s, t, ns, es) == LiveOnes(u, t, ns, es)
  {
    if es != [] {
      LiveWorld(s, u, t, ns, es[1..]);
    }
  }

  lemma JoinVisits(s: Store, mid: Store, s': Store, t: Target, now: nat, todo: seq<Named>)
    requires todo != [] && KeysDistinct(todo) && Untouched(s, todo)
    requires Visited(s, mid, t, now, todo[0]) && AllVisited(mid, s', t, now, todo[1..])
    ensures AllVisited(s, s', t, now, todo)
  {
    forall n | n in todo ensures n.key in s.rbs && Ruled(s, s', n.key, VerdictOn(s, t, now, n.key, n.rb)) {
      VerdictWorld(s, mid, t, now, n.key, n.rb);
      if n == todo[0] {
        assert forall m | m in todo[1..] :: m.key != n.key;
        assert Same(mid, s', n.key);
      } else {
        assert n in todo[1..];
        assert n.key != todo[0].key;
        assert Same(s, mid, n.key);
      }
    }
    forall k | (forall n | n in todo :: n.key != k) ensures Same(s, s', k) {
      assert todo[0] in todo;
      assert Same(s, mid, k);
      assert forall n | n in todo[1..] :: n in todo;
      assert Same(mid, s', k);
    }
  }

  lemma {:induction false} AllItems(s: Store, ts: seq<Target>, count: nat, todo: seq<Named>, os: seq<Oracle>, now: nat)
    returns (s': Store, count': nat, os': seq<Oracle>)
    requires ts != [] && KeysDistinct(todo) && Untouched(s, todo)
    requires Healthy(s, Visit(ts, count, todo, now), os, now)
    ensures AllVisited(s, s', ts[0], now, todo)
    ensures Healthy(s', NextTarget(ts, count'), os', now)
    ensures Run(s, Visit(ts, count, todo, now), os, now) == Run(s', NextTarget(ts, count'), os', now)
    decreases |todo|
  {
    if todo == [] {
      s', count', os' := s, count, os;
    } else {
      assert todo[0] in todo;
      var mid, c, rest := OneItem(s, ts, count, todo, os, now);
      forall n | n in todo[1..] ensures n.key in mid.rbs && mid.rbs[n.key] == n.rb {
        assert n in todo && n.key != todo[0].key;
        assert Same(s, mid, n.key);
      }
      s', count', os' := AllItems(mid, ts, c, todo[1..], rest, now);
      JoinVisits(s, mid, s', ts[0], now, todo);
    }
  }

  lemma {:induction false} OneTarget(s: Store, ts: seq<Target>, count: nat, os: seq<Oracle>, now: nat)
    returns (s': Store, count': nat, os': seq<Oracle>)
    requires ts != [] && Healthy(s, Clean(ts, count, CleanList), os, now)
    ensures Cleaned(s, ts[0], now, s')
    ensures Healthy(s', NextTarget(ts, count'), os', now)
    ensures Run(s, Clean(ts, count, CleanList), os, now) == Run(s', NextTarget(ts, count'), os', now)
  {
    var p := Clean(ts, count, CleanList);
    var items := Items(s.rbs, os[0].order);
    var todo := OfName(items, ts[0].rbName);
    assert Exec(s, Next(p), os[0]) == (s, GotList(items));
    assert Run(s, p, os, now) == Run(s, Visit(ts, count, todo, now), os[1..], now);
    OfNameDistinct(items, ts[0].rbName);
    s', count', os' := AllItems(s, ts, count, todo, os[1..], now);
    forall k ensures
      if k in s.rbs && k.name == ts[0].rbName && Managed(s.rbs[k])
      then Ruled(s, s', k, VerdictOn(s, ts[0], now, k, s.rbs[k])) else Same(s, s', k)
    {
      if k in s.rbs && k.name == ts[0].rbName && Managed(s.rbs[k]) {
        assert k in os[0].order;
        var i :| 0 <= i < |os[0].order| && os[0].order[i] == k;
        assert items[i] == Named(k, s.rbs[k]) && items[i] in items;
        assert Named(k, s.rbs[k]) in todo;
      } else {
        forall n | n in todo ensures n.key != k {
          assert n in items;
        }
      }
    }
  }

  // A cleanup pass without faults treats every managed binding of every target exactly by
  // its verdict, touches nothing else, and reports what it removed.
  lemma {:induction false} CleanupExact(s: Store, ts: seq<Target>, count: nat, os: seq<Oracle>, now: nat)
    requires ts != [] && Healthy(s, Clean(ts, count, CleanList), os, now)
    ensures CleanedAll(s, ts, now, Run(s, Clean(ts, count, CleanList), os, now).0)
    ensures Run(s, Clean(ts, count, CleanList), os, now).1.Fin?
    decreases |ts|
  {
    var mid, c, rest := OneTarget(s, ts, count, os, now);
    if |ts| == 1 {
      assert CleanedAll(mid, ts[1..], now, mid);
    } else {
      CleanupExact(mid, ts[1..], c, rest, now);
    }
  }

  // ---- A pass can always be completed ------------------------------------------------------------------

  lemma {:induction false} Enumerate(keys: set<Key>) returns (order: seq<Key>)
    ensures forall i, j :: 0 <= i < j < |order| ==> order[i] != order[j]
    ensures forall k :: k in order <==> k in keys
    decreases |keys|
  {
    if keys == {} {
      order := [];
    } else {
      var k :| k in keys;
      var rest := Enumerate(keys - {k});
      order := [k] + rest;
    }
  }

  function Rank(at: CleanPc): nat {
    match at
    case CleanPending(_, _) => 1
    case CleanOwner(left, _, _) => |left|
    case _ => 0
  }

  // From any state of the pass there is a fault-free course of replies that ends it.
  lemma {:induction false} PassEnds(s: Store, p: Proc, now: nat) returns (os: seq<Oracle>)
    requires (p.Clean? && Calls(p)) || p.Fin?
    ensures Healthy(s, p, os, now)
    decreases if p.Clean? then |p.ts| else 0,
              if p.Clean? && p.clean.CleanList? then 1 else 0,
              if p.Clean? then |Todo(p.clean)| else 0,
              if p.Clean? then Rank(p.clean) else 0
  {
    if p.Fin? {
      os := [];
    } else {
      var order := Enumerate(set k | k in s.rbs && Managed(s.rbs[k]));
      var o := Answer(order);
      var (s', p') := Step(s, p, o, now);
      StepSmaller(s, p, o, now);
      var rest := PassEnds(s', p', now);
      os := [o] + rest;
      assert os[1..] == rest;
    }
  }

  lemma VisitSmaller(ts: seq<Target>, count: nat, todo: seq<Named>, now: nat)
    requires ts != []
    ensures var q := Visit(ts, count, todo, now);
            q.Clean? ==> |q.ts| < |ts| || (q.ts == ts && !q.clean.CleanList? && |Todo(q.clean)| <= |todo|)
    decreases |todo|
  {
    if todo != [] {
      VisitSmaller(ts, count, todo[1..], now);
    }
  }

  lemma StepSmaller(s: Store, p: Proc, o: Oracle, now: nat)
    requires p.Clean? && Calls(p)
    ensures var q := Step(s, p, o, now).1;
            q.Clean? ==>
              || |q.ts| < |p.ts|
              || (|q.ts| == |p.ts| && !q.clean.CleanList? && p.clean.CleanList?)
              || (|q.ts| == |p.ts| && !q.clean.CleanList? && |Todo(q.clean)| < |Todo(p.clean)|)
              || (|q.ts| == |p.ts| && !q.clean.CleanList? && |Todo(q.clean)| == |Todo(p.clean)|
                  && Rank(q.clean) < Rank(p.clean))
  {
    var r := Exec(s, Next(p), o).1;
    if p.clean.CleanList? {
      if r.GotList? {
        VisitSmaller(p.ts, p.count, OfName(r.items, p.ts[0].rbName), now);
      }
    } else {
      VisitSmaller(p.ts, p.count, Todo(p.clean)[1..], now);
      VisitSmaller(p.ts, p.count + 1, Todo(p.clean)[1..], now);
    }
  }
}
