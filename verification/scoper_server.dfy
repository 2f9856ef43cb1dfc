// The API server as the actors meet it: calls that change its store, fail, or report
// conflicts, and a ghost record that the calls made so far are those of one actor.
module ScoperServer {
  import opened Strings
  import opened Recall
  import opened ScoperTypes
  import opened ScoperActors
  import opened ScoperSolo
  import opened ScoperCleanup

  class ApiServer {
    var store: Store
    var clock: nat

    // The actor now talking to the server: how it began, the server's choices since then,
    // and where it stands.
    ghost var origin: Store
    ghost var first: Proc
    ghost var oracles: seq<Oracle>
    ghost var proc: Proc

    // Recalled is always true: it only keeps the solver from unfolding the run in every proof.
    ghost predicate Valid()
      reads this
    {
      (Calls(first) || first.Fin?)
      && forall n :: Recalled(n) ==> Run(origin, first, oracles, clock) == (store, proc)
    }

    // Still the same conversation.
    twostate predicate Continues()
      reads this
    {
      Valid() && origin == old(origin) && first == old(first) && clock == old(clock)
    }

    // The conversation of the actor that starts as p, from its beginning in this call, is over.
    twostate predicate Completed(p: Proc, outcome: Outcome)
      reads this
    {
      && clock == old(clock) && (Calls(p) || p.Fin?)
      && Run(old(store), p, oracles, clock) == (store, Fin(outcome))
    }

    constructor (initial: Store, now: nat)
      ensures store == initial && clock == now
    {
      store := initial;
      clock := now;
      origin, first, oracles, proc := initial, Fin(Success), [], Fin(Success);
    }

    ghost method Meet(p: Proc)
      requires Calls(p) || p.Fin?
      modifies this
      ensures Valid() && proc == first == p && origin == store == old(store) && clock == old(clock) && oracles == []
    {
      origin, first, oracles, proc := store, p, [], p;
    }

    // One API call: any call may fail, and a listing comes in any order.
    method Do(c: Call) returns (r: Reply)
      requires Valid() && Calls(proc) && Next(proc) == c
      modifies this
      ensures Continues() && Answers(c, r)
      ensures r == Err(Conflict) ==> c.UpdateRb? || c.PatchOwners?
      ensures proc == Resume(old(proc), r, clock)
      ensures r.GotNamespace? ==> c.name in store.namespaces && r.labels == store.namespaces[c.name]
      ensures |oracles| == |old(oracles)| + 1 && old(oracles) == oracles[..|old(oracles)|]
    {
      ghost var o;
      assert Recalled(0);
      r, o := Serve(c);
      Record(old(store), c, r, o);
    }

    ghost method Record(before: Store, c: Call, r: Reply, o: Oracle)
      requires (Calls(first) || first.Fin?) && Run(origin, first, oracles, clock) == (before, proc)
      requires Calls(proc) && Next(proc) == c && (store, r) == Exec(before, c, o)
      modifies this
      ensures Continues() && store == old(store)
      ensures proc == Resume(old(proc), r, clock) && oracles == old(oracles) + [o]
    {
      RunAppend(origin, first, oracles, o, clock);
      oracles := oracles + [o];
      proc := Resume(proc, r, clock);
    }

    method Serve(c: Call) returns (r: Reply, ghost o: Oracle)
      modifies this`store
      ensures (store, r) == Exec(old(store), c, o)
      ensures Answers(c, r) && (r == Err(Conflict) ==> c.UpdateRb? || c.PatchOwners?)
      ensures r.GotNamespace? ==> c.name in store.namespaces && r.labels == store.namespaces[c.name]
    {
      o := Answer([]);
      var fails: bool := *;
      if fails {
        o := Fault;
        r := Err(Transient);
        return;
      }
      match c {
        case GetCr(id) => r := if id in store.crs then GotCr(store.crs[id]) else Err(NotFound);
        case GetNamespace(n) =>
          r := if n in store.namespaces then GotNamespace(store.namespaces[n]) else Err(NotFound);
        case GetClusterRole(n) =>
          r := if n in store.clusterRoles then GotRole(store.clusterRoles[n]) else Err(NotFound);
        case GetRb(k) => r := if k in store.rbs then GotRb(store.rbs[k]) else Err(NotFound);
        case CreateRb(k, rb) =>
          if k in store.rbs {
            r := Err(AlreadyExists);
          } else {
            store := Put(store, k, rb.(uid := store.version));
            r := Ok;
          }
        case UpdateRb(k, rb) =>
          if k !in store.rbs {
            r := Err(NotFound);
          } else if store.rbs[k].uid != rb.uid || store.rbs[k].rv != rb.rv {
            r := Err(Conflict);
          } else {
            store := Put(store, k, rb);
            r := Ok;
          }
        case PatchOwners(k, owners) =>
          if k !in store.rbs {
            r := Err(NotFound);
          } else {
            store := Put(store, k, store.rbs[k].(owners := owners));
            r := Ok;
          }
        case DeleteRb(k) =>
          if k !in store.rbs {
            r := Err(NotFound);
          } else {
            store := store.(rbs := store.rbs - {k});
            r := Ok;
          }
        case ListManaged =>
          var order := ListKeys();
          o := Answer(order);
          r := GotList(Items(store.rbs, order));
      }
    }

    method ListKeys() returns (order: seq<Key>)
      ensures Lists(store, order)
    {
      order := [];
      var rest := set k | k in store.rbs && Managed(store.rbs[k]);
      while rest != {}
        invariant forall i, j :: 0 <= i < j < |order| ==> order[i] != order[j]
        invariant forall k :: k in order || k in rest <==> k in store.rbs && Managed(store.rbs[k])
        invariant forall k :: k in order ==> k !in rest
        decreases rest
      {
        var k :| k in rest;
        order := order + [k];
        rest := rest - {k};
      }
    }
  }

  lemma FinishedStays(s: Store, p: Proc, os: seq<Oracle>, more: seq<Oracle>, now: nat)
    requires (Calls(p) || p.Fin?) && Run(s, p, os, now).1.Fin?
    ensures Run(s, p, os + more, now) == Run(s, p, os, now)
  {
    assert os + more[..0] == os;
    for i := 0 to |more|
      invariant Run(s, p, os + more[..i], now) == Run(s, p, os, now)
    {
      RunAppend(s, p, os + more[..i], more[i], now);
      assert os + more[..i + 1] == (os + more[..i]) + [more[i]];
    }
    assert more[..|more|] == more;
  }

  // A finished fault-free run of the reconciler, however long, is the closed form.
  lemma FinishedReconcile(s: Store, t: Target, deny: DenyList, id: CrId, os: seq<Oracle>, now: nat)
    requires FaultFree(os) && Run(s, RecStart(t, deny, id), os, now).1.Fin?
    ensures var (s', outcome) := ReconcileSpec(s, t, deny, id);
            Run(s, RecStart(t, deny, id), os, now) == (s', Fin(outcome))
  {
    var more := seq(11, _ => Answer([]));
    FinishedStays(s, RecStart(t, deny, id), os, more, now);
    SoloReconcile(s, t, deny, id, os + more, now);
  }

  lemma FinishedLabel(s: Store, t: Target, deny: DenyList, ns: string, os: seq<Oracle>, now: nat)
    requires FaultFree(os) && Run(s, LabStart(t, deny, ns), os, now).1.Fin?
    ensures var (s', outcome) := LabelSpec(s, t, deny, ns);
            Run(s, LabStart(t, deny, ns), os, now) == (s', Fin(outcome))
  {
    var more := seq(6, _ => Answer([]));
    FinishedStays(s, LabStart(t, deny, ns), os, more, now);
    SoloLabel(s, t, deny, ns, os + more, now);
  }

  lemma FinishedHook(s: Store, t: Target, deny: DenyList, ns: string, name: string, dryRun: bool,
                     os: seq<Oracle>, now: nat)
    requires FaultFree(os) && Run(s, HookStart(t, deny, ns, name, dryRun), os, now).1.Fin?
    ensures Run(s, HookStart(t, deny, ns, name, dryRun), os, now)
         == (HookSpec(s, t, deny, ns, name, dryRun, now), Fin(Success))
  {
    var more := seq(4, _ => Answer([]));
    FinishedStays(s, HookStart(t, deny, ns, name, dryRun), os, more, now);
    SoloHook(s, t, deny, ns, name, dryRun, os + more, now);
  }
}
