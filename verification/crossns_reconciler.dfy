// pkg/crossns/reconciler.go: the methods of Reconciler, call by call.
module CrossnsReconciler {
  import opened Rbac
  import opened Recall
  import opened CrossnsProgram
  import opened CrossnsApply
  import opened CrossnsCalls

  // The API server as a Reconciler meets it, with a ghost record that the calls made so far
  // are those of one run of Apply or Teardown.
  class Cluster {
    var store: Store

    ghost var origin: Store
    ghost var first: Proc
    ghost var oracles: seq<Oracle>
    ghost var proc: Proc

    // Recalled is always true: it only keeps the solver from unfolding the run in every proof.
    ghost predicate Valid()
      reads this
    {
      (Calls(first) || first.Fin?)
      && forall n :: Recalled(n) ==> Run(origin, first, oracles) == (store, proc)
    }

    // Still the same conversation.
    twostate predicate Continues()
      reads this
    {
      Valid() && origin == old(origin) && first == old(first)
    }

    // The run that starts as p, from its beginning in this call, is over.
    twostate predicate Completed(p: Proc, errs: seq<Failure>)
      reads this
    {
      (Calls(p) || p.Fin?) && Run(old(store), p, oracles) == (store, Fin(errs))
    }

    constructor (initial: Store)
      ensures store == initial
    {
      store := initial;
      origin, first, oracles, proc := initial, Fin([]), [], Fin([]);
    }

    ghost method Meet(p: Proc)
      requires Calls(p) || p.Fin?
      modifies this
      ensures Valid() && proc == first == p && origin == store == old(store) && oracles == []
    {
      origin, first, oracles, proc := store, p, [], p;
    }

    // One API call: any call may fail, and a listing comes in any order.
    method Do(c: Call) returns (r: Reply)
      requires Valid() && Calls(proc) && Next(proc) == c
      modifies this
      ensures Continues() && Answers(c, r) && (r == Err(Conflict) ==> c.Update?)
      ensures proc == Resume(old(proc), r)
    {
      ghost var o;
      assert Recalled(0);
      r, o := Serve(c);
      Record(old(store), c, r, o);
    }

    ghost method Record(before: Store, c: Call, r: Reply, o: Oracle)
      requires (Calls(first) || first.Fin?) && Run(origin, first, oracles) == (before, proc)
      requires Calls(proc) && Next(proc) == c && (store, r) == Exec(before, c, o)
      modifies this
      ensures Continues() && store == old(store) && proc == Resume(old(proc), r)
    {
      RunAppend(origin, first, oracles, o);
      oracles := oracles + [o];
      proc := Resume(proc, r);
    }

    method Serve(c: Call) returns (r: Reply, ghost o: Oracle)
      modifies this`store
      ensures (store, r) == Exec(old(store), c, o)
      ensures Answers(c, r) && (r == Err(Conflict) ==> c.Update?)
    {
      o := Answer([]);
      var fails: bool := *;
      if fails {
        o := Fault;
        r := Err(Transient);
        return;
      }
      match c {
        case Get(k) => r := if k in store.objs then Got(store.objs[k]) else Err(NotFound);
        case Create(k, obj) =>
          if '/' in k.ns {
            r := Err(Transient);
          } else if k in store.objs {
            r := Err(AlreadyExists);
          } else {
            store := Put(store, k, obj);
            r := Ok;
          }
        case Update(k, obj) =>
          if k !in store.objs {
            r := Err(NotFound);
          } else if store.objs[k].rv != obj.rv {
            r := Err(Conflict);
          } else {
            store := Put(store, k, obj);
            r := Ok;
          }
        case Delete(k) =>
          if k !in store.objs {
            r := Err(NotFound);
          } else {
            store := store.(objs := store.objs - {k});
            r := Ok;
          }
        case List(kind, selector) =>
          var order := ListKeys(kind, selector);
          o := Answer(order);
          r := Listed(order);
      }
    }

    method ListKeys(kind: Kind, selector: map<string, string>) returns (order: seq<Key>)
      ensures Lists(store, kind, selector, order)
    {
      order := [];
      var rest := set k | k in store.objs && k.kind == kind && Matches(store.objs[k].labels, selector);
      while rest != {}
        invariant forall i, j :: 0 <= i < j < |order| ==> order[i] != order[j]
        invariant forall k :: k in order || k in rest <==>
                    k in store.objs && k.kind == kind && Matches(store.objs[k].labels, selector)
        invariant forall k :: k in order ==> k !in rest
        decreases rest
      {
        var k :| k in rest;
        order := order + [k];
        rest := rest - {k};
      }
    }
  }

  // The two loops of mergeLabels: the additional labels win.
  method MergeLabels(existing: map<string, string>, additional: map<string, string>) returns (out: map<string, string>)
    ensures out == existing + additional
  {
    out := map[];
    out := CopyInto(out, existing);
    out := CopyInto(out, additional);
  }

  method CopyInto(into: map<string, string>, from: map<string, string>) returns (out: map<string, string>)
    ensures out == into + from
  {
    out := into;
    var rest := from.Keys;
    while rest != {}
      invariant rest <= from.Keys
      invariant out == into + map k | k in from && k !in rest :: from[k]
      decreases rest
    {
      var k :| k in rest;
      out := out[k := from[k]];
      rest := rest - {k};
    }
  }

  class Reconciler {
    const api: Cluster
    const owner: OwnerLabel

    constructor (api: Cluster, owner: OwnerLabel)
      ensures this.api == api && this.owner == owner
    {
      this.api := api;
      this.owner := owner;
    }

    // Every Apply, whatever fails, is a run of the program, so what is proved of its runs
    // holds of this method: it returns nil exactly when errs is empty.
    method Apply(subject: SubjectRef, sets: seq<RuleSet>) returns (errs: seq<Failure>)
      modifies api
      ensures api.Completed(ApplyStart(Job(owner, subject, sets)), errs)
      ensures errs == [] && StoreClean(old(api.store)) ==>
                forall k :: Settled(old(api.store), api.store, Job(owner, subject, sets), [], k)
    {
      ghost var job := Job(owner, subject, sets);
      api.Meet(ApplyStart(job));
      var valid := Validate(subject, sets);
      if !valid {
        assert Recalled(0);
        return [Invalid];
      }
      errs := ApplySets(subject, sets);
      assert Recalled(0);
      if errs == [] && StoreClean(old(api.store)) {
        forall k ensures Settled(old(api.store), api.store, job, [], k) {
          ApplyExact(old(api.store), job, api.oracles, k);
        }
      }
    }

    method Validate(subject: SubjectRef, sets: seq<RuleSet>) returns (ok: bool)
      ensures ok <==> ValidJob(Job(owner, subject, sets))
    {
      if subject.name == "" {
        return false;
      }
      for i := 0 to |sets|
        invariant forall j | 0 <= j < i :: sets[j].roleName != "" && sets[j].ns != ""
      {
        if sets[i].roleName == "" {
          return false;
        }
        if sets[i].ns == "" {
          return false;
        }
      }
      return true;
    }

    method ApplySets(subject: SubjectRef, sets: seq<RuleSet>) returns (errs: seq<Failure>)
      requires api.Valid() && api.proc == ApplyFrom(Job(owner, subject, sets), 0)
      modifies api
      ensures api.Continues() && api.proc == Fin(errs)
    {
      ghost var job := Job(owner, subject, sets);
      var desired: set<string> := {};
      for i := 0 to |sets|
        invariant api.Continues() && api.proc == ApplyFrom(job, i)
        invariant desired == Desired(sets[..i])
      {
        assert sets[..i + 1] == sets[..i] + [sets[i]];
        errs := ApplyOne(subject, sets, i);
        if errs != [] {
          return;
        }
        desired := desired + {DesiredKey(sets[i].ns, sets[i].roleName)};
      }
      assert sets[..|sets|] == sets;
      errs := Gc(job, desired);
    }

    // Sweeps for an empty desired set.
    method Teardown() returns (errs: seq<Failure>)
      modifies api
      ensures api.Completed(TeardownStart(owner), errs)
      ensures errs == [] && StoreClean(old(api.store)) ==>
                forall k :: if Owned(old(api.store), owner, k) then k !in api.store.objs else Same(old(api.store), api.store, k)
    {
      api.Meet(TeardownStart(owner));
      errs := Gc(TeardownStart(owner).job, {});
      assert Recalled(0);
      if errs == [] && StoreClean(old(api.store)) {
        forall k
          ensures if Owned(old(api.store), owner, k) then k !in api.store.objs else Same(old(api.store), api.store, k)
        {
          TeardownExact(old(api.store), owner, api.oracles, k);
        }
      }
    }

    // ---- Applying one rule set -----------------------------------------------------------------

    method ApplyOne(subject: SubjectRef, sets: seq<RuleSet>, i: nat) returns (errs: seq<Failure>)
      requires i < |sets| && api.Valid() && api.proc == At(Job(owner, subject, sets), RoleGet(i, 1))
      modifies api
      ensures api.Continues()
      ensures api.proc == if errs == [] then ApplyFrom(Job(owner, subject, sets), i + 1) else Fin(errs)
    {
      errs := ApplyRole(subject, sets, i);
      if errs != [] {
        return;
      }
      errs := ApplyRoleBinding(subject, sets, i);
    }

    method ApplyRole(subject: SubjectRef, sets: seq<RuleSet>, i: nat) returns (errs: seq<Failure>)
      requires i < |sets| && api.Valid() && api.proc == At(Job(owner, subject, sets), RoleGet(i, 1))
      modifies api
      ensures api.Continues()
      ensures api.proc == if errs == [] then At(Job(owner, subject, sets), BindingGet(i, 1)) else Fin(errs)
    {
      ghost var job := Job(owner, subject, sets);
      var n := 1;
      var r := TryRole(subject, sets, i, n);
      while r == Err(Conflict) && n < MAX_TRIES
        invariant 1 <= n <= MAX_TRIES && api.Continues() && (r.Ok? || r.Err?)
        invariant api.proc == if r.Ok? then At(job, BindingGet(i, 1))
                              else if r == Err(Conflict) && n < MAX_TRIES then At(job, RoleGet(i, n + 1))
                              else Fin([ApplyFailed(RoleKey(sets[i]))])
      {
        n := n + 1;
        r := TryRole(subject, sets, i, n);
      }
      return if r.Ok? then [] else [ApplyFailed(RoleKey(sets[i]))];
    }

    method TryRole(subject: SubjectRef, sets: seq<RuleSet>, i: nat, n: nat) returns (r: Reply)
      requires i < |sets| && 1 <= n <= MAX_TRIES
      requires api.Valid() && api.proc == At(Job(owner, subject, sets), RoleGet(i, n))
      modifies api
      ensures api.Continues() && (r.Ok? || r.Err?)
      ensures var job := Job(owner, subject, sets);
              api.proc == if r.Ok? then At(job, BindingGet(i, 1))
                          else if r == Err(Conflict) && n < MAX_TRIES then At(job, RoleGet(i, n + 1))
                          else Fin([ApplyFailed(RoleKey(sets[i]))])
    {
      var rs := sets[i];
      var key := RoleKey(rs);
      var desired := Obj(ManagedLabels(owner), Rules(rs.rules), 0);
      r := api.Do(Get(key));
      if r == Err(NotFound) {
        r := api.Do(Create(key, desired));
        return if r == Err(AlreadyExists) then Ok else r;
      }
      if r.Err? {
        return;
      }
      var existing := r.obj;
      var labels := MergeLabels(existing.labels, desired.labels);
      if existing.body == desired.body && existing.labels == labels {
        return Ok;
      }
      r := api.Do(Update(key, existing.(labels := labels, body := desired.body)));
    }

    method ApplyRoleBinding(subject: SubjectRef, sets: seq<RuleSet>, i: nat) returns (errs: seq<Failure>)
      requires i < |sets| && api.Valid() && api.proc == At(Job(owner, subject, sets), BindingGet(i, 1))
      modifies api
      ensures api.Continues()
      ensures api.proc == if errs == [] then ApplyFrom(Job(owner, subject, sets), i + 1) else Fin(errs)
    {
      ghost var job := Job(owner, subject, sets);
      var n := 1;
      var r := TryBinding(subject, sets, i, n);
      while r == Err(Conflict) && n < MAX_TRIES
        invariant 1 <= n <= MAX_TRIES && api.Continues() && (r.Ok? || r.Err?)
        invariant api.proc == if r.Ok? then ApplyFrom(job, i + 1)
                              else if r == Err(Conflict) && n < MAX_TRIES then At(job, BindingGet(i, n + 1))
                              else Fin([ApplyFailed(BindingKey(sets[i]))])
      {
        n := n + 1;
        r := TryBinding(subject, sets, i, n);
      }
      return if r.Ok? then [] else [ApplyFailed(BindingKey(sets[i]))];
    }

    method TryBinding(subject: SubjectRef, sets: seq<RuleSet>, i: nat, n: nat) returns (r: Reply)
      requires i < |sets| && 1 <= n <= MAX_TRIES
      requires api.Valid() && api.proc == At(Job(owner, subject, sets), BindingGet(i, n))
      modifies api
      ensures api.Continues() && (r.Ok? || r.Err?)
      ensures var job := Job(owner, subject, sets);
              api.proc == if r.Ok? then ApplyFrom(job, i + 1)
                          else if r == Err(Conflict) && n < MAX_TRIES then At(job, BindingGet(i, n + 1))
                          else Fin([ApplyFailed(BindingKey(sets[i]))])
    {
      var rs := sets[i];
      var key := BindingKey(rs);
      var desired := Obj(ManagedLabels(owner), Grant(RefTo(rs), SubjectsOf(subject)), 0);
      r := api.Do(Get(key));
      if r == Err(NotFound) {
        r := api.Do(Create(key, desired));
        return if r == Err(AlreadyExists) then Ok else r;
      }
      if r.Err? {
        return;
      }
      var existing := r.obj;
      if !existing.body.Grant? || existing.body.ref != desired.body.ref {
        r := ReplaceBinding(subject, sets, i, desired);
        return;
      }
      r := UpdateBinding(subject, sets, i, n, existing, desired);
    }

    method UpdateBinding(subject: SubjectRef, sets: seq<RuleSet>, i: nat, n: nat, existing: Obj, desired: Obj)
      returns (r: Reply)
      requires i < |sets| && 1 <= n <= MAX_TRIES
      requires desired == BindingObj(Job(owner, subject, sets), sets[i]) && !Drifted(existing, sets[i])
      requires api.Valid()
      requires api.proc == if Updated(existing, desired) == existing then ApplyFrom(Job(owner, subject, sets), i + 1)
                           else At(Job(owner, subject, sets), BindingUpdate(i, n, existing))
      modifies api
      ensures api.Continues() && (r.Ok? || r.Err?)
      ensures var job := Job(owner, subject, sets);
              api.proc == if r.Ok? then ApplyFrom(job, i + 1)
                          else if r == Err(Conflict) && n < MAX_TRIES then At(job, BindingGet(i, n + 1))
                          else Fin([ApplyFailed(BindingKey(sets[i]))])
    {
      var labels := MergeLabels(existing.labels, desired.labels);
      if existing.body.subjects == desired.body.subjects && existing.labels == labels {
        return Ok;
      }
      var body := existing.body.(subjects := desired.body.subjects);
      r := api.Do(Update(BindingKey(sets[i]), existing.(labels := labels, body := body)));
    }

    // roleRef cannot be changed in place.
    method ReplaceBinding(subject: SubjectRef, sets: seq<RuleSet>, i: nat, desired: Obj) returns (r: Reply)
      requires i < |sets| && desired == BindingObj(Job(owner, subject, sets), sets[i])
      requires api.Valid() && api.proc == At(Job(owner, subject, sets), BindingDelete(i))
      modifies api
      ensures api.Continues() && (r.Ok? || r.Err?) && r != Err(Conflict)
      ensures var job := Job(owner, subject, sets);
              api.proc == if r.Ok? then ApplyFrom(job, i + 1) else Fin([ApplyFailed(BindingKey(sets[i]))])
    {
      r := api.Do(Delete(BindingKey(sets[i])));
      if r.Err? && r.error != NotFound {
        return;
      }
      r := api.Do(Create(BindingKey(sets[i]), desired));
      return if r == Err(AlreadyExists) then Ok else r;
    }

    // ---- The sweep ----------------------------------------------------------------------------------

    method Gc(ghost job: Job, desired: set<string>) returns (errs: seq<Failure>)
      requires job.owner == owner && desired == Desired(job.sets)
      requires api.Valid() && api.proc == At(job, SweepList(RoleKind, []))
      modifies api
      ensures api.Continues() && api.proc == Fin(errs)
    {
      errs := SweepKind(job, desired, RoleKind, []);
      errs := SweepKind(job, desired, BindingKind, errs);
    }

    // The two halves of gc, for Roles and for RoleBindings, differ only in how the Role name
    // is read off the object's name.
    method SweepKind(ghost job: Job, desired: set<string>, kind: Kind, before: seq<Failure>) returns (errs: seq<Failure>)
      requires job.owner == owner && desired == Desired(job.sets)
      requires api.Valid() && api.proc == At(job, SweepList(kind, before))
      modifies api
      ensures api.Continues() && api.proc == SweepFrom(job, kind, [], errs)
    {
      errs := before;
      var r := api.Do(List(kind, ManagedLabels(owner)));
      if r.Err? {
        errs := errs + [ListFailed(kind)];
        return;
      }
      var keys := r.keys;
      for i := 0 to |keys|
        invariant api.Continues() && api.proc == SweepFrom(job, kind, Unwanted(job, keys[i..]), errs)
      {
        assert keys[i..][1..] == keys[i + 1..];
        errs := SweepOne(job, desired, kind, keys[i..], keys[i], errs);
      }
    }

    method SweepOne(ghost job: Job, desired: set<string>, ghost kind: Kind, ghost left: seq<Key>, key: Key,
                    before: seq<Failure>)
      returns (errs: seq<Failure>)
      requires desired == Desired(job.sets) && left != [] && left[0] == key
      requires api.Valid() && api.proc == SweepFrom(job, kind, Unwanted(job, left), before)
      modifies api
      ensures api.Continues() && api.proc == SweepFrom(job, kind, Unwanted(job, left[1..]), errs)
    {
      if DesiredKey(key.ns, RoleNameOf(key)) in desired {
        return before;
      }
      ghost var rest := Unwanted(job, left[1..]);
      assert Unwanted(job, left) == [key] + rest && ([key] + rest)[1..] == rest;
      var r := api.Do(Delete(key));
      return if r.Err? && r.error != NotFound then before + [DeleteFailed(key)] else before;
    }
  }
}
