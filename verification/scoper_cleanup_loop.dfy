// pkg/scoper/cleanup.go: the loops of CleanupReconciler, call by call.
module ScoperCleanupLoop {
  import opened Strings
  import opened Ownership
  import opened Recall
  import opened ScoperTypes
  import opened ScoperActors
  import opened ScoperCleanup
  import opened ScoperServer

  lemma OfNameAt(items: seq<Named>, j: nat, name: string)
    requires j < |items|
    ensures var todo := OfName(items[j..], name);
            if items[j].key.name == name
            then todo != [] && todo[0] == items[j] && todo[1..] == OfName(items[j + 1..], name)
            else todo == OfName(items[j + 1..], name)
  {
    assert items[j..][1..] == items[j + 1..];
  }

  class CleanupReconciler {
    const targets: seq<Target>
    const api: ApiServer

    constructor (targets: seq<Target>, api: ApiServer)
      ensures this.targets == targets && this.api == api
    {
      this.targets := targets;
      this.api := api;
    }

    // The total is the number of bindings removed, whatever fails; and when nothing fails,
    // every managed binding of every target has been treated by its verdict.
    method RunCleanup() returns (total: nat)
      modifies api
      ensures api.Completed(CleanStart(targets), Orphans(total))
      ensures total == |old(api.store).rbs| - |api.store.rbs|
      ensures Healthy(old(api.store), CleanStart(targets), api.oracles, api.clock) ==>
                CleanedAll(old(api.store), targets, api.clock, api.store)
    {
      api.Meet(CleanStart(targets));
      label Met:
      total := 0;
      assert targets[0..] == targets;
      for i := 0 to |targets|
        invariant api.Continues@Met()
        invariant api.proc == if i == |targets| then Fin(Orphans(total)) else Clean(targets[i..], total, CleanList)
      {
        var count := ListAndCleanup(i, total);
        assert targets[i..][1..] == targets[i + 1..];
        total := total + count;
      }
      assert Recalled(0);
      ReportedIsRemoved(old(api.store), targets, api.oracles, api.clock);
      if targets != [] && Healthy(old(api.store), CleanStart(targets), api.oracles, api.clock) {
        CleanupExact(old(api.store), targets, 0, api.oracles, api.clock);
      }
    }

    method ListAndCleanup(i: nat, ghost before: nat) returns (count: nat)
      requires i < |targets|
      requires api.Valid() && api.proc == Clean(targets[i..], before, CleanList)
      modifies api
      ensures api.Continues() && api.proc == NextTarget(targets[i..], before + count)
    {
      count := 0;
      var r := api.Do(ListManaged);
      if r.Err? {
        return;
      }
      count := VisitAll(i, before, r.items);
    }

    method VisitAll(i: nat, ghost before: nat, items: seq<Named>) returns (count: nat)
      requires i < |targets|
      requires api.Valid() && api.proc == Visit(targets[i..], before, OfName(items, targets[i].rbName), api.clock)
      modifies api
      ensures api.Continues() && api.proc == NextTarget(targets[i..], before + count)
    {
      count := 0;
      ghost var ts, name := targets[i..], targets[i].rbName;
      for j := 0 to |items|
        invariant api.Continues()
        invariant api.proc == Visit(ts, before + count, OfName(items[j..], name), api.clock)
      {
        var isOrphan := VisitListed(i, before + count, items, j);
        if isOrphan {
          count := count + 1;
        }
      }
    }

    // Bindings of another name are passed over.
    method VisitListed(i: nat, ghost count: nat, items: seq<Named>, j: nat) returns (isOrphan: bool)
      requires i < |targets| && j < |items|
      requires api.Valid() && api.proc == Visit(targets[i..], count, OfName(items[j..], targets[i].rbName), api.clock)
      modifies api
      ensures api.Continues()
      ensures api.proc == Visit(targets[i..], if isOrphan then count + 1 else count,
                                OfName(items[j + 1..], targets[i].rbName), api.clock)
    {
      OfNameAt(items, j, targets[i].rbName);
      if items[j].key.name != targets[i].rbName {
        return false;
      }
      isOrphan := CleanupRoleBinding(i, count, OfName(items[j..], targets[i].rbName), items[j]);
    }

    method CleanupRoleBinding(i: nat, ghost count: nat, ghost todo: seq<Named>, item: Named) returns (isOrphan: bool)
      requires i < |targets| && todo != [] && todo[0] == item
      requires api.Valid() && api.proc == Visit(targets[i..], count, todo, api.clock)
      modifies api
      ensures api.Continues()
      ensures api.proc == Visit(targets[i..], if isOrphan then count + 1 else count, todo[1..], api.clock)
    {
      if PENDING_KEY in item.rb.annotations {
        isOrphan := CleanupPendingOwner(i, count, todo, item);
        return;
      }
      var entries := ParseOwnerAnnotation(Ann(item.rb, OWNERS_KEY));
      if entries == [] {
        return false;
      }
      var valid := ValidOwners(i, count, todo, item, entries);
      if |valid| == |entries| {
        return false;
      }
      if valid == [] {
        isOrphan := Delete(i, count, todo, item);
        return;
      }
      var value := FormatOwnerAnnotation(valid);
      var r := api.Do(UpdateRb(item.key, item.rb.(annotations := item.rb.annotations[OWNERS_KEY := value])));
      return false;
    }

    method ValidOwners(i: nat, ghost count: nat, ghost todo: seq<Named>, item: Named, entries: seq<OwnerEntry>)
      returns (valid: seq<OwnerEntry>)
      requires i < |targets| && todo != [] && todo[0] == item && entries != []
      requires api.Valid() && api.proc == Clean(targets[i..], count, CleanOwner(entries, [], todo))
      modifies api
      ensures api.Continues()
      ensures api.proc == OwnersLeft(targets[i..], count, [], valid, todo, api.clock)
    {
      valid := [];
      for j := 0 to |entries|
        invariant api.Continues()
        invariant api.proc == OwnersLeft(targets[i..], count, entries[j..], valid, todo, api.clock)
      {
        assert entries[j..][1..] == entries[j + 1..];
        var ok := IsOwnerValid(i, count, entries[j..], valid, todo, entries[j], item.key.ns);
        if ok {
          valid := valid + [entries[j]];
        }
      }
    }

    // A lookup that fails for any reason but a missing CR leaves the owner valid.
    method IsOwnerValid(i: nat, ghost count: nat, ghost left: seq<OwnerEntry>, ghost valid: seq<OwnerEntry>,
                        ghost todo: seq<Named>, entry: OwnerEntry, ns: string)
      returns (ok: bool)
      requires i < |targets| && left != [] && left[0] == entry && todo != [] && todo[0].key.ns == ns
      requires api.Valid() && api.proc == Clean(targets[i..], count, CleanOwner(left, valid, todo))
      modifies api
      ensures api.Continues()
      ensures api.proc == OwnersLeft(targets[i..], count, left[1..], if ok then valid + [entry] else valid, todo, api.clock)
    {
      var target := targets[i];
      var r := api.Do(GetCr(CrId(target.gvk, entry.ns, entry.name)));
      if r.Err? {
        return r.error != NotFound;
      }
      if r.cr.uid != entry.uid {
        return false;
      }
      if target.nsField.Some? {
        var resolved := Field(r.cr, target.nsField.value);
        if resolved.None? || resolved.value != ns {
          return false;
        }
      }
      return true;
    }

    method CleanupPendingOwner(i: nat, ghost count: nat, ghost todo: seq<Named>, item: Named) returns (isOrphan: bool)
      requires i < |targets| && todo != [] && todo[0] == item && PENDING_KEY in item.rb.annotations
      requires api.Valid() && api.proc == Visit(targets[i..], count, todo, api.clock)
      modifies api
      ensures api.Continues()
      ensures api.proc == Visit(targets[i..], if isOrphan then count + 1 else count, todo[1..], api.clock)
    {
      var pending := ParsePending(item.rb.annotations[PENDING_KEY]);
      if pending.None? || !Expired(pending.value, api.clock) {
        return false;
      }
      var r := api.Do(GetCr(CrId(targets[i].gvk, pending.value.ns, pending.value.name)));
      if r != Err(NotFound) {
        return false;
      }
      isOrphan := Delete(i, count, todo, item);
    }

    method Delete(i: nat, ghost count: nat, ghost todo: seq<Named>, item: Named) returns (isOrphan: bool)
      requires i < |targets| && todo != [] && todo[0] == item
      requires api.Valid() && api.proc == Clean(targets[i..], count, CleanDelete(todo))
      modifies api
      ensures api.Continues()
      ensures api.proc == Visit(targets[i..], if isOrphan then count + 1 else count, todo[1..], api.clock)
    {
      var r := api.Do(DeleteRb(item.key));
      return r.Ok? || r == Err(NotFound);
    }
  }
}
