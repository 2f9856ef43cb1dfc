// pkg/scoper/reconciler.go: the methods of ScopingReconciler, call by call.
module ScoperReconciler {
  import opened Strings
  import opened Ownership
  import opened Recall
  import opened ScoperTypes
  import opened ScoperActors
  import opened ScoperSolo
  import opened ScoperServer
  import opened ScoperGrants

  class ScopingReconciler {
    const target: Target
    const deny: DenyList
    const api: ApiServer

    constructor (target: Target, deny: DenyList, api: ApiServer)
      ensures this.target == target && this.deny == deny && this.api == api
    {
      this.target := target;
      this.deny := deny;
      this.api := api;
    }

    ghost function At(id: CrId, pc: RecPc): Proc {
      Rec(target, deny, id, pc)
    }

    // Every run, whatever fails, is a run of the actor; a run without faults has exactly the
    // effect of the closed form.
    method Reconcile(id: CrId) returns (outcome: Outcome)
      modifies api
      ensures api.Completed(RecStart(target, deny, id), outcome)
      ensures FaultFree(api.oracles) ==> (api.store, outcome) == ReconcileSpec(old(api.store), target, deny, id)
    {
      api.Meet(RecStart(target, deny, id));
      outcome := Fetch(id);
      assert Recalled(0);
      if FaultFree(api.oracles) {
        FinishedReconcile(old(api.store), target, deny, id, api.oracles, api.clock);
      }
    }

    method Fetch(id: CrId) returns (outcome: Outcome)
      requires api.Valid() && api.proc == At(id, FetchCr)
      modifies api
      ensures api.Continues() && api.proc == Fin(outcome)
    {
      var r := api.Do(GetCr(id));
      if r.Err? {
        return if r.error == NotFound then Success else Failure;
      }
      var cr := r.cr;
      var ns := cr.id.ns;
      if target.nsField.Some? {
        var value := Field(cr, target.nsField.value);
        if value.None? {
          return Success;
        }
        ns := value.value;
      }
      var allowed := IsNamespaceAllowed(id, cr, ns);
      if !allowed {
        return Success;
      }
      r := api.Do(GetClusterRole(target.clusterRole));
      if r.Err? || r.aggregated {
        return Requeue;
      }
      var ok := EnsureRoleBinding(id, cr, ns);
      return if ok then Success else Failure;
    }

    method IsNamespaceAllowed(id: CrId, cr: Cr, ns: string) returns (allowed: bool)
      requires api.Valid()
      requires api.proc == if IsDenied(ns, deny) then Fin(Success)
                           else At(id, if target.selector.None? then FetchRole(cr, ns) else FetchNs(cr, ns))
      modifies api
      ensures api.Continues() && api.proc == if allowed then At(id, FetchRole(cr, ns)) else Fin(Success)
      ensures allowed ==>
                && ns !in deny.namespaces && (forall k | 0 <= k <= |ns| :: ns[..k] !in deny.prefixes)
                && (target.selector.Some? ==>
                      ns in api.store.namespaces && Passes(target.selector, api.store.namespaces[ns]))
      ensures ns !in deny.namespaces && (forall k | 0 <= k <= |ns| :: ns[..k] !in deny.prefixes) && target.selector.None? ==>
                allowed
    {
      PermittedIff(ns, deny);
      if IsDenied(ns, deny) {
        return false;
      }
      if target.selector.None? {
        return true;
      }
      var r := api.Do(GetNamespace(ns));
      if r.Err? {
        return false;
      }
      return Selects(target.selector.value, r.labels);
    }

    method EnsureRoleBinding(id: CrId, cr: Cr, ns: string) returns (ok: bool)
      requires api.Valid()
      requires api.proc == match ResolveSa(target, cr)
                           case None => Fin(Failure)
                           case Some(sa) => At(id, Lookup(cr, ns, sa))
      modifies api
      ensures api.Continues() && api.proc == Fin(if ok then Success else Failure)
    {
      var key := RecKey(target, cr, ns);
      var resolved := ResolveSa(target, cr);
      if resolved.None? {
        return false;
      }
      var sa := resolved.value;
      var r := api.Do(GetRb(key));
      if r == Err(NotFound) {
        ok := CreateRoleBinding(id, cr, ns, sa);
        return;
      }
      if r.Err? {
        return false;
      }
      ok := EnsureRoleBindingSpec(id, cr, ns, sa, r.rb);
      if !ok {
        return;
      }
      ok := BackfillPendingOwner(id, cr, ns);
      if !ok {
        return;
      }
      if SameNamespace(target, cr, ns) {
        ok := EnsureOwnerReference(id, cr, ns);
      } else {
        ok := EnsureOwnerEntry(id, cr, ns);
      }
    }

    method CreateRoleBinding(id: CrId, cr: Cr, ns: string, sa: Sa) returns (ok: bool)
      requires api.Valid() && api.proc == At(id, CreateNew(cr, ns, sa))
      modifies api
      ensures api.Continues() && api.proc == Fin(if ok then Success else Failure)
    {
      var rb := NewRb(target, sa, map[CREATED_BY_KEY := BY_SCOPER], []);
      if SameNamespace(target, cr, ns) {
        rb := rb.(owners := SetOwner(rb.owners, RefOf(cr)));
      } else {
        var value := FormatOwnerAnnotation([EntryOf(cr)]);
        rb := rb.(annotations := rb.annotations[OWNERS_KEY := value]);
      }
      var r := api.Do(CreateRb(RecKey(target, cr, ns), rb));
      return r.Ok? || r == Err(AlreadyExists);
    }

    // Repairs roleRef by delete and create, subjects in place.
    method EnsureRoleBindingSpec(id: CrId, cr: Cr, ns: string, sa: Sa, found: RoleBinding) returns (ok: bool)
      requires api.Valid()
      requires api.proc == At(id, if found.roleRef != ExpectedRef(target) then Refetch(cr, ns, sa, found)
                                  else if found.subjects != ExpectedSubjects(sa) then SubjectsGet(cr, ns, sa, 1)
                                  else Adopt(target, cr, ns))
      modifies api
      ensures api.Continues()
      ensures api.proc == if ok then At(id, Adopt(target, cr, ns)) else Fin(Failure)
    {
      if found.roleRef == ExpectedRef(target) && found.subjects == ExpectedSubjects(sa) {
        return true;
      }
      if found.roleRef != ExpectedRef(target) {
        var existing := found;
        var r := api.Do(GetRb(RecKey(target, cr, ns)));
        if r.Err? && r.error != NotFound {
          return false;
        }
        if r.GotRb? {
          existing := r.rb;
        }
        ok := RecreateRoleBinding(id, cr, ns, sa, existing);
        return;
      }
      ok := CorrectSubjects(id, cr, ns, sa);
    }

    method RecreateRoleBinding(id: CrId, cr: Cr, ns: string, sa: Sa, existing: RoleBinding) returns (ok: bool)
      requires api.Valid() && api.proc == At(id, DeleteOld(cr, ns, sa, existing))
      modifies api
      ensures api.Continues()
      ensures api.proc == if ok then At(id, Adopt(target, cr, ns)) else Fin(Failure)
    {
      var r := api.Do(DeleteRb(RecKey(target, cr, ns)));
      if r.Err? && r.error != NotFound {
        return false;
      }
      var annotations := map[CREATED_BY_KEY := BY_SCOPER];
      if OWNERS_KEY in existing.annotations {
        annotations := annotations[OWNERS_KEY := existing.annotations[OWNERS_KEY]];
      }
      r := api.Do(CreateRb(RecKey(target, cr, ns), NewRb(target, sa, annotations, existing.owners)));
      return r.Ok? || r == Err(AlreadyExists);
    }

    // ---- Retry loops -----------------------------------------------------------------------
    //
    // Each Try method is the closure of a RetryOnConflict loop: one read and at most one write.
    // It ends with Ok, or with the error of the call that failed.

    method CorrectSubjects(id: CrId, cr: Cr, ns: string, sa: Sa) returns (ok: bool)
      requires api.Valid() && api.proc == At(id, SubjectsGet(cr, ns, sa, 1))
      modifies api
      ensures api.Continues()
      ensures api.proc == if ok then At(id, Adopt(target, cr, ns)) else Fin(Failure)
    {
      var n := 1;
      var r := TrySubjects(id, cr, ns, sa, n);
      while r == Err(Conflict) && n < MAX_TRIES
        invariant 1 <= n <= MAX_TRIES && api.Continues() && (r.Ok? || r.Err?)
        invariant api.proc == if r.Ok? then At(id, Adopt(target, cr, ns))
                              else if r == Err(Conflict) && n < MAX_TRIES then At(id, SubjectsGet(cr, ns, sa, n + 1))
                              else Fin(Failure)
      {
        n := n + 1;
        r := TrySubjects(id, cr, ns, sa, n);
      }
      return r.Ok?;
    }

    method TrySubjects(id: CrId, cr: Cr, ns: string, sa: Sa, n: nat) returns (r: Reply)
      requires 1 <= n <= MAX_TRIES && api.Valid() && api.proc == At(id, SubjectsGet(cr, ns, sa, n))
      modifies api
      ensures api.Continues() && (r.Ok? || r.Err?)
      ensures api.proc == if r.Ok? then At(id, Adopt(target, cr, ns))
                          else if r == Err(Conflict) && n < MAX_TRIES then At(id, SubjectsGet(cr, ns, sa, n + 1))
                          else Fin(Failure)
    {
      r := api.Do(GetRb(RecKey(target, cr, ns)));
      if r.Err? {
        return;
      }
      r := api.Do(UpdateRb(RecKey(target, cr, ns), r.rb.(subjects := ExpectedSubjects(sa))));
    }

    method BackfillPendingOwner(id: CrId, cr: Cr, ns: string) returns (ok: bool)
      requires api.Valid() && api.proc == At(id, Adopt(target, cr, ns))
      modifies api
      ensures api.Continues()
      ensures api.proc == if !ok then Fin(Failure)
                          else At(id, if SameNamespace(target, cr, ns) then OwnerGet(cr, ns, 1) else EntryGet(cr, ns, 1))
    {
      if !SameNamespace(target, cr, ns) {
        return true;
      }
      var n := 1;
      var r := TryBackfill(id, cr, ns, n);
      while r == Err(Conflict) && n < MAX_TRIES
        invariant 1 <= n <= MAX_TRIES && api.Continues() && (r.Ok? || r.Err?)
        invariant api.proc == if r.Ok? then At(id, OwnerGet(cr, ns, 1))
                              else if r == Err(Conflict) && n < MAX_TRIES then At(id, BackfillGet(cr, ns, n + 1))
                              else Fin(Failure)
      {
        n := n + 1;
        r := TryBackfill(id, cr, ns, n);
      }
      return r.Ok?;
    }

    method TryBackfill(id: CrId, cr: Cr, ns: string, n: nat) returns (r: Reply)
      requires 1 <= n <= MAX_TRIES && api.Valid() && api.proc == At(id, BackfillGet(cr, ns, n))
      modifies api
      ensures api.Continues() && (r.Ok? || r.Err?)
      ensures api.proc == if r.Ok? then At(id, OwnerGet(cr, ns, 1))
                          else if r == Err(Conflict) && n < MAX_TRIES then At(id, BackfillGet(cr, ns, n + 1))
                          else Fin(Failure)
    {
      r := api.Do(GetRb(RecKey(target, cr, ns)));
      if r.Err? {
        return;
      }
      var rb := r.rb;
      if PENDING_KEY !in rb.annotations {
        return Ok;
      }
      var pending := ParsePending(rb.annotations[PENDING_KEY]);
      if pending.None? || pending.value.ns != cr.id.ns || pending.value.name != cr.id.name || cr.uid == "" {
        return Ok;
      }
      rb := rb.(owners := SetOwner(rb.owners, RefOf(cr)), annotations := rb.annotations - {PENDING_KEY});
      r := PutBackfilled(id, cr, ns, n, r.rb, rb);
    }

    method PutBackfilled(id: CrId, cr: Cr, ns: string, n: nat, ghost base: RoleBinding, rb: RoleBinding) returns (r: Reply)
      requires 1 <= n <= MAX_TRIES && rb == Backfilled(base, cr)
      requires api.Valid() && api.proc == At(id, BackfillPut(cr, ns, n, base))
      modifies api
      ensures api.Continues() && (r.Ok? || r.Err?)
      ensures api.proc == if r.Ok? then At(id, OwnerGet(cr, ns, 1))
                          else if r == Err(Conflict) && n < MAX_TRIES then At(id, BackfillGet(cr, ns, n + 1))
                          else Fin(Failure)
    {
      r := api.Do(UpdateRb(RecKey(target, cr, ns), rb));
    }

    method EnsureOwnerReference(id: CrId, cr: Cr, ns: string) returns (ok: bool)
      requires api.Valid() && api.proc == At(id, OwnerGet(cr, ns, 1))
      modifies api
      ensures api.Continues() && api.proc == Fin(if ok then Success else Failure)
    {
      var n := 1;
      var r := TryOwnerReference(id, cr, ns, n);
      while r == Err(Conflict) && n < MAX_TRIES
        invariant 1 <= n <= MAX_TRIES && api.Continues() && (r.Ok? || r.Err?)
        invariant api.proc == if r.Ok? then Fin(Success)
                              else if r == Err(Conflict) && n < MAX_TRIES then At(id, OwnerGet(cr, ns, n + 1))
                              else Fin(Failure)
      {
        n := n + 1;
        r := TryOwnerReference(id, cr, ns, n);
      }
      return r.Ok?;
    }

    method TryOwnerReference(id: CrId, cr: Cr, ns: string, n: nat) returns (r: Reply)
      requires 1 <= n <= MAX_TRIES && api.Valid() && api.proc == At(id, OwnerGet(cr, ns, n))
      modifies api
      ensures api.Continues() && (r.Ok? || r.Err?)
      ensures api.proc == if r.Ok? then Fin(Success)
                          else if r == Err(Conflict) && n < MAX_TRIES then At(id, OwnerGet(cr, ns, n + 1))
                          else Fin(Failure)
    {
      r := api.Do(GetRb(RecKey(target, cr, ns)));
      if r.Err? {
        return;
      }
      for i := 0 to |r.rb.owners|
        invariant forall j :: 0 <= j < i ==> r.rb.owners[j].uid != cr.uid
      {
        if r.rb.owners[i].uid == cr.uid {
          return Ok;
        }
      }
      r := api.Do(PatchOwners(RecKey(target, cr, ns), SetOwner(r.rb.owners, RefOf(cr))));
    }

    method EnsureOwnerEntry(id: CrId, cr: Cr, ns: string) returns (ok: bool)
      requires api.Valid() && api.proc == At(id, EntryGet(cr, ns, 1))
      modifies api
      ensures api.Continues() && api.proc == Fin(if ok then Success else Failure)
    {
      var n := 1;
      var r := TryOwnerEntry(id, cr, ns, n);
      while r == Err(Conflict) && n < MAX_TRIES
        invariant 1 <= n <= MAX_TRIES && api.Continues() && (r.Ok? || r.Err?)
        invariant api.proc == if r.Ok? then Fin(Success)
                              else if r == Err(Conflict) && n < MAX_TRIES then At(id, EntryGet(cr, ns, n + 1))
                              else Fin(Failure)
      {
        n := n + 1;
        r := TryOwnerEntry(id, cr, ns, n);
      }
      return r.Ok?;
    }

    method TryOwnerEntry(id: CrId, cr: Cr, ns: string, n: nat) returns (r: Reply)
      requires 1 <= n <= MAX_TRIES && api.Valid() && api.proc == At(id, EntryGet(cr, ns, n))
      modifies api
      ensures api.Continues() && (r.Ok? || r.Err?)
      ensures api.proc == if r.Ok? then Fin(Success)
                          else if r == Err(Conflict) && n < MAX_TRIES then At(id, EntryGet(cr, ns, n + 1))
                          else Fin(Failure)
    {
      r := api.Do(GetRb(RecKey(target, cr, ns)));
      if r.Err? {
        return;
      }
      var changed, rb := WithOwner(r.rb, cr);
      if !changed {
        return Ok;
      }
      r := PutListed(id, cr, ns, n, r.rb, rb);
    }

    method PutListed(id: CrId, cr: Cr, ns: string, n: nat, ghost base: RoleBinding, rb: RoleBinding) returns (r: Reply)
      requires 1 <= n <= MAX_TRIES && rb == Listed(base, cr)
      requires api.Valid() && api.proc == At(id, EntryPut(cr, ns, n, base))
      modifies api
      ensures api.Continues() && (r.Ok? || r.Err?)
      ensures api.proc == if r.Ok? then Fin(Success)
                          else if r == Err(Conflict) && n < MAX_TRIES then At(id, EntryGet(cr, ns, n + 1))
                          else Fin(Failure)
    {
      r := api.Do(UpdateRb(RecKey(target, cr, ns), rb));
    }
  }

  method WithOwner(rb: RoleBinding, cr: Cr) returns (changed: bool, rb': RoleBinding)
    ensures changed <==> Unlisted(rb, cr)
    ensures rb' == Listed(rb, cr)
  {
    var entries := ParseOwnerAnnotation(Ann(rb, OWNERS_KEY));
    var updated := AddOwnerEntry(entries, EntryOf(cr));
    changed := |updated| != |entries|;
    var value := FormatOwnerAnnotation(updated);
    rb' := rb.(annotations := rb.annotations[OWNERS_KEY := value]);
  }

  // Refuses a namespace selector that cannot be read.
  method NewScopingReconciler(target: Target, deny: DenyList, api: ApiServer) returns (r: Option<ScopingReconciler>)
    ensures r.None? <==> target.selector.Some? && target.selector.value.Unreadable?
    ensures r.Some? ==> fresh(r.value) && r.value.target == target && r.value.deny == deny && r.value.api == api
  {
    if target.selector.Some? && target.selector.value.Unreadable? {
      return None;
    }
    var reconciler := new ScopingReconciler(target, deny, api);
    return Some(reconciler);
  }
}
