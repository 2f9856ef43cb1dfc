// pkg/scoper/label_trigger.go: the methods of LabelTriggerReconciler, call by call.
module ScoperLabelTrigger {
  import opened Strings
  import opened Recall
  import opened ScoperTypes
  import opened ScoperActors
  import opened ScoperSolo
  import opened ScoperServer

  class LabelTriggerReconciler {
    const target: Target
    const deny: DenyList
    const selector: LabelSelector
    const nsSelector: Option<LabelSelector>
    const api: ApiServer

    constructor (target: Target, deny: DenyList, api: ApiServer, selector: LabelSelector)
      ensures this.target == target && this.deny == deny && this.api == api
      ensures this.selector == selector && nsSelector == target.selector
    {
      this.target := target;
      this.deny := deny;
      this.api := api;
      this.selector := selector;
      nsSelector := target.selector;
    }

    // The selectors are those of the target.
    ghost predicate Configured() {
      Some(selector) == target.trigger && nsSelector == target.selector
    }

    ghost function At(ns: string, pc: LabPc): Proc {
      Lab(target, deny, ns, pc)
    }

    function BindingKey(ns: string): Key {
      Key(ns, target.rbName)
    }

    method Reconcile(ns: string) returns (outcome: Outcome)
      requires Configured()
      modifies api
      ensures api.Completed(LabStart(target, deny, ns), outcome)
      ensures FaultFree(api.oracles) ==> (api.store, outcome) == LabelSpec(old(api.store), target, deny, ns)
    {
      api.Meet(LabStart(target, deny, ns));
      outcome := Evaluate(ns);
      assert Recalled(0);
      if FaultFree(api.oracles) {
        FinishedLabel(old(api.store), target, deny, ns, api.oracles, api.clock);
      }
    }

    method Evaluate(ns: string) returns (outcome: Outcome)
      requires Configured()
      requires api.Valid() && api.proc == At(ns, LabNs)
      modifies api
      ensures api.Continues() && api.proc == Fin(outcome)
    {
      var r := api.Do(GetNamespace(ns));
      if r.Err? {
        return if r.error == NotFound then Success else Failure;
      }
      var ok;
      if IsDenied(ns, deny) {
        ok := DeleteRoleBinding(ns);
        return if ok then Success else Failure;
      }
      if nsSelector.Some? && !Selects(nsSelector.value, r.labels) {
        ok := DeleteRoleBinding(ns);
        return if ok then Success else Failure;
      }
      if Selects(selector, r.labels) {
        r := api.Do(GetClusterRole(target.clusterRole));
        if r.Err? || r.aggregated {
          return Requeue;
        }
        ok := EnsureRoleBinding(ns);
      } else {
        ok := DeleteRoleBinding(ns);
      }
      return if ok then Success else Failure;
    }

    method EnsureRoleBinding(ns: string) returns (ok: bool)
      requires api.Valid() && api.proc == At(ns, LabCreate)
      modifies api
      ensures api.Continues() && api.proc == Fin(if ok then Success else Failure)
    {
      var r := api.Do(CreateRb(BindingKey(ns), TriggerRb(target)));
      if r.Err? {
        if r.error == AlreadyExists {
          ok := EnsureDrift(ns);
          return;
        }
        return false;
      }
      return true;
    }

    method EnsureDrift(ns: string) returns (ok: bool)
      requires api.Valid() && api.proc == At(ns, LabDriftGet)
      modifies api
      ensures api.Continues() && api.proc == Fin(if ok then Success else Failure)
    {
      var expected := TriggerRb(target);
      var r := api.Do(GetRb(BindingKey(ns)));
      if r.Err? {
        return false;
      }
      var existing := r.rb;
      if existing.owners != [] {
        return true;
      }
      if existing.roleRef != expected.roleRef {
        ok := Replace(ns);
        return;
      }
      if existing.subjects != expected.subjects {
        ok := CorrectSubjects(ns);
        return;
      }
      return true;
    }

    method Replace(ns: string) returns (ok: bool)
      requires api.Valid() && api.proc == At(ns, LabDriftDelete)
      modifies api
      ensures api.Continues() && api.proc == Fin(if ok then Success else Failure)
    {
      var r := api.Do(DeleteRb(BindingKey(ns)));
      if r.Err? && r.error != NotFound {
        return false;
      }
      r := api.Do(CreateRb(BindingKey(ns), TriggerRb(target)));
      return r.Ok? || r == Err(AlreadyExists);
    }

    method CorrectSubjects(ns: string) returns (ok: bool)
      requires api.Valid() && api.proc == At(ns, LabSubjectsGet(1))
      modifies api
      ensures api.Continues() && api.proc == Fin(if ok then Success else Failure)
    {
      var n := 1;
      var r := TrySubjects(ns, n);
      while r == Err(Conflict) && n < MAX_TRIES
        invariant 1 <= n <= MAX_TRIES && api.Continues() && (r.Ok? || r.Err?)
        invariant api.proc == if r.Ok? then Fin(Success)
                              else if r == Err(Conflict) && n < MAX_TRIES then At(ns, LabSubjectsGet(n + 1))
                              else Fin(Failure)
      {
        n := n + 1;
        r := TrySubjects(ns, n);
      }
      return r.Ok?;
    }

    method TrySubjects(ns: string, n: nat) returns (r: Reply)
      requires 1 <= n <= MAX_TRIES && api.Valid() && api.proc == At(ns, LabSubjectsGet(n))
      modifies api
      ensures api.Continues() && (r.Ok? || r.Err?)
      ensures api.proc == if r.Ok? then Fin(Success)
                          else if r == Err(Conflict) && n < MAX_TRIES then At(ns, LabSubjectsGet(n + 1))
                          else Fin(Failure)
    {
      r := api.Do(GetRb(BindingKey(ns)));
      if r.Err? {
        return;
      }
      r := api.Do(UpdateRb(BindingKey(ns), r.rb.(subjects := TriggerRb(target).subjects)));
    }

    // Removes the binding only if the label trigger made it and no reconciler has adopted it.
    method DeleteRoleBinding(ns: string) returns (ok: bool)
      requires api.Valid() && api.proc == At(ns, LabOrphanGet)
      modifies api
      ensures api.Continues() && api.proc == Fin(if ok then Success else Failure)
    {
      var r := api.Do(GetRb(BindingKey(ns)));
      if r.Err? {
        return r.error == NotFound;
      }
      if Ann(r.rb, CREATED_BY_KEY) != BY_LABEL_TRIGGER {
        return true;
      }
      if r.rb.owners != [] {
        return true;
      }
      r := api.Do(DeleteRb(BindingKey(ns)));
      return r.Ok? || r == Err(NotFound);
    }
  }

  // Refuses a target without a trigger and a selector that cannot be read.
  method NewLabelTriggerReconciler(target: Target, deny: DenyList, api: ApiServer)
    returns (r: Option<LabelTriggerReconciler>)
    ensures r.Some? <==> target.trigger.Some? && target.trigger.value.Matching?
                         && (target.selector.Some? ==> target.selector.value.Matching?)
    ensures r.Some? ==> fresh(r.value) && r.value.Configured()
                        && r.value.target == target && r.value.deny == deny && r.value.api == api
  {
    if target.trigger.None? || target.trigger.value.Unreadable? {
      return None;
    }
    if target.selector.Some? && target.selector.value.Unreadable? {
      return None;
    }
    var reconciler := new LabelTriggerReconciler(target, deny, api, target.trigger.value);
    return Some(reconciler);
  }
}
