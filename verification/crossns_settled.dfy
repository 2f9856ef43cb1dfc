// When a repeated Apply writes nothing.
module CrossnsSettled {
  import opened Strings
  import opened Rbac
  import opened CrossnsProgram
  import opened CrossnsApply
  import opened CrossnsCalls

  // No two rule sets ask for different rules of one Role.
  predicate Consistent(job: Job) {
    forall i, j | 0 <= i < j < |job.sets| && RoleKey(job.sets[i]) == RoleKey(job.sets[j]) ::
      job.sets[i].rules == job.sets[j].rules
  }

  // Everything the job wants is in place, and nothing of the owner's is left to sweep.
  ghost predicate Clean(s: Store, job: Job) {
    && StoreClean(s)
    && (forall k | Wanted(job, k).Some? :: Owned(s, job.owner, k) && s.objs[k].body == Wanted(job, k).value)
    && Doomed(s, job) == {}
  }

  lemma SuccessIsClean(s: Store, job: Job, os: seq<Oracle>)
    requires StoreClean(s) && Run(s, ApplyStart(job), os).1 == Fin([])
    ensures Clean(Run(s, ApplyStart(job), os).0, job)
  {
    var s' := Run(s, ApplyStart(job), os).0;
    CallTracked(s, job, os);
    forall k ensures Wanted(job, k).Some? ==> Owned(s', job.owner, k) && s'.objs[k].body == Wanted(job, k).value {
      if Wanted(job, k).Some? {
        SweptHasWanted(s, job, s', Fin([]), k);
      }
    }
    forall k ensures k !in Doomed(s', job) {
      if Owned(s', job.owner, k) {
        SweptSettles(s, job, s', [], k);
        KeptIff(job, k);
      }
    }
  }

  lemma {:induction false} LastRules(job: Job, n: nat, i: nat)
    requires i < n <= |job.sets| && WantedBy(job, n, RoleKey(job.sets[i])).Some?
    requires Consistent(job)
    ensures WantedBy(job, n, RoleKey(job.sets[i])) == Some(Rules(job.sets[i].rules))
  {
    if RoleKey(job.sets[n - 1]) != RoleKey(job.sets[i]) {
      LastRules(job, n - 1, i);
    }
  }

  lemma {:induction false} AllWanted(job: Job, i: nat)
    requires i < |job.sets|
    ensures Wanted(job, RoleKey(job.sets[i])).Some?
    ensures Wanted(job, BindingKey(job.sets[i])) == Some(Grant(RefTo(job.sets[i]), SubjectsOf(job.subject)))
  {
    WantedIff(job, |job.sets|, RoleKey(job.sets[i]));
    WantedIff(job, |job.sets|, BindingKey(job.sets[i]));
    OneRef(job, |job.sets|, BindingKey(job.sets[i]), job.sets[i]);
  }

  lemma MergeKeeps(labels: map<string, string>, owner: OwnerLabel)
    requires Matches(labels, ManagedLabels(owner))
    ensures labels + ManagedLabels(owner) == labels
  {}

  lemma BindingStepIdle(s: Store, job: Job, i: nat)
    requires i < |job.sets| && Clean(s, job)
    ensures BindingStep(s, job, job.sets[i]) == s
    ensures BindingKey(job.sets[i]) in s.objs && !Drifted(s.objs[BindingKey(job.sets[i])], job.sets[i])
  {
    AllWanted(job, i);
    MergeKeeps(s.objs[BindingKey(job.sets[i])].labels, job.owner);
  }

  lemma RoleStepIdle(s: Store, job: Job, i: nat)
    requires i < |job.sets| && Clean(s, job)
    ensures RoleStep(s, job, job.sets[i]) == s <==> Wanted(job, RoleKey(job.sets[i])) == Some(Rules(job.sets[i].rules))
  {
    AllWanted(job, i);
    MergeKeeps(s.objs[RoleKey(job.sets[i])].labels, job.owner);
  }

  lemma SetStepIdle(s: Store, job: Job, i: nat)
    requires i < |job.sets| && Clean(s, job) && Consistent(job)
    ensures SetStep(s, job, job.sets[i]) == s
  {
    AllWanted(job, i);
    LastRules(job, |job.sets|, i);
    RoleStepIdle(s, job, i);
    BindingStepIdle(s, job, i);
  }

  lemma AppliedOne(s: Store, job: Job, n: nat)
    requires n < |job.sets| && Applied(s, job, n) == s && SetStep(s, job, job.sets[n]) == s
    ensures Applied(s, job, n + 1) == s
  {}

  lemma AppliedIdle(s: Store, job: Job)
    requires Clean(s, job) && Consistent(job)
    ensures Applied(s, job, |job.sets|) == s
  {
    for n := 0 to |job.sets|
      invariant Applied(s, job, n) == s
    {
      SetStepIdle(s, job, n);
      AppliedOne(s, job, n);
    }
  }

  // Versions never go back, and a write moves one on.
  lemma StepTicks(s: Store, job: Job, rs: RuleSet)
    ensures forall k :: TickOf(RoleStep(s, job, rs), k) >= TickOf(s, k) && TickOf(BindingStep(s, job, rs), k) >= TickOf(s, k)
    ensures RoleStep(s, job, rs) == s || TickOf(RoleStep(s, job, rs), RoleKey(rs)) > TickOf(s, RoleKey(rs))
  {}

  lemma SetTicks(s: Store, job: Job, rs: RuleSet, k: Key)
    ensures TickOf(s, k) <= TickOf(SetStep(s, job, rs), k)
  {
    StepTicks(s, job, rs);
    StepTicks(RoleStep(s, job, rs), job, rs);
  }

  lemma OneSetTicks(s: Store, job: Job, n: nat, k: Key)
    requires n < |job.sets|
    ensures TickOf(Applied(s, job, n), k) <= TickOf(Applied(s, job, n + 1), k)
  {
    AppliedUp(s, job, n);
    SetTicks(Applied(s, job, n), job, job.sets[n], k);
  }

  lemma {:induction false} Climbs(ticks: seq<nat>, m: nat, n: nat)
    requires m <= n < |ticks| && forall i | 0 <= i < |ticks| - 1 :: ticks[i] <= ticks[i + 1]
    ensures ticks[m] <= ticks[n]
    decreases n - m
  {
    if m < n {
      Climbs(ticks, m, n - 1);
    }
  }

  function TicksOf(s: Store, job: Job, k: Key): (ticks: seq<nat>)
    ensures |ticks| == |job.sets| + 1
    ensures forall i | 0 <= i <= |job.sets| :: ticks[i] == TickOf(Applied(s, job, i), k)
  {
    seq(|job.sets| + 1, i requires 0 <= i <= |job.sets| => TickOf(Applied(s, job, i), k))
  }

  lemma RoleWroteNothing(s: Store, job: Job, n: nat)
    requires n < |job.sets| && Applied(s, job, n) == s
    requires forall k :: TickOf(Applied(s, job, n + 1), k) <= TickOf(s, k)
    ensures RoleStep(s, job, job.sets[n]) == s
  {
    var r := RoleStep(s, job, job.sets[n]);
    StepTicks(s, job, job.sets[n]);
    StepTicks(r, job, job.sets[n]);
    assert Applied(s, job, n + 1) == BindingStep(r, job, job.sets[n]);
  }

  lemma TicksAtEnd(s: Store, job: Job, m: nat)
    requires m <= |job.sets|
    ensures forall k :: TickOf(Applied(s, job, m), k) <= TickOf(Applied(s, job, |job.sets|), k)
  {
    forall k ensures TickOf(Applied(s, job, m), k) <= TickOf(Applied(s, job, |job.sets|), k) {
      var ticks := TicksOf(s, job, k);
      forall i | 0 <= i < |ticks| - 1 ensures ticks[i] <= ticks[i + 1] {
        OneSetTicks(s, job, i, k);
      }
      Climbs(ticks, m, |job.sets|);
    }
  }

  // If applying everything again moves no version on, no rule set on the way changes anything.
  lemma NoChangeOnTheWay(s: Store, job: Job, n: nat)
    requires n < |job.sets| && Clean(s, job)
    requires forall k :: TickOf(Applied(s, job, |job.sets|), k) <= TickOf(s, k)
    ensures RoleStep(s, job, job.sets[n]) == s
  {
    for i := 0 to n
      invariant Applied(s, job, i) == s
    {
      TicksAtEnd(s, job, i + 1);
      RoleWroteNothing(s, job, i);
      BindingStepIdle(s, job, i);
      AppliedOne(s, job, i);
    }
    TicksAtEnd(s, job, n + 1);
    RoleWroteNothing(s, job, n);
  }

  lemma IdleIsConsistent(s: Store, job: Job)
    requires Clean(s, job) && Applied(s, job, |job.sets|).ticks == s.ticks
    ensures Consistent(job)
  {
    forall i | 0 <= i < |job.sets| ensures Wanted(job, RoleKey(job.sets[i])) == Some(Rules(job.sets[i].rules)) {
      NoChangeOnTheWay(s, job, i);
      RoleStepIdle(s, job, i);
    }
  }

  lemma SweptIdle(s: Store, job: Job, s': Store)
    requires Swept(s, job, s', Fin([]))
    ensures s' == s ==> Applied(s, job, |job.sets|).ticks == s.ticks
    ensures Applied(s, job, |job.sets|) == s && Doomed(s, job) == {} ==> s' == s
  {
    var a := Applied(s, job, |job.sets|);
    if a == s && Doomed(s, job) == {} {
      assert s'.objs == a.objs;
    }
  }

  // A repeated Apply that returns nil leaves the whole store as it was, versions included, if
  // and only if no two rule sets disagree about one Role; otherwise it writes each time.
  lemma ReapplyWritesNothing(s: Store, job: Job, os: seq<Oracle>, os': seq<Oracle>)
    requires StoreClean(s) && Run(s, ApplyStart(job), os).1 == Fin([])
    requires Run(Run(s, ApplyStart(job), os).0, ApplyStart(job), os').1 == Fin([])
    ensures var s1 := Run(s, ApplyStart(job), os).0;
            Run(s1, ApplyStart(job), os').0 == s1 <==> Consistent(job)
  {
    var s1 := Run(s, ApplyStart(job), os).0;
    var s2 := Run(s1, ApplyStart(job), os').0;
    SuccessIsClean(s, job, os);
    CallTracked(s1, job, os');
    SweptIdle(s1, job, s2);
    if Consistent(job) {
      AppliedIdle(s1, job);
    } else if s2 == s1 {
      IdleIsConsistent(s1, job);
    }
  }

  // Two rule sets for one Role: every Apply that succeeds again has written again.
  lemma OneRoleTwice(s: Store, owner: OwnerLabel, subject: SubjectRef, rule: PolicyRule, os: seq<Oracle>, os': seq<Oracle>)
    requires StoreClean(s)
    requires var job := Job(owner, subject, [RuleSet("reader", "team", []), RuleSet("reader", "team", [rule])]);
             && Run(s, ApplyStart(job), os).1 == Fin([])
             && Run(Run(s, ApplyStart(job), os).0, ApplyStart(job), os').1 == Fin([])
    ensures var job := Job(owner, subject, [RuleSet("reader", "team", []), RuleSet("reader", "team", [rule])]);
            var s1 := Run(s, ApplyStart(job), os).0;
            Run(s1, ApplyStart(job), os').0 != s1
  {
    var job := Job(owner, subject, [RuleSet("reader", "team", []), RuleSet("reader", "team", [rule])]);
    ReapplyWritesNothing(s, job, os, os');
    assert RoleKey(job.sets[0]) == RoleKey(job.sets[1]) && job.sets[0].rules != job.sets[1].rules;
  }
}
