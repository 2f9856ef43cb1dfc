// pkg/graceful/discovery.go: permission checks fanned out to goroutines behind a counting
// semaphore, as a machine whose every schedule yields an error or the sequential report.
module Discovery {
  import opened Strings

  // ---- What is asked for ------------------------------------------------------------------------

  datatype ResourceSpec = ResourceSpec(group: string, resource: string, verbs: seq<string>)
  datatype PermissionSpec = PermissionSpec(resources: seq<ResourceSpec>, namespaces: seq<string>, maxConcurrency: int)

  datatype Check = Check(group: string, resource: string, verb: string, ns: string)
  datatype Result = Result(check: Check, allowed: bool)
  datatype Report = Report(granted: seq<Result>, denied: seq<Result>, summary: string)

  const DEFAULT_MAX_CONCURRENCY := 10

  // No namespaces means one cluster-scoped check.
  function Namespaces(spec: PermissionSpec): (r: seq<string>)
    ensures r != []
  {
    if spec.namespaces == [] then [""] else spec.namespaces
  }

  function ForVerb(res: ResourceSpec, verb: string, nss: seq<string>): (r: seq<Check>)
    ensures |r| == |nss|
    ensures forall i :: 0 <= i < |nss| ==> r[i] == Check(res.group, res.resource, verb, nss[i])
  {
    if nss == [] then []
    else ForVerb(res, verb, nss[..|nss| - 1]) + [Check(res.group, res.resource, verb, nss[|nss| - 1])]
  }

  function ForVerbs(res: ResourceSpec, verbs: seq<string>, nss: seq<string>): seq<Check> {
    if verbs == [] then []
    else ForVerbs(res, verbs[..|verbs| - 1], nss) + ForVerb(res, verbs[|verbs| - 1], nss)
  }

  // Every resource x verb x namespace, in that order.
  function ChecksFor(resources: seq<ResourceSpec>, nss: seq<string>): seq<Check> {
    if resources == [] then []
    else
      var res := resources[|resources| - 1];
      ChecksFor(resources[..|resources| - 1], nss) + ForVerbs(res, res.verbs, nss)
  }

  function Checks(spec: PermissionSpec): seq<Check> {
    ChecksFor(spec.resources, Namespaces(spec))
  }

  // What a specification asks: whether some resource of it allows one of its verbs in one of the
  // namespaces, or in the cluster as a whole when none is given.
  predicate Asks(spec: PermissionSpec, c: Check) {
    && (exists res | res in spec.resources :: c.group == res.group && c.resource == res.resource && c.verb in res.verbs)
    && if spec.namespaces == [] then c.ns == "" else c.ns in spec.namespaces
  }

  lemma ChecksAsked(spec: PermissionSpec, c: Check)
    ensures c in Checks(spec) <==> Asks(spec, c)
  {
    ChecksCover(spec.resources, Namespaces(spec), c);
  }

  // The three nested loops, one method each.
  method BuildChecks(spec: PermissionSpec) returns (checks: seq<Check>)
    ensures checks == Checks(spec)
    ensures forall c :: c in checks <==> Asks(spec, c)
  {
    checks := [];
    var nss := if spec.namespaces == [] then [""] else spec.namespaces;
    for i := 0 to |spec.resources|
      invariant checks == ChecksFor(spec.resources[..i], nss)
    {
      assert spec.resources[..i + 1][..i] == spec.resources[..i];
      checks := AppendResource(checks, spec.resources[i], nss);
    }
    assert spec.resources[..|spec.resources|] == spec.resources;
    forall c ensures c in checks <==> Asks(spec, c) {
      ChecksAsked(spec, c);
    }
  }

  method AppendResource(before: seq<Check>, res: ResourceSpec, nss: seq<string>) returns (checks: seq<Check>)
    ensures checks == before + ForVerbs(res, res.verbs, nss)
  {
    checks := before;
    for v := 0 to |res.verbs|
      invariant checks == before + ForVerbs(res, res.verbs[..v], nss)
    {
      assert res.verbs[..v + 1][..v] == res.verbs[..v];
      ghost var rows, row := ForVerbs(res, res.verbs[..v], nss), ForVerb(res, res.verbs[v], nss);
      checks := AppendVerb(checks, res, res.verbs[v], nss);
      assert checks == before + rows + row == before + (rows + row);
    }
    assert res.verbs[..|res.verbs|] == res.verbs;
  }

  method AppendVerb(before: seq<Check>, res: ResourceSpec, verb: string, nss: seq<string>) returns (checks: seq<Check>)
    ensures checks == before + ForVerb(res, verb, nss)
  {
    checks := before;
    for n := 0 to |nss|
      invariant checks == before + ForVerb(res, verb, nss[..n])
    {
      assert nss[..n + 1][..n] == nss[..n];
      checks := checks + [Check(res.group, res.resource, verb, nss[n])];
    }
    assert nss[..|nss|] == nss;
  }

  // The checks are exactly the combinations of the specification.
  lemma {:induction false} ChecksCover(resources: seq<ResourceSpec>, nss: seq<string>, c: Check)
    ensures c in ChecksFor(resources, nss) <==>
              exists res | res in resources :: c.group == res.group && c.resource == res.resource && c.verb in res.verbs && c.ns in nss
  {
    if resources != [] {
      var init, res := resources[..|resources| - 1], resources[|resources| - 1];
      assert resources == init + [res];
      assert forall x :: x in resources <==> x in init || x == res;
      ChecksCover(init, nss, c);
      VerbsCover(res, res.verbs, nss, c);
    }
  }

  lemma {:induction false} VerbsCover(res: ResourceSpec, verbs: seq<string>, nss: seq<string>, c: Check)
    ensures c in ForVerbs(res, verbs, nss) <==>
              c.group == res.group && c.resource == res.resource && c.verb in verbs && c.ns in nss
  {
    if verbs != [] {
      var init, verb := verbs[..|verbs| - 1], verbs[|verbs| - 1];
      assert verbs == init + [verb];
      VerbsCover(res, init, nss, c);
      assert c in ForVerb(res, verb, nss) <==>
               c.group == res.group && c.resource == res.resource && c.verb == verb && c.ns in nss by {
        if c.group == res.group && c.resource == res.resource && c.verb == verb && c.ns in nss {
          var i :| 0 <= i < |nss| && nss[i] == c.ns;
          assert ForVerb(res, verb, nss)[i] == c;
        }
      }
    }
  }

  // ---- The goroutines ------------------------------------------------------------------------------

  // A goroutine is spawned, waits for the semaphore or the cancellation, makes its check,
  // writes its slot, gives the semaphore back and ends.
  datatype Phase = Unborn | Waiting | Holding | Written | Ended

  // err is true for a check that failed or was cancelled.
  datatype State = State(phases: seq<Phase>, results: seq<Option<bool>>, errs: seq<bool>, cancelled: bool)

  datatype Move =
    | Spawn(i: nat)
    | Acquire(i: nat)
    | GiveUp(i: nat)
    | Answered(i: nat, allowed: bool)
    | Failed(i: nat)
    | Release(i: nat)
    | Cancel

  // A slot holding a semaphore token; Holding alone means a check in flight.
  predicate HasToken(ph: Phase) { ph.Holding? || ph.Written? }

  function Tokens(phases: seq<Phase>): nat {
    if phases == [] then 0
    else Tokens(phases[..|phases| - 1]) + (if HasToken(phases[|phases| - 1]) then 1 else 0)
  }

  predicate WellFormed(s: State, n: nat) {
    |s.phases| == n && |s.results| == n && |s.errs| == n
  }

  predicate Enabled(s: State, limit: nat, m: Move) {
    match m
    case Cancel => true
    case Spawn(i) => i < |s.phases| && s.phases[i].Unborn? && forall j | 0 <= j < i :: !s.phases[j].Unborn?
    case Acquire(i) => i < |s.phases| && s.phases[i].Waiting? && Tokens(s.phases) < limit
    case GiveUp(i) => i < |s.phases| && s.phases[i].Waiting? && s.cancelled
    case Answered(i, _) => i < |s.phases| && s.phases[i].Holding?
    case Failed(i) => i < |s.phases| && s.phases[i].Holding?
    case Release(i) => i < |s.phases| && s.phases[i].Written?
  }

  function Apply(s: State, limit: nat, n: nat, m: Move): (s': State)
    requires WellFormed(s, n) && Enabled(s, limit, m)
    ensures WellFormed(s', n)
  {
    match m
    case Cancel => s.(cancelled := true)
    case Spawn(i) => s.(phases := s.phases[i := Waiting])
    case Acquire(i) => s.(phases := s.phases[i := Holding])
    case GiveUp(i) => s.(phases := s.phases[i := Ended], errs := s.errs[i := true])
    case Answered(i, allowed) => s.(phases := s.phases[i := Written], results := s.results[i := Some(allowed)])
    case Failed(i) => s.(phases := s.phases[i := Written], errs := s.errs[i := true])
    case Release(i) => s.(phases := s.phases[i := Ended])
  }

  function Start(n: nat): (s: State)
    ensures WellFormed(s, n)
  {
    State(seq(n, _ => Unborn), seq(n, _ => None), seq(n, _ => false), false)
  }

  ghost predicate IsRun(states: seq<State>, moves: seq<Move>, limit: nat, n: nat) {
    && |states| == |moves| + 1
    && states[0] == Start(n)
    && forall i | 0 <= i < |moves| ::
         WellFormed(states[i], n) && Enabled(states[i], limit, moves[i])
         && states[i + 1] == Apply(states[i], limit, n, moves[i])
  }

  // ---- What every run keeps -----------------------------------------------------------------------------

  // A slot is empty until its goroutine has made its check; from then on it holds an answer
  // or an error, never both.
  predicate SlotOk(s: State, n: nat, i: nat)
    requires WellFormed(s, n) && i < n
  {
    match s.phases[i]
    case Unborn => s.results[i].None? && !s.errs[i]
    case Waiting => s.results[i].None? && !s.errs[i]
    case Holding => s.results[i].None? && !s.errs[i]
    case Written => s.errs[i] <==> s.results[i].None?
    case Ended => s.errs[i] <==> s.results[i].None?
  }

  predicate Inv(s: State, limit: nat, n: nat) {
    && WellFormed(s, n)
    && Tokens(s.phases) <= limit
    && forall i | 0 <= i < n :: SlotOk(s, n, i)
  }

  lemma {:induction false} TokensUpdate(phases: seq<Phase>, i: nat, ph: Phase)
    requires i < |phases|
    ensures Tokens(phases[i := ph]) == Tokens(phases) - (if HasToken(phases[i]) then 1 else 0) + (if HasToken(ph) then 1 else 0)
  {
    var n := |phases| - 1;
    if i == n {
      assert phases[i := ph][..n] == phases[..n];
    } else {
      assert phases[i := ph][..n] == phases[..n][i := ph];
      TokensUpdate(phases[..n], i, ph);
    }
  }

  lemma {:induction false} TokensNone(phases: seq<Phase>)
    ensures Tokens(phases) == 0 <==> forall i | 0 <= i < |phases| :: !HasToken(phases[i])
  {
    if phases != [] {
      TokensNone(phases[..|phases| - 1]);
    }
  }

  lemma {:induction false} InvStart(limit: nat, n: nat)
    ensures Inv(Start(n), limit, n)
  {
    TokensNone(Start(n).phases);
  }

  // One step keeps the invariant and touches no slot but its own goroutine's.
  lemma InvStep(s: State, limit: nat, n: nat, m: Move)
    requires Inv(s, limit, n) && Enabled(s, limit, m)
    ensures Inv(Apply(s, limit, n, m), limit, n)
    ensures var s' := Apply(s, limit, n, m);
            forall j | 0 <= j < n && (m.Cancel? || j != m.i) ::
              s'.phases[j] == s.phases[j] && s'.results[j] == s.results[j] && s'.errs[j] == s.errs[j]
  {
    var s' := Apply(s, limit, n, m);
    if !m.Cancel? {
      TokensUpdate(s.phases, m.i, s'.phases[m.i]);
    }
    forall j | 0 <= j < n ensures SlotOk(s', n, j) {
      assert SlotOk(s, n, j);
    }
  }

  // ---- Progress and termination --------------------------------------------------------------------------

  predicate AllEnded(s: State) {
    forall i | 0 <= i < |s.phases| :: s.phases[i].Ended?
  }

  function StepsLeft(ph: Phase): nat {
    match ph
    case Unborn => 4
    case Waiting => 3
    case Holding => 2
    case Written => 1
    case Ended => 0
  }

  function Remaining(phases: seq<Phase>): nat {
    if phases == [] then 0 else Remaining(phases[..|phases| - 1]) + StepsLeft(phases[|phases| - 1])
  }

  lemma {:induction false} RemainingUpdate(phases: seq<Phase>, i: nat, ph: Phase)
    requires i < |phases|
    ensures Remaining(phases[i := ph]) == Remaining(phases) - StepsLeft(phases[i]) + StepsLeft(ph)
  {
    var n := |phases| - 1;
    if i == n {
      assert phases[i := ph][..n] == phases[..n];
    } else {
      assert phases[i := ph][..n] == phases[..n][i := ph];
      RemainingUpdate(phases[..n], i, ph);
    }
  }

  // Until all goroutines have ended some goroutine can move, without any cancellation.
  lemma Progress(s: State, limit: nat, n: nat) returns (m: Move)
    requires Inv(s, limit, n) && limit > 0 && !AllEnded(s)
    ensures Enabled(s, limit, m) && !m.Cancel? && !m.GiveUp? && !m.Failed?
  {
    if i :| 0 <= i < |s.phases| && HasToken(s.phases[i]) {
      m := if s.phases[i].Holding? then Answered(i, true) else Release(i);
    } else {
      TokensNone(s.phases);
      if i :| 0 <= i < |s.phases| && s.phases[i].Waiting? {
        m := Acquire(i);
      } else {
        var i := 0;
        while !s.phases[i].Unborn?
          invariant 0 <= i < |s.phases| && forall j | 0 <= j < i :: !s.phases[j].Unborn?
          invariant exists j :: i <= j < |s.phases| && s.phases[j].Unborn?
          decreases |s.phases| - i
        {
          i := i + 1;
        }
        m := Spawn(i);
      }
    }
  }

  // Each move of a goroutine brings the end nearer, so no run makes more than 4 per check.
  lemma MoveCounts(s: State, limit: nat, n: nat, m: Move)
    requires WellFormed(s, n) && Enabled(s, limit, m)
    ensures Remaining(Apply(s, limit, n, m).phases) < Remaining(s.phases) || m.Cancel?
    ensures m.Cancel? ==> Apply(s, limit, n, m).phases == s.phases
  {
    if !m.Cancel? {
      RemainingUpdate(s.phases, m.i, Apply(s, limit, n, m).phases[m.i]);
    }
  }

  // Slot i holds what check i was answered in the first k moves.
  ghost predicate SlotTells(s: State, moves: seq<Move>, k: nat, i: nat)
    requires i < |s.results| && k <= |moves|
  {
    && (forall j | 0 <= j < k && moves[j].Answered? && moves[j].i == i :: s.results[i] == Some(moves[j].allowed))
    && (s.results[i].Some? ==> exists j :: 0 <= j < k && moves[j] == Answered(i, s.results[i].value))
  }

  lemma SlotStep(s: State, moves: seq<Move>, limit: nat, n: nat, k: nat, i: nat)
    requires Inv(s, limit, n) && k < |moves| && Enabled(s, limit, moves[k])
    requires i < n && SlotTells(s, moves, k, i)
    ensures SlotTells(Apply(s, limit, n, moves[k]), moves, k + 1, i)
  {
    var s', m := Apply(s, limit, n, moves[k]), moves[k];
    assert SlotOk(s, n, i);
    if m.Answered? && m.i == i {
      assert s.results[i].None?;
    } else {
      assert s'.results[i] == s.results[i];
    }
  }

  lemma {:induction false} RunKeeps(states: seq<State>, moves: seq<Move>, limit: nat, n: nat, k: nat)
    requires IsRun(states, moves, limit, n) && k < |states|
    ensures Inv(states[k], limit, n)
    ensures forall i: nat | i < n :: SlotTells(states[k], moves, k, i)
  {
    if k == 0 {
      InvStart(limit, n);
    } else {
      RunKeeps(states, moves, limit, n, k - 1);
      InvStep(states[k - 1], limit, n, moves[k - 1]);
      forall i: nat | i < n ensures SlotTells(states[k], moves, k, i) {
        SlotStep(states[k - 1], moves, limit, n, k - 1, i);
      }
    }
  }

  // No check is answered twice.
  lemma AnsweredOnce(states: seq<State>, moves: seq<Move>, limit: nat, n: nat, j: nat, k: nat)
    requires IsRun(states, moves, limit, n) && j < k < |moves| && moves[j].Answered? && moves[k].Answered?
    ensures moves[j].i != moves[k].i
  {
    RunKeeps(states, moves, limit, n, k);
    assert SlotTells(states[k], moves, k, moves[k].i) && SlotOk(states[k], n, moves[k].i);
  }

  function Steps(moves: seq<Move>): nat {
    if moves == [] then 0 else Steps(moves[..|moves| - 1]) + (if moves[|moves| - 1].Cancel? then 0 else 1)
  }

  // Every run ends within four steps per check, not counting the cancellation.
  lemma RunsAreShort(states: seq<State>, moves: seq<Move>, limit: nat, n: nat, k: nat)
    requires IsRun(states, moves, limit, n) && k <= |moves|
    ensures Steps(moves[..k]) + Remaining(states[k].phases) <= 4 * n
  {
    AllUnborn(n);
    for i := 0 to k
      invariant Steps(moves[..i]) + Remaining(states[i].phases) <= 4 * n
    {
      MoveCounts(states[i], limit, n, moves[i]);
      assert moves[..i + 1][..i] == moves[..i];
    }
  }

  lemma {:induction false} AllUnborn(n: nat)
    ensures Remaining(seq(n, _ => Unborn)) == 4 * n
  {
    if n > 0 {
      assert seq(n, _ => Unborn)[..n - 1] == seq(n - 1, _ => Unborn);
      AllUnborn(n - 1);
    }
  }

  // ---- The report -------------------------------------------------------------------------------------------

  // Checking one after the other.
  function ResultsOf(checks: seq<Check>, answers: seq<bool>): (r: seq<Result>)
    requires |checks| == |answers|
    ensures |r| == |checks|
    ensures forall i :: 0 <= i < |r| ==> r[i] == Result(checks[i], answers[i])
  {
    seq(|checks|, i requires 0 <= i < |checks| => Result(checks[i], answers[i]))
  }

  function Pick(results: seq<Result>, allowed: bool): seq<Result> {
    if results == [] then []
    else
      var last := results[|results| - 1];
      Pick(results[..|results| - 1], allowed) + (if last.allowed == allowed then [last] else [])
  }

  function Summary(granted: nat, checks: nat, namespaces: nat): string {
    Digits(granted) + "/" + Digits(checks) + " permissions granted across " + Digits(namespaces) + " namespace(s)"
  }

  function Sequential(spec: PermissionSpec, answers: seq<bool>): Report
    requires |Checks(spec)| == |answers|
  {
    var results := ResultsOf(Checks(spec), answers);
    var granted := Pick(results, true);
    Report(granted, Pick(results, false), Summary(|granted|, |results|, |Namespaces(spec)|))
  }

  // Granted and Denied hold every result once, and each keeps the order of the checks: the
  // result at i stands after exactly the like results before i.
  lemma {:induction false} PickExact(results: seq<Result>)
    ensures multiset(Pick(results, true)) + multiset(Pick(results, false)) == multiset(results)
  {
    if results != [] {
      var init, last := results[..|results| - 1], results[|results| - 1];
      assert results == init + [last];
      PickExact(init);
      assert multiset(results) == multiset(init) + multiset{last};
      assert multiset(Pick(results, last.allowed)) == multiset(Pick(init, last.allowed)) + multiset{last};
      assert Pick(results, !last.allowed) == Pick(init, !last.allowed);
    }
  }

  lemma {:induction false} PickIn(results: seq<Result>, allowed: bool, r: Result)
    ensures r in Pick(results, allowed) <==> r in results && r.allowed == allowed
  {
    if results != [] {
      var init, last := results[..|results| - 1], results[|results| - 1];
      assert results == init + [last];
      PickIn(init, allowed, r);
    }
  }

  lemma {:induction false} PickInOrder(results: seq<Result>, i: nat)
    requires i < |results|
    ensures |Pick(results[..i], results[i].allowed)| < |Pick(results, results[i].allowed)|
    ensures Pick(results, results[i].allowed)[|Pick(results[..i], results[i].allowed)|] == results[i]
    decreases |results|
  {
    var n := |results| - 1;
    if i < n {
      PickInOrder(results[..n], i);
      assert results[..n][..i] == results[..i];
    }
  }

  // What the caller gets: None for an error.
  predicate AnyErr(s: State) {
    exists i | 0 <= i < |s.errs| :: s.errs[i]
  }

  // ---- Schedule independence ------------------------------------------------------------------------------------

  predicate Breaks(m: Move) { m.Failed? || m.GiveUp? }

  lemma {:induction false} ErrsComeFromFailures(states: seq<State>, moves: seq<Move>, limit: nat, n: nat, k: nat)
    requires IsRun(states, moves, limit, n) && k <= |moves|
    ensures |states[k].errs| == n
    ensures AnyErr(states[k]) <==> exists j | 0 <= j < k :: Breaks(moves[j])
  {
    if k > 0 {
      ErrsComeFromFailures(states, moves, limit, n, k - 1);
      var s, m := states[k - 1], moves[k - 1];
      if Breaks(m) {
        assert states[k].errs[m.i];
      } else {
        assert states[k].errs == s.errs;
      }
    }
  }

  // The API server answered each check as answers says.
  ghost predicate AnsweredAs(moves: seq<Move>, answers: seq<bool>) {
    forall i: nat | i < |answers| :: exists j :: 0 <= j < |moves| && moves[j] == Answered(i, answers[i])
  }

  // Whatever the schedule: when all goroutines have ended, either some check failed or was
  // cancelled and there is an error, or the slots hold exactly the answers given, in the order
  // of the checks.
  lemma ScheduleIndependence(states: seq<State>, moves: seq<Move>, limit: nat, n: nat, answers: seq<bool>)
    requires IsRun(states, moves, limit, n) && |answers| == n
    requires AllEnded(states[|moves|])
    ensures AnyErr(states[|moves|]) <==> exists j | 0 <= j < |moves| :: Breaks(moves[j])
    ensures !AnyErr(states[|moves|]) ==>
              (AnsweredAs(moves, answers) <==> states[|moves|].results == seq(n, i requires 0 <= i < n => Some(answers[i])))
  {
    var s := states[|moves|];
    RunKeeps(states, moves, limit, n, |moves|);
    ErrsComeFromFailures(states, moves, limit, n, |moves|);
    if !AnyErr(s) {
      forall i: nat | i < n
        ensures s.results[i] == Some(answers[i]) <==> exists j :: 0 <= j < |moves| && moves[j] == Answered(i, answers[i])
      {
        assert SlotOk(s, n, i) && SlotTells(s, moves, |moves|, i);
      }
    }
  }

  // ---- DiscoverPermissions -----------------------------------------------------------------------------------------

  predicate CanMove(phases: seq<Phase>, cancelled: bool, limit: nat, i: nat)
    requires i < |phases|
  {
    match phases[i]
    case Unborn => forall j | 0 <= j < i :: !phases[j].Unborn?
    case Waiting => Tokens(phases) < limit || cancelled
    case Holding => true
    case Written => true
    case Ended => false
  }

  lemma RunExtends(states: seq<State>, moves: seq<Move>, limit: nat, n: nat, m: Move)
    requires IsRun(states, moves, limit, n)
    requires Inv(states[|moves|], limit, n) && Enabled(states[|moves|], limit, m)
    ensures IsRun(states + [Apply(states[|moves|], limit, n, m)], moves + [m], limit, n)
  {
    var states', moves' := states + [Apply(states[|moves|], limit, n, m)], moves + [m];
    forall i | 0 <= i < |moves'|
      ensures WellFormed(states'[i], n) && Enabled(states'[i], limit, moves'[i])
      ensures states'[i + 1] == Apply(states'[i], limit, n, moves'[i])
    {
      if i < |moves| {
        assert states'[i] == states[i] && states'[i + 1] == states[i + 1] && moves'[i] == moves[i];
      }
    }
  }

  // The moves so far lead to these slots.
  ghost predicate Leads(states: seq<State>, moves: seq<Move>, limit: nat, s: State) {
    IsRun(states, moves, limit, |s.phases|) && states[|moves|] == s && Inv(s, limit, |s.phases|)
  }

  // The goroutines run in any order the semaphore allows; the server answers a check as it
  // likes or fails it, and the context may be cancelled at any time.
  method Fork(limit: nat, n: nat)
    returns (results: array<Option<bool>>, errs: array<bool>, ghost states: seq<State>, ghost moves: seq<Move>)
    requires limit > 0
    ensures IsRun(states, moves, limit, n) && AllEnded(states[|moves|])
    ensures states[|moves|].results == results[..] && states[|moves|].errs == errs[..]
    ensures results.Length == errs.Length == n
  {
    results := new Option<bool>[n](_ => None);
    errs := new bool[n](_ => false);
    var phases: seq<Phase> := seq(n, _ => Unborn);
    var cancelled := false;
    states, moves := [Start(n)], [];
    InvStart(limit, n);
    assert results[..] == Start(n).results && errs[..] == Start(n).errs;
    while exists i :: 0 <= i < |phases| && !phases[i].Ended?
      invariant |phases| == n == results.Length == errs.Length
      invariant Leads(states, moves, limit, State(phases, results[..], errs[..], cancelled))
      decreases Remaining(phases)
    {
      var cancel: bool := *;
      if cancel {
        states, moves := Extend(states, moves, limit, State(phases, results[..], errs[..], cancelled), Cancel);
        cancelled := true;
      }
      phases, states, moves := Turn(phases, cancelled, limit, results, errs, states, moves);
    }
  }

  // One goroutine makes its next step.
  method Turn(phases: seq<Phase>, cancelled: bool, limit: nat, results: array<Option<bool>>, errs: array<bool>,
              ghost states: seq<State>, ghost moves: seq<Move>)
    returns (phases': seq<Phase>, ghost states': seq<State>, ghost moves': seq<Move>)
    requires limit > 0 && |phases| == results.Length == errs.Length && exists i :: 0 <= i < |phases| && !phases[i].Ended?
    requires Leads(states, moves, limit, State(phases, results[..], errs[..], cancelled))
    modifies results, errs
    ensures |phases'| == |phases| && Remaining(phases') < Remaining(phases)
    ensures Leads(states', moves', limit, State(phases', results[..], errs[..], cancelled))
  {
    ghost var s := State(phases, results[..], errs[..], cancelled);
    var i := Choose(s, phases, cancelled, limit);
    ghost var m;
    phases', m := Advance(phases, cancelled, limit, i, results, errs);
    MoveCounts(s, limit, |phases|, m);
    states', moves' := Extend(states, moves, limit, s, m);
  }

  // The scheduler's choice: any goroutine that can move.
  method Choose(ghost s: State, phases: seq<Phase>, cancelled: bool, limit: nat) returns (i: nat)
    requires Inv(s, limit, |phases|) && s.phases == phases && s.cancelled == cancelled && limit > 0 && !AllEnded(s)
    ensures i < |phases| && CanMove(phases, cancelled, limit, i)
  {
    ghost var p := Progress(s, limit, |phases|);
    assert CanMove(phases, cancelled, limit, p.i);
    i :| 0 <= i < |phases| && CanMove(phases, cancelled, limit, i);
  }

  ghost method Extend(states: seq<State>, moves: seq<Move>, limit: nat, s: State, m: Move)
    returns (states': seq<State>, moves': seq<Move>)
    requires Leads(states, moves, limit, s) && Enabled(s, limit, m)
    ensures moves' == moves + [m] && Leads(states', moves', limit, Apply(s, limit, |s.phases|, m))
  {
    InvStep(s, limit, |s.phases|, m);
    RunExtends(states, moves, limit, |s.phases|, m);
    states', moves' := states + [Apply(s, limit, |s.phases|, m)], moves + [m];
  }

  // The next step of goroutine i.
  method Advance(phases: seq<Phase>, cancelled: bool, limit: nat, i: nat, results: array<Option<bool>>, errs: array<bool>)
    returns (phases': seq<Phase>, ghost m: Move)
    requires |phases| == results.Length == errs.Length
    requires i < |phases| && CanMove(phases, cancelled, limit, i)
    modifies results, errs
    ensures var s := State(phases, old(results[..]), old(errs[..]), cancelled);
      && !m.Cancel? && Enabled(s, limit, m)
      && State(phases', results[..], errs[..], cancelled) == Apply(s, limit, |phases|, m)
  {
    var choice: bool := *;
    if phases[i].Unborn? {
      m := Spawn(i);
      phases' := phases[i := Waiting];
    } else if phases[i].Waiting? {
      if Tokens(phases) < limit && (choice || !cancelled) {
        m := Acquire(i);
        phases' := phases[i := Holding];
      } else {
        m := GiveUp(i);
        errs[i] := true;
        phases' := phases[i := Ended];
      }
    } else if phases[i].Holding? {
      if choice {
        var allowed: bool := *;
        m := Answered(i, allowed);
        results[i] := Some(allowed);
      } else {
        m := Failed(i);
        errs[i] := true;
      }
      phases' := phases[i := Written];
    } else {
      m := Release(i);
      phases' := phases[i := Ended];
    }
  }

  // The report holds one result for everything asked, told by the answers, with its summary.
  ghost predicate Covers(spec: PermissionSpec, report: Report) {
    && (forall c :: Result(c, true) in report.granted || Result(c, false) in report.denied <==> Asks(spec, c))
    && (forall x | x in report.granted :: x.allowed) && (forall x | x in report.denied :: !x.allowed)
    && report.summary == Digits(|report.granted|) + "/" + Digits(|report.granted| + |report.denied|)
                         + " permissions granted across "
                         + Digits(if spec.namespaces == [] then 1 else |spec.namespaces|) + " namespace(s)"
  }

  lemma ResultsAsked(spec: PermissionSpec, answers: seq<bool>, c: Check)
    requires |Checks(spec)| == |answers|
    ensures var results := ResultsOf(Checks(spec), answers);
            Result(c, true) in results || Result(c, false) in results <==> Asks(spec, c)
  {
    var checks, results := Checks(spec), ResultsOf(Checks(spec), answers);
    ChecksAsked(spec, c);
    if c in checks {
      var i :| 0 <= i < |checks| && checks[i] == c;
      assert results[i] == Result(c, answers[i]);
    }
  }

  lemma PickSizes(results: seq<Result>)
    ensures |Pick(results, true)| + |Pick(results, false)| == |results|
  {
    PickExact(results);
    assert |multiset(Pick(results, true)) + multiset(Pick(results, false))| == |multiset(results)|;
  }

  lemma SequentialCovers(spec: PermissionSpec, answers: seq<bool>)
    requires |Checks(spec)| == |answers|
    ensures Covers(spec, Sequential(spec, answers))
  {
    var results := ResultsOf(Checks(spec), answers);
    PickSizes(results);
    forall x ensures x in Pick(results, true) <==> x in results && x.allowed {
      PickIn(results, true, x);
    }
    forall x ensures x in Pick(results, false) <==> x in results && !x.allowed {
      PickIn(results, false, x);
    }
    forall c ensures Result(c, true) in results || Result(c, false) in results <==> Asks(spec, c) {
      ResultsAsked(spec, answers, c);
    }
  }

  // answers are the API server's to the checks, in their order.
  method DiscoverPermissions(spec: PermissionSpec)
    returns (report: Option<Report>, ghost answers: seq<bool>, ghost states: seq<State>, ghost moves: seq<Move>)
    ensures IsRun(states, moves, if spec.maxConcurrency > 0 then spec.maxConcurrency else 10, |Checks(spec)|)
    ensures AllEnded(states[|moves|])
    ensures report.None? <==> exists j | 0 <= j < |moves| :: Breaks(moves[j])
    ensures report.Some? ==>
              |answers| == |Checks(spec)| && AnsweredAs(moves, answers) && report.value == Sequential(spec, answers)
    ensures report.Some? ==> Covers(spec, report.value)
  {
    var checks := BuildChecks(spec);
    var limit := if spec.maxConcurrency <= 0 then DEFAULT_MAX_CONCURRENCY else spec.maxConcurrency;
    var results, errs;
    results, errs, states, moves := Fork(limit, |checks|);
    ErrsComeFromFailures(states, moves, limit, |checks|, |moves|);
    answers := [];
    var failed := false;
    for i := 0 to errs.Length
      invariant failed <==> exists j | 0 <= j < i :: errs[j]
    {
      if errs[i] {
        failed := true;
      }
    }
    assert failed <==> AnyErr(states[|moves|]) by {
      assert forall j | 0 <= j < errs.Length :: errs[j] == errs[..][j];
    }
    if failed {
      return None, answers, states, moves;
    }
    answers := SlotAnswers(states, moves, limit, |checks|);
    assert forall i | 0 <= i < |checks| :: results[i] == results[..][i] == Some(answers[i]);
    var r := Partition(spec, checks, results, answers);
    SequentialCovers(spec, answers);
    report := Some(r);
  }

  // A complete run without errors has answered every check.
  lemma SlotAnswers(states: seq<State>, moves: seq<Move>, limit: nat, n: nat) returns (answers: seq<bool>)
    requires IsRun(states, moves, limit, n) && AllEnded(states[|moves|]) && !AnyErr(states[|moves|])
    ensures |answers| == n && AnsweredAs(moves, answers)
    ensures |states[|moves|].results| == n && forall i | 0 <= i < n :: states[|moves|].results[i] == Some(answers[i])
  {
    var s := states[|moves|];
    RunKeeps(states, moves, limit, n, |moves|);
    forall i: nat | i < n ensures s.results[i].Some? {
      assert SlotOk(s, n, i);
    }
    answers := seq(n, i requires 0 <= i < n => s.results[i].value);
    assert s.results == seq(n, i requires 0 <= i < n => Some(answers[i]));
    ScheduleIndependence(states, moves, limit, n, answers);
  }

  method Partition(spec: PermissionSpec, checks: seq<Check>, results: array<Option<bool>>, ghost answers: seq<bool>)
    returns (report: Report)
    requires checks == Checks(spec) && |checks| == |answers| && results.Length == |answers|
    requires forall i | 0 <= i < |answers| :: results[i] == Some(answers[i])
    ensures report == Sequential(spec, answers)
  {
    var granted, denied := [], [];
    ghost var all := ResultsOf(checks, answers);
    for i := 0 to results.Length
      invariant granted == Pick(all[..i], true) && denied == Pick(all[..i], false)
    {
      assert all[..i + 1][..i] == all[..i];
      var r := Result(checks[i], results[i].value);
      if r.allowed {
        granted := granted + [r];
      } else {
        denied := denied + [r];
      }
    }
    assert all[..|all|] == all;
    var namespaces := if |spec.namespaces| == 0 then 1 else |spec.namespaces|;
    return Report(granted, denied, Summary(|granted|, results.Length, namespaces));
  }

  // ---- DiscoverNamespacedPermissions ---------------------------------------------------------------------------------

  predicate AllAllowed(results: seq<Result>, ns: string) {
    forall r | r in results && r.check.ns == ns :: r.allowed
  }

  predicate Mentions(results: seq<Result>, ns: string) {
    exists r | r in results :: r.check.ns == ns
  }

  // The two loops over Granted and Denied; denials are processed last.
  method ByNamespace(report: Report) returns (m: map<string, bool>)
    ensures forall ns :: ns in m <==> Mentions(report.granted, ns) || Mentions(report.denied, ns)
    ensures forall ns | ns in m :: m[ns] <==> !Mentions(report.denied, ns)
  {
    m := map[];
    for i := 0 to |report.granted|
      invariant forall ns :: ns in m <==> Mentions(report.granted[..i], ns)
      invariant forall ns | ns in m :: m[ns]
    {
      assert report.granted[..i + 1] == report.granted[..i] + [report.granted[i]];
      m := m[report.granted[i].check.ns := true];
    }
    assert report.granted[..|report.granted|] == report.granted;
    for i := 0 to |report.denied|
      invariant forall ns :: ns in m <==> Mentions(report.granted, ns) || Mentions(report.denied[..i], ns)
      invariant forall ns | ns in m :: m[ns] <==> !Mentions(report.denied[..i], ns)
    {
      assert report.denied[..i + 1] == report.denied[..i] + [report.denied[i]];
      m := m[report.denied[i].check.ns := false];
    }
    assert report.denied[..|report.denied|] == report.denied;
  }

  lemma PickMentions(results: seq<Result>, ns: string)
    ensures Mentions(Pick(results, true), ns) || Mentions(Pick(results, false), ns) <==> Mentions(results, ns)
    ensures Mentions(Pick(results, false), ns) <==> !AllAllowed(results, ns)
  {
    forall r, a ensures r in Pick(results, a) <==> r in results && r.allowed == a {
      PickIn(results, a, r);
    }
  }

  function OneVerb(group: string, resource: string, verb: string, namespaces: seq<string>): PermissionSpec {
    PermissionSpec([ResourceSpec(group, resource, [verb])], namespaces, 0)
  }

  // The checks of one verb: one for each namespace, or one for the cluster.
  lemma OneVerbChecks(group: string, resource: string, verb: string, namespaces: seq<string>)
    ensures var checks, nss := Checks(OneVerb(group, resource, verb, namespaces)), if namespaces == [] then [""] else namespaces;
            |checks| == |nss| && forall i | 0 <= i < |nss| :: checks[i] == Check(group, resource, verb, nss[i])
  {
    var res := ResourceSpec(group, resource, [verb]);
    var nss := if namespaces == [] then [""] else namespaces;
    assert ForVerbs(res, [], nss) == [] && [verb][..0] == [];
    assert ForVerbs(res, [verb], nss) == ForVerb(res, verb, nss);
    assert ChecksFor([], nss) == [] && [res][..0] == [];
    assert ChecksFor([res], nss) == [] + ForVerbs(res, res.verbs, nss);
  }

  // Fail-closed: an error yields no map; otherwise each namespace asked about, or the cluster as
  // a whole, is mapped to whether every check of it was allowed.
  method DiscoverNamespacedPermissions(group: string, resource: string, verb: string, namespaces: seq<string>)
    returns (m: Option<map<string, bool>>, ghost answers: seq<bool>, ghost states: seq<State>, ghost moves: seq<Move>)
    ensures IsRun(states, moves, 10, if namespaces == [] then 1 else |namespaces|) && AllEnded(states[|moves|])
    ensures m.None? <==> exists j | 0 <= j < |moves| :: Breaks(moves[j])
    ensures m.Some? ==>
              var nss := if namespaces == [] then [""] else namespaces;
              && |answers| == |nss| && AnsweredAs(moves, answers)
              && m.value.Keys == (set ns | ns in nss)
              && forall ns | ns in m.value :: m.value[ns] <==> AllTrue(nss, answers, ns)
  {
    var spec := OneVerb(group, resource, verb, namespaces);
    OneVerbChecks(group, resource, verb, namespaces);
    var report;
    report, answers, states, moves := DiscoverPermissions(spec);
    if report.None? {
      return None, answers, states, moves;
    }
    var byNs := MapOf(spec, if namespaces == [] then [""] else namespaces, answers, report.value);
    m := Some(byNs);
  }

  method MapOf(ghost spec: PermissionSpec, ghost nss: seq<string>, ghost answers: seq<bool>, report: Report)
    returns (m: map<string, bool>)
    requires |Checks(spec)| == |answers| == |nss| && forall i | 0 <= i < |nss| :: Checks(spec)[i].ns == nss[i]
    requires report == Sequential(spec, answers)
    ensures m.Keys == (set ns | ns in nss)
    ensures forall ns | ns in m :: m[ns] <==> AllTrue(nss, answers, ns)
  {
    m := ByNamespace(report);
    VerdictsOf(spec, nss, answers, report, m);
  }

  // The map made of the report, in terms of the namespaces asked about.
  lemma VerdictsOf(spec: PermissionSpec, nss: seq<string>, answers: seq<bool>, report: Report, m: map<string, bool>)
    requires |Checks(spec)| == |answers| == |nss| && forall i | 0 <= i < |nss| :: Checks(spec)[i].ns == nss[i]
    requires report == Sequential(spec, answers)
    requires forall ns :: ns in m <==> Mentions(report.granted, ns) || Mentions(report.denied, ns)
    requires forall ns | ns in m :: m[ns] <==> !Mentions(report.denied, ns)
    ensures m.Keys == (set ns | ns in nss)
    ensures forall ns | ns in m :: m[ns] <==> AllTrue(nss, answers, ns)
  {
    var results := ResultsOf(Checks(spec), answers);
    forall ns
      ensures ns in m <==> ns in nss
      ensures ns in m ==> (m[ns] <==> AllTrue(nss, answers, ns))
    {
      PickMentions(results, ns);
      OneVerbVerdict(results, nss, answers, ns);
    }
  }

  // Every answer about ns is yes.
  predicate AllTrue(nss: seq<string>, answers: seq<bool>, ns: string)
    requires |answers| == |nss|
  {
    forall i | 0 <= i < |nss| && nss[i] == ns :: answers[i]
  }

  lemma OneVerbVerdict(results: seq<Result>, nss: seq<string>, answers: seq<bool>, ns: string)
    requires |results| == |nss| == |answers|
    requires forall i | 0 <= i < |results| :: results[i].check.ns == nss[i] && results[i].allowed == answers[i]
    ensures Mentions(results, ns) <==> ns in nss
    ensures AllAllowed(results, ns) <==> AllTrue(nss, answers, ns)
  {
    if ns in nss {
      var i :| 0 <= i < |nss| && nss[i] == ns;
      assert results[i] in results;
    }
    if AllAllowed(results, ns) {
      forall i | 0 <= i < |nss| && nss[i] == ns ensures answers[i] {
        assert results[i] in results;
      }
    }
  }
}
