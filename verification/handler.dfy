// pkg/graceful/graceful.go and discovery.go: Do and ApplyReport, and what a whole run of them
// makes of the two status conditions and of the retry delays.
module Handler {
  import opened Strings
  import opened Backoff
  import opened Conditions
  import Discovery

  // ---- Operations on a status ---------------------------------------------------------------------

  datatype Op =
    | Worked(now: nat)
    | Refused(reason: string, message: string, now: nat)
    | Reported(denied: bool, message: string, now: nat)

  const RESTORED := "All permissions available"

  // The reasons Do gives: by default, or from the lookup of the expected RoleBinding.
  predicate KnownOp(op: Op) {
    op.Refused? ==> op.reason in {MISSING, PERMISSION_DENIED, PENDING}
  }

  predicate ShowsDenial(cs: seq<Condition>) {
    Find(cs, GRANTED).Some? && Find(cs, GRANTED).value.status == False
  }

  function ApplyOp(cs: seq<Condition>, op: Op): seq<Condition> {
    match op
    case Worked(now) => if ShowsDenial(cs) then SetBoth(cs, Granted, RESTORED, now) else cs
    case Refused(reason, message, now) => SetBoth(cs, Denied(reason), message, now)
    case Reported(denied, message, now) => SetBoth(cs, if denied then Denied("") else Granted, message, now)
  }

  function After(cs: seq<Condition>, ops: seq<Op>): seq<Condition> {
    if ops == [] then cs else ApplyOp(After(cs, ops[..|ops| - 1]), ops[|ops| - 1])
  }

  // ---- The history, without conditions -----------------------------------------------------------------

  datatype Entry = Entry(verdict: Verdict, message: string, now: nat)

  // What an operation adds: a success counts only after a denial.
  function Judged(h: seq<Entry>, op: Op): seq<Entry> {
    match op
    case Worked(now) =>
      if h != [] && h[|h| - 1].verdict.Denied? then h + [Entry(Granted, RESTORED, now)] else h
    case Refused(reason, message, now) => h + [Entry(Denied(reason), message, now)]
    case Reported(denied, message, now) => h + [Entry(if denied then Denied("") else Granted, message, now)]
  }

  // The verdicts given so far.
  function History(ops: seq<Op>): seq<Entry> {
    if ops == [] then [] else Judged(History(ops[..|ops| - 1]), ops[|ops| - 1])
  }

  predicate IsGranted(v: Verdict) { v.Granted? }
  predicate IsDegraded(v: Verdict) { v.Denied? && v.reason != PENDING }

  // When the verdicts last changed in the given respect.
  function LastFlip(h: seq<Entry>, p: Verdict -> bool): nat
    requires h != []
  {
    var n := |h| - 1;
    if n == 0 || p(h[n].verdict) != p(h[n - 1].verdict) then h[n].now else LastFlip(h[..n], p)
  }

  predicate Neither(cs: seq<Condition>) {
    Find(cs, GRANTED).None? && Find(cs, DEGRADED).None?
  }

  // The two conditions that a history calls for.
  ghost predicate Reflects(cs: seq<Condition>, h: seq<Entry>) {
    if h == [] then Neither(cs)
    else
      var e := h[|h| - 1];
      && Find(cs, GRANTED) == Some(GrantedFor(e.verdict, e.message).(since := LastFlip(h, IsGranted)))
      && Find(cs, DEGRADED) == Some(DegradedFor(e.verdict, e.message).(since := LastFlip(h, IsDegraded)))
      && Count(cs, GRANTED) == 1 && Count(cs, DEGRADED) == 1
  }

  lemma FlipAppend(h: seq<Entry>, e: Entry, p: Verdict -> bool)
    ensures LastFlip(h + [e], p) ==
              if h == [] || p(e.verdict) != p(h[|h| - 1].verdict) then e.now else LastFlip(h, p)
  {
    assert (h + [e])[..|h|] == h;
  }

  // A replaced condition is dated by the flip of its status.
  lemma Dated(old_: Condition, c: Condition, since: nat, now: nat)
    requires old_.typ == c.typ && old_.generation == c.generation && old_.since == since
    ensures Replacement(old_, c, now) == c.(since := if old_.status != c.status then now else since)
  {}

  lemma SetBothReflects(cs: seq<Condition>, h: seq<Entry>, e: Entry)
    requires Reflects(cs, h)
    ensures Reflects(SetBoth(cs, e.verdict, e.message, e.now), h + [e])
  {
    var g, d := GrantedFor(e.verdict, e.message), DegradedFor(e.verdict, e.message);
    SetLaws(cs, g, e.now, DEGRADED);
    SetLaws(Set(cs, g, e.now), d, e.now, GRANTED);
    FlipAppend(h, e, IsGranted);
    FlipAppend(h, e, IsDegraded);
    if h != [] {
      Dated(Find(cs, GRANTED).value, g, LastFlip(h, IsGranted), e.now);
      Dated(Find(cs, DEGRADED).value, d, LastFlip(h, IsDegraded), e.now);
    }
  }

  lemma OpReflects(cs: seq<Condition>, h: seq<Entry>, op: Op)
    requires Reflects(cs, h)
    ensures Reflects(ApplyOp(cs, op), Judged(h, op))
  {
    match op
    case Worked(now) =>
      if ShowsDenial(cs) {
        SetBothReflects(cs, h, Entry(Granted, RESTORED, now));
      }
    case Refused(reason, message, now) => SetBothReflects(cs, h, Entry(Denied(reason), message, now));
    case Reported(denied, message, now) => SetBothReflects(cs, h, Entry(if denied then Denied("") else Granted, message, now));
  }

  // After any sequence of operations on a status that had neither condition, both are absent or
  // both there once, as the last verdict says, each dated by the latest flip of its own status.
  lemma {:induction false} ConditionsFollowHistory(cs: seq<Condition>, ops: seq<Op>)
    requires Neither(cs)
    ensures Reflects(After(cs, ops), History(ops))
  {
    if ops != [] {
      var init, op := ops[..|ops| - 1], ops[|ops| - 1];
      ConditionsFollowHistory(cs, init);
      OpReflects(After(cs, init), History(init), op);
    }
  }

  // The legal combinations.
  predicate Coupled(cs: seq<Condition>, message: string) {
    || Shows(cs, True, "AllPermissionsAvailable", False, "FullyOperational", message)
    || Shows(cs, False, "ProvisioningPending", False, "ProvisioningInProgress", message)
    || Shows(cs, False, "MissingPermissions", True, "InsufficientRBAC", message)
    || Shows(cs, False, "PermissionDenied", True, "InsufficientRBAC", message)
  }

  lemma {:induction false} KnownReasons(ops: seq<Op>)
    requires forall op | op in ops :: KnownOp(op)
    ensures forall e | e in History(ops) && e.verdict.Denied? :: e.verdict.reason in {"", MISSING, PERMISSION_DENIED, PENDING}
  {
    if ops != [] {
      assert ops == ops[..|ops| - 1] + [ops[|ops| - 1]] && ops[|ops| - 1] in ops;
      KnownReasons(ops[..|ops| - 1]);
    }
  }

  lemma AlwaysCoupled(cs: seq<Condition>, ops: seq<Op>)
    requires Neither(cs) && forall op | op in ops :: KnownOp(op)
    ensures var cs' := After(cs, ops);
      || Neither(cs')
      || (Count(cs', GRANTED) == 1 && Count(cs', DEGRADED) == 1
          && exists message :: Coupled(cs', message))
  {
    ConditionsFollowHistory(cs, ops);
    KnownReasons(ops);
    var h := History(ops);
    if h != [] {
      assert h[|h| - 1] in h;
      assert Coupled(After(cs, ops), h[|h| - 1].message);
    }
  }

  // Every other condition keeps its place and its value.
  lemma {:induction false} OthersKept(cs: seq<Condition>, ops: seq<Op>, i: nat)
    requires i < |cs| && cs[i].typ != GRANTED && cs[i].typ != DEGRADED
    ensures i < |After(cs, ops)| && After(cs, ops)[i] == cs[i]
  {
    if ops != [] {
      var init, op := ops[..|ops| - 1], ops[|ops| - 1];
      OthersKept(cs, init, i);
      var before := After(cs, init);
      match op
      case Worked(now) => SetBothKeeps(before, Granted, RESTORED, now, i);
      case Refused(reason, message, now) => SetBothKeeps(before, Denied(reason), message, now, i);
      case Reported(denied, message, now) =>
        SetBothKeeps(before, if denied then Denied("") else Granted, message, now, i);
    }
  }

  lemma SetBothKeeps(cs: seq<Condition>, v: Verdict, message: string, now: nat, i: nat)
    requires i < |cs| && cs[i].typ != GRANTED && cs[i].typ != DEGRADED
    ensures i < |SetBoth(cs, v, message, now)| && SetBoth(cs, v, message, now)[i] == cs[i]
  {
    var g, d := GrantedFor(v, message), DegradedFor(v, message);
    SetLaws(cs, g, now, DEGRADED);
    SetLaws(Set(cs, g, now), d, now, GRANTED);
  }

  // ---- The methods -----------------------------------------------------------------------------------------

  datatype FnResult = FnOk | FnForbidden(key: string, message: string) | FnError
  datatype Lookup = BindingFound | BindingMissing | LookupFailed
  datatype DoResult = Proceed | RequeueAfter(delay: int) | Fail

  function EventOf(res: FnResult): Event {
    match res
    case FnOk => Success
    case FnForbidden(key, _) => Forbidden(key)
    case FnError => OtherError
  }

  class GracefulHandler {
    const options: Options
    const managedName: string
    const tracker: Tracker

    constructor (options: Options, managedName: string)
      ensures this.options == options && this.managedName == managedName
      ensures fresh(tracker) && tracker.Valid() && tracker.history == []
    {
      this.options := options;
      this.managedName := managedName;
      tracker := new Tracker();
    }

    function ReasonFor(lookup: Lookup): string {
      if managedName == "" then MISSING
      else if lookup.BindingMissing? then PENDING
      else PERMISSION_DENIED
    }

    // The delay returned for a key is that of its own streak of Forbidden errors; the
    // conditions move by one operation, and not at all for another error. A status write that
    // fails, written being false, is an error, but a success with no denial to clear writes none.
    method Do(status: StatusObject, res: FnResult, lookup: Lookup, written: bool, now: nat) returns (r: DoResult)
      requires tracker.Valid() && options.den > 0
      modifies tracker, status, status.conditions
      ensures tracker.Valid() && tracker.history == old(tracker.history) + [EventOf(res)]
      ensures res.FnOk? ==>
                && status.conditions[..] == ApplyOp(old(status.conditions[..]), Worked(now))
                && r == if ShowsDenial(old(status.conditions[..])) && !written then Fail else Proceed
      ensures res.FnOk? && !ShowsDenial(old(status.conditions[..])) ==> status.conditions[..] == old(status.conditions[..])
      ensures res.FnForbidden? ==>
                status.conditions[..] == ApplyOp(old(status.conditions[..]), Refused(ReasonFor(lookup), res.message, now))
      ensures res.FnForbidden? ==>
                var cs := status.conditions[..];
                if managedName == "" then Shows(cs, False, "MissingPermissions", True, "InsufficientRBAC", res.message)
                else if lookup.BindingMissing? then Shows(cs, False, "ProvisioningPending", False, "ProvisioningInProgress", res.message)
                else Shows(cs, False, "PermissionDenied", True, "InsufficientRBAC", res.message)
      ensures res.FnOk? && ShowsDenial(old(status.conditions[..])) ==>
                Shows(status.conditions[..], True, "AllPermissionsAvailable", False, "FullyOperational", "All permissions available")
      ensures res.FnForbidden? ==>
                r == if written then RequeueAfter(Delay(options, Streak(Only(tracker.history, res.key), res.key))) else Fail
      ensures res.FnError? ==> status.conditions[..] == old(status.conditions[..]) && r == Fail
      ensures status.conditions == old(status.conditions) || fresh(status.conditions)
    {
      match res {
        case FnOk => r := Restore(status, written, now);
        case FnError =>
          tracker.Note(OtherError);
          return Fail;
        case FnForbidden(key, message) =>
          RefusalShows(status.conditions[..], lookup, message, now);
          r := Refuse(status, key, message, lookup, written, now);
      }
    }

    // After a success: a denial still shown is cleared.
    method Restore(status: StatusObject, written: bool, now: nat) returns (r: DoResult)
      requires tracker.Valid()
      modifies tracker, status, status.conditions
      ensures tracker.Valid() && tracker.history == old(tracker.history) + [Success]
      ensures status.conditions[..] == ApplyOp(old(status.conditions[..]), Worked(now))
      ensures r == if ShowsDenial(old(status.conditions[..])) && !written then Fail else Proceed
      ensures ShowsDenial(old(status.conditions[..])) ==>
                Shows(status.conditions[..], True, "AllPermissionsAvailable", False, "FullyOperational", "All permissions available")
      ensures status.conditions == old(status.conditions) || fresh(status.conditions)
    {
      tracker.Note(Success);
      var prev := status.FindCondition(GRANTED);
      if prev.Some? && prev.value.status == False {
        SetBothShows(status.conditions[..], Granted, RESTORED, now);
        status.SetPermissionGranted(Granted, RESTORED, now);
        if !written {
          return Fail;
        }
      }
      return Proceed;
    }

    method NextDelay(key: string) returns (delay: int)
      requires tracker.Valid() && options.den > 0
      modifies tracker
      ensures tracker.Valid() && tracker.history == old(tracker.history) + [Forbidden(key)]
      ensures delay == Delay(options, Streak(Only(tracker.history, key), key))
    {
      var count := tracker.Increment(key);
      StreakIsOwn(tracker.history, key);
      delay := CalculateBackoff(options, count);
    }

    // After a Forbidden error: the denial is shown with its reason, and the delay is the key's own.
    method Refuse(status: StatusObject, key: string, message: string, lookup: Lookup, written: bool, now: nat)
      returns (r: DoResult)
      requires tracker.Valid() && options.den > 0
      modifies tracker, status, status.conditions
      ensures tracker.Valid() && tracker.history == old(tracker.history) + [Forbidden(key)]
      ensures status.conditions[..] == ApplyOp(old(status.conditions[..]), Refused(ReasonFor(lookup), message, now))
      ensures r == if written then RequeueAfter(Delay(options, Streak(Only(tracker.history, key), key))) else Fail
      ensures status.conditions == old(status.conditions) || fresh(status.conditions)
    {
      var requeue := NextDelay(key);
      var reason := MISSING;
      if managedName != "" {
        if lookup.BindingMissing? {
          reason := PENDING;
        } else {
          reason := PERMISSION_DENIED;
        }
      }
      status.SetPermissionGranted(Denied(reason), message, now);
      if !written {
        return Fail;
      }
      return RequeueAfter(requeue);
    }

    lemma RefusalShows(cs: seq<Condition>, lookup: Lookup, message: string, now: nat)
      ensures var cs' := ApplyOp(cs, Refused(ReasonFor(lookup), message, now));
              if managedName == "" then Shows(cs', False, "MissingPermissions", True, "InsufficientRBAC", message)
              else if lookup.BindingMissing? then Shows(cs', False, "ProvisioningPending", False, "ProvisioningInProgress", message)
              else Shows(cs', False, "PermissionDenied", True, "InsufficientRBAC", message)
    {
      SetBothShows(cs, Denied(ReasonFor(lookup)), message, now);
    }

    method ResetBackoff(key: string)
      requires tracker.Valid()
      modifies tracker
      ensures tracker.Valid() && tracker.history == old(tracker.history) + [Reset(key)]
    {
      tracker.ResetKey(key);
    }
  }

  method ApplyReport(status: StatusObject, report: Discovery.Report, denied: string, now: nat)
    modifies status, status.conditions
    ensures status.conditions[..] == ApplyOp(old(status.conditions[..]),
              Reported(report.denied != [], if report.denied != [] then denied else report.summary, now))
    ensures if report.denied != [] then Shows(status.conditions[..], False, "MissingPermissions", True, "InsufficientRBAC", denied)
            else Shows(status.conditions[..], True, "AllPermissionsAvailable", False, "FullyOperational", report.summary)
    ensures status.conditions == old(status.conditions) || fresh(status.conditions)
  {
    if |report.denied| > 0 {
      SetBothShows(status.conditions[..], Denied(""), denied, now);
      status.SetPermissionGranted(Denied(""), denied, now);
    } else {
      SetBothShows(status.conditions[..], Granted, report.summary, now);
      status.SetPermissionGranted(Granted, report.summary, now);
    }
  }
}
