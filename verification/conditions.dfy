// pkg/graceful/status.go: the two coupled status conditions, written into a list that may hold
// others.
module Conditions {
  import opened Strings

  datatype Status = True | False | Unknown
  datatype Condition = Condition(typ: string, status: Status, reason: string, message: string, since: nat, generation: int)

  const GRANTED := "PermissionGranted"
  const DEGRADED := "Degraded"

  const ALL_AVAILABLE := "AllPermissionsAvailable"
  const MISSING := "MissingPermissions"
  const INSUFFICIENT := "InsufficientRBAC"
  const OPERATIONAL := "FullyOperational"
  const PENDING := "ProvisioningPending"
  const IN_PROGRESS := "ProvisioningInProgress"
  const PERMISSION_DENIED := "PermissionDenied"

  // ---- One condition ----------------------------------------------------------------------------

  // The conditions a call sets carry no time and no observed generation of their own.
  function Fresh(typ: string, status: Status, reason: string, message: string): Condition {
    Condition(typ, status, reason, message, 0, 0)
  }

  function Find(cs: seq<Condition>, typ: string): Option<Condition> {
    if cs == [] then None else if cs[0].typ == typ then Some(cs[0]) else Find(cs[1..], typ)
  }

  // The condition that takes the place of old_.
  function Replacement(old_: Condition, c: Condition, now: nat): Condition {
    if old_.status == c.status && old_.reason == c.reason && old_.message == c.message then old_
    else c.(since := if old_.status != c.status then now else old_.since)
  }

  function Set(cs: seq<Condition>, c: Condition, now: nat): seq<Condition> {
    if cs == [] then [c.(since := now)]
    else if cs[0].typ == c.typ then [Replacement(cs[0], c, now)] + cs[1..]
    else [cs[0]] + Set(cs[1..], c, now)
  }

  function Count(cs: seq<Condition>, typ: string): nat {
    if cs == [] then 0 else (if cs[0].typ == typ then 1 else 0) + Count(cs[1..], typ)
  }

  // Setting a condition of one type reads back as its replacement, adds it at the end when it
  // is new, and leaves the conditions of other types in place as they are.
  lemma {:induction false} SetLaws(cs: seq<Condition>, c: Condition, now: nat, typ: string)
    ensures Find(Set(cs, c, now), c.typ) ==
              Some(match Find(cs, c.typ) case None => c.(since := now) case Some(o) => Replacement(o, c, now))
    ensures typ != c.typ ==> Find(Set(cs, c, now), typ) == Find(cs, typ)
    ensures Count(Set(cs, c, now), c.typ) == if Find(cs, c.typ).None? then 1 else Count(cs, c.typ)
    ensures typ != c.typ ==> Count(Set(cs, c, now), typ) == Count(cs, typ)
    ensures |Set(cs, c, now)| == if Find(cs, c.typ).None? then |cs| + 1 else |cs|
    ensures forall i | 0 <= i < |cs| && cs[i].typ != c.typ :: Set(cs, c, now)[i] == cs[i]
  {
    if cs != [] && cs[0].typ != c.typ {
      SetLaws(cs[1..], c, now, typ);
    }
  }

  lemma {:induction false} SetAt(cs: seq<Condition>, i: nat, c: Condition, now: nat)
    requires i <= |cs| && forall j | 0 <= j < i :: cs[j].typ != c.typ
    ensures i < |cs| && cs[i].typ == c.typ ==> Set(cs, c, now) == cs[i := Replacement(cs[i], c, now)]
    ensures i == |cs| ==> Set(cs, c, now) == cs + [c.(since := now)]
  {
    if i > 0 {
      SetAt(cs[1..], i - 1, c, now);
    }
  }

  // ---- Both conditions -----------------------------------------------------------------------------

  // reason is the custom reason of a denial, "" for the default.
  datatype Verdict = Granted | Denied(reason: string)

  function GrantedFor(v: Verdict, message: string): Condition {
    match v
    case Granted => Fresh(GRANTED, True, ALL_AVAILABLE, message)
    case Denied(reason) => Fresh(GRANTED, False, if reason != "" then reason else MISSING, message)
  }

  function DegradedFor(v: Verdict, message: string): Condition {
    match v
    case Granted => Fresh(DEGRADED, False, OPERATIONAL, message)
    case Denied(reason) =>
      if reason == PENDING then Fresh(DEGRADED, False, IN_PROGRESS, message)
      else Fresh(DEGRADED, True, INSUFFICIENT, message)
  }

  function SetBoth(cs: seq<Condition>, v: Verdict, message: string, now: nat): seq<Condition> {
    Set(Set(cs, GrantedFor(v, message), now), DegradedFor(v, message), now)
  }

  // Both conditions are there, with these statuses, reasons and message.
  predicate Shows(cs: seq<Condition>, granted: Status, why: string, degraded: Status, how: string, message: string) {
    var g, d := Find(cs, "PermissionGranted"), Find(cs, "Degraded");
    && g.Some? && g.value.status == granted && g.value.reason == why && g.value.message == message
    && d.Some? && d.value.status == degraded && d.value.reason == how && d.value.message == message
  }

  // What the verdicts show: only a denial that may still be provisioned does not degrade.
  lemma SetBothShows(cs: seq<Condition>, v: Verdict, message: string, now: nat)
    ensures var cs' := SetBoth(cs, v, message, now);
            match v
            case Granted => Shows(cs', True, "AllPermissionsAvailable", False, "FullyOperational", message)
            case Denied(reason) =>
              if reason == "" then Shows(cs', False, "MissingPermissions", True, "InsufficientRBAC", message)
              else if reason == "ProvisioningPending" then Shows(cs', False, reason, False, "ProvisioningInProgress", message)
              else Shows(cs', False, reason, True, "InsufficientRBAC", message)
  {
    var g, d := GrantedFor(v, message), DegradedFor(v, message);
    SetLaws(cs, g, now, DEGRADED);
    SetLaws(Set(cs, g, now), d, now, GRANTED);
  }

  class StatusObject {
    var conditions: array<Condition>

    constructor (initial: array<Condition>)
      ensures conditions == initial
    {
      conditions := initial;
    }

    method FindCondition(typ: string) returns (r: Option<Condition>)
      ensures r == Find(conditions[..], typ)
    {
      for i := 0 to conditions.Length
        invariant Find(conditions[..], typ) == Find(conditions[i..], typ)
      {
        assert conditions[i..][0] == conditions[i] && conditions[i..][1..] == conditions[i + 1..];
        if conditions[i].typ == typ {
          return Some(conditions[i]);
        }
      }
      return None;
    }

    // Overwrites the condition in place, or hands the object a longer list.
    method SetCondition(c: Condition, now: nat)
      modifies this, conditions
      ensures conditions[..] == Set(old(conditions[..]), c, now)
      ensures conditions == old(conditions) || fresh(conditions)
    {
      for i := 0 to conditions.Length
        invariant conditions == old(conditions) && conditions[..] == old(conditions[..])
        invariant forall j | 0 <= j < i :: conditions[j].typ != c.typ
      {
        var existing := conditions[i];
        if existing.typ == c.typ {
          SetAt(conditions[..], i, c, now);
          if existing.status == c.status && existing.reason == c.reason && existing.message == c.message {
            assert conditions[..] == conditions[..][i := existing];
            return;
          }
          conditions[i] := c.(since := if existing.status != c.status then now else existing.since);
          assert conditions[..] == old(conditions[..])[i := Replacement(existing, c, now)];
          return;
        }
      }
      SetAt(conditions[..], conditions.Length, c, now);
      Append(c.(since := now));
    }

    method Append(c: Condition)
      modifies this
      ensures conditions[..] == old(conditions[..]) + [c] && fresh(conditions)
    {
      var longer := new Condition[conditions.Length + 1](_ => c);
      for i := 0 to conditions.Length
        invariant conditions == old(conditions) && conditions[..] == old(conditions[..])
        invariant longer[conditions.Length] == c && forall j | 0 <= j < i :: longer[j] == conditions[j]
      {
        longer[i] := conditions[i];
      }
      assert longer[..] == conditions[..] + [c];
      conditions := longer;
    }

    method SetPermissionGranted(v: Verdict, message: string, now: nat)
      modifies this, conditions
      ensures conditions[..] == SetBoth(old(conditions[..]), v, message, now)
      ensures conditions == old(conditions) || fresh(conditions)
    {
      if v.Granted? {
        SetCondition(Fresh(GRANTED, True, ALL_AVAILABLE, message), now);
        SetCondition(Fresh(DEGRADED, False, OPERATIONAL, message), now);
      } else {
        var reason := MISSING;
        if v.reason != "" {
          reason := v.reason;
        }
        SetCondition(Fresh(GRANTED, False, reason, message), now);
        if v.reason == PENDING {
          SetCondition(Fresh(DEGRADED, False, IN_PROGRESS, message), now);
        } else {
          SetCondition(Fresh(DEGRADED, True, INSUFFICIENT, message), now);
        }
      }
    }
  }
}
