// pkg/scoper/scoper.go: the checks on a target at set-up, and the targets cleanup visits.
module ScoperSetup {
  import opened Strings
  import opened ScoperTypes
  import opened ScoperSystem
  import opened ScoperSafety

  // A field path below .spec, which users who may only set metadata do not control.
  predicate SpecPath(path: string) {
    "spec." <= TrimDot(path)
  }

  datatype Strategy = Static | FromFields | FromFunction

  function Strategies(t: Target): set<Strategy> {
    (if t.sa.name != "" then {Static} else {})
    + (if t.saSource.Some? then {FromFields} else {})
    + (if t.saFunc.Some? then {FromFunction} else {})
  }

  // The targets that Setup accepts: one way to find the service account, a name for the
  // binding, field paths below .spec, and no webhook or label trigger where the service
  // account or the namespace can only be read from a CR.
  predicate Accepted(t: Target) {
    && t.gvk.kind != "" && t.clusterRole != ""
    && (t.rbName != "" || t.nameFunc.Some?)
    && |Strategies(t)| == 1
    && (Static in Strategies(t) ==> t.sa.ns != "")
    && (t.saSource.Some? ==>
          && t.saSource.value.nameField != "" && SpecPath(t.saSource.value.nameField)
          && (t.saSource.value.nsField != "" ==> SpecPath(t.saSource.value.nsField)))
    && (t.nsField.Some? ==> SpecPath(t.nsField.value))
    && (t.webhook || t.trigger.Some? ==> t.nsField.None? && Strategies(t) == {Static})
  }

  // A path into the spec of a CR, with or without a leading dot.
  predicate BelowSpec(path: string) {
    "spec." <= path || ".spec." <= path
  }

  lemma BelowSpecIff(path: string)
    ensures SpecPath(path) <==> BelowSpec(path)
  {
    if ".spec." <= path {
      assert path[1..][..5] == path[1..6] == "spec.";
    }
    if path != "" && path[0] == '.' && "spec." <= path[1..] {
      assert path[..6] == ['.'] + path[1..][..5];
    }
  }

  // Accepted are exactly the targets with a kind, a ClusterRole and a name, one way to find the
  // service account, paths below the spec only, and neither webhook nor trigger where the
  // namespace or the service account has to be read from a CR.
  lemma AcceptedIff(t: Target)
    ensures Accepted(t) <==>
              && t.gvk.kind != "" && t.clusterRole != "" && (t.rbName != "" || t.nameFunc.Some?)
              && (|| (t.sa.name != "" && t.sa.ns != "" && t.saSource.None? && t.saFunc.None?)
                  || (t.sa.name == "" && t.saSource.Some? && t.saFunc.None?)
                  || (t.sa.name == "" && t.saSource.None? && t.saFunc.Some?))
              && (t.saSource.Some? ==>
                    && t.saSource.value.nameField != "" && BelowSpec(t.saSource.value.nameField)
                    && (t.saSource.value.nsField == "" || BelowSpec(t.saSource.value.nsField)))
              && (t.nsField.Some? ==> BelowSpec(t.nsField.value))
              && (t.webhook || t.trigger.Some? ==> t.nsField.None? && t.saSource.None? && t.saFunc.None?)
  {
    var n := (if t.sa.name != "" then 1 else 0) + (if t.saSource.Some? then 1 else 0) + (if t.saFunc.Some? then 1 else 0);
    CountStrategies(t, n);
    if t.saSource.Some? {
      BelowSpecIff(t.saSource.value.nameField);
      BelowSpecIff(t.saSource.value.nsField);
    }
    if t.nsField.Some? {
      BelowSpecIff(t.nsField.value);
    }
    assert t.sa.name != "" <==> Static in Strategies(t);
  }

  lemma CountStrategies(t: Target, n: nat)
    requires n == (if t.sa.name != "" then 1 else 0) + (if t.saSource.Some? then 1 else 0)
                  + (if t.saFunc.Some? then 1 else 0)
    ensures n == |Strategies(t)|
    ensures n == 1 && t.saSource.None? && t.saFunc.None? ==> Strategies(t) == {Static}
  {}

  method ValidateTarget(t: Target) returns (ok: bool)
    ensures ok <==> Accepted(t)
  {
    if t.gvk.kind == "" || t.clusterRole == "" {
      return false;
    }
    if t.rbName == "" && t.nameFunc.None? {
      return false;
    }
    var saOptions := 0;
    if t.sa.name != "" {
      saOptions := saOptions + 1;
    }
    if t.saSource.Some? {
      saOptions := saOptions + 1;
    }
    if t.saFunc.Some? {
      saOptions := saOptions + 1;
    }
    CountStrategies(t, saOptions);
    if saOptions == 0 || saOptions > 1 {
      return false;
    }
    if t.sa.name != "" && t.sa.ns == "" {
      return false;
    }
    if t.saSource.Some? {
      if t.saSource.value.nameField == "" {
        return false;
      }
      var paths := [t.saSource.value.nameField, t.saSource.value.nsField];
      for i := 0 to |paths|
        invariant forall j | 0 <= j < i :: paths[j] != "" ==> SpecPath(paths[j])
      {
        if paths[i] != "" && !("spec." <= TrimDot(paths[i])) {
          return false;
        }
      }
      assert paths[0] == t.saSource.value.nameField && paths[1] == t.saSource.value.nsField;
    }
    if t.nsField.Some? && !("spec." <= TrimDot(t.nsField.value)) {
      return false;
    }
    if (t.webhook || t.trigger.Some?) && t.nsField.Some? {
      return false;
    }
    if (t.webhook || t.trigger.Some?) && (t.saSource.Some? || t.saFunc.Some?) {
      return false;
    }
    return true;
  }

  method FilterCleanupTargets(ts: seq<Target>) returns (r: seq<Target>)
    ensures r == CleanupTargets(ts)
  {
    r := [];
    for i := 0 to |ts|
      invariant CleanupTargets(ts) == r + CleanupTargets(ts[i..])
    {
      assert ts[i..][1..] == ts[i + 1..];
      if ts[i].nsField.Some? || ts[i].webhook {
        r := r + [ts[i]];
      }
    }
  }

  // An accepted target whose webhook or label trigger is on, or whose service account is
  // static, meets what the safety theorems ask for, given a static name.
  lemma AcceptedIsStatic(t: Target)
    requires Accepted(t) && t.nameFunc.None?
    requires t.webhook || t.trigger.Some? || t.sa.name != ""
    requires SlashFree(t.gvk.group) && SlashFree(t.gvk.version) && SlashFree(t.gvk.kind)
    ensures StaticTarget(t) && t.rbName != "" && t.sa.ns != ""
    ensures forall cr :: ResolveSa(t, cr) == Some(t.sa)
  {
    var x :| Strategies(t) == {x};
    assert (if t.sa.name != "" then Static else x) == x;
  }

  // Cleanup loses no target it is needed for: whatever accepted target can leave a binding
  // with an owner annotation or a pending owner is on its list.
  lemma ListedForCleanup(ts: seq<Target>, t: Target, key: Key, rb: RoleBinding)
    requires t in ts && Accepted(t) && Regime(t, rb)
    requires OWNERS_KEY in rb.annotations || PENDING_KEY in rb.annotations
    ensures t in CleanupTargets(ts)
  {
    CleanupTargetsExact(ts);
  }
}
