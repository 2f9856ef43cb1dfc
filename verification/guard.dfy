// pkg/impersonation/guard.go: taking the impersonate verb out of ClusterRole rules without
// changing anything else they decide.
module Guard {
  import opened Strings
  import opened Rbac

  // ---- What rules allow --------------------------------------------------------------------------

  datatype Request =
    | OnResource(verb: string, group: string, resource: string, sub: string, name: string)
    | OnUrl(verb: string, path: string)

  predicate HasOrAll(xs: seq<string>, x: string) {
    x in xs || "*" in xs
  }

  // sub is "" for a request on the resource itself.
  predicate NamesResource(rule: PolicyRule, resource: string, sub: string) {
    if sub == "" then HasOrAll(rule.resources, resource)
    else HasOrAll(rule.resources, resource + "/" + sub) || "*/" + sub in rule.resources
  }

  function TrimStars(s: string): string {
    if s != "" && s[|s| - 1] == '*' then TrimStars(s[..|s| - 1]) else s
  }

  // A path with a star at its end stands for every path that begins with the rest.
  predicate PathPattern(url: string, path: string) {
    url != "" && url[|url| - 1] == '*' && TrimStars(url) <= path
  }

  // Whether a rule is about a request, its verb aside.
  predicate Covers(rule: PolicyRule, q: Request) {
    match q
    case OnResource(_, group, resource, sub, name) =>
      && HasOrAll(rule.apiGroups, group) && NamesResource(rule, resource, sub)
      && (rule.resourceNames == [] || name in rule.resourceNames)
    case OnUrl(_, path) =>
      HasOrAll(rule.nonResourceUrls, path) || exists u | u in rule.nonResourceUrls :: PathPattern(u, path)
  }

  predicate Allows(rules: seq<PolicyRule>, q: Request) {
    exists i | 0 <= i < |rules| :: Covers(rules[i], q) && HasOrAll(rules[i].verbs, q.verb)
  }

  // ---- The rewrite ---------------------------------------------------------------------------------

  const STANDARD := ["get", "list", "watch", "create", "update", "patch", "delete"]

  predicate CoversServiceAccounts(rule: PolicyRule) {
    HasOrAll(rule.resources, "serviceaccounts")
  }

  predicate HasImpersonateVerb(rules: seq<PolicyRule>) {
    exists i | 0 <= i < |rules| :: CoversServiceAccounts(rules[i]) && HasOrAll(rules[i].verbs, "impersonate")
  }

  function Explicit(verbs: seq<string>): seq<string> {
    if verbs == [] then []
    else
      var last := verbs[|verbs| - 1];
      Explicit(verbs[..|verbs| - 1]) + (if last == "impersonate" || last == "*" then [] else [last])
  }

  function NewVerbs(rule: PolicyRule): seq<string> {
    if "*" in rule.verbs then STANDARD else Explicit(rule.verbs)
  }

  function RewriteRule(rule: PolicyRule): seq<PolicyRule> {
    if !CoversServiceAccounts(rule) then [rule]
    else if NewVerbs(rule) == [] then []
    else [rule.(verbs := NewVerbs(rule))]
  }

  function Rewrite(rules: seq<PolicyRule>): seq<PolicyRule> {
    if rules == [] then [] else Rewrite(rules[..|rules| - 1]) + RewriteRule(rules[|rules| - 1])
  }

  method SearchServiceAccounts(rule: PolicyRule) returns (r: bool)
    ensures r == CoversServiceAccounts(rule)
  {
    for i := 0 to |rule.resources|
      invariant forall j | 0 <= j < i :: rule.resources[j] != "serviceaccounts" && rule.resources[j] != "*"
    {
      if rule.resources[i] == "serviceaccounts" || rule.resources[i] == "*" {
        return true;
      }
    }
    return false;
  }

  method SearchImpersonateVerb(rules: seq<PolicyRule>) returns (r: bool)
    ensures r == HasImpersonateVerb(rules)
  {
    for i := 0 to |rules|
      invariant !HasImpersonateVerb(rules[..i])
    {
      assert rules[..i + 1] == rules[..i] + [rules[i]];
      var covers := SearchServiceAccounts(rules[i]);
      if !covers {
        continue;
      }
      for j := 0 to |rules[i].verbs|
        invariant forall k | 0 <= k < j :: rules[i].verbs[k] != "impersonate" && rules[i].verbs[k] != "*"
      {
        if rules[i].verbs[j] == "impersonate" || rules[i].verbs[j] == "*" {
          return true;
        }
      }
    }
    assert rules[..|rules|] == rules;
    return false;
  }

  method RemoveImpersonateVerb(rules: seq<PolicyRule>) returns (result: seq<PolicyRule>)
    ensures result == Rewrite(rules)
  {
    result := [];
    for i := 0 to |rules|
      invariant result == Rewrite(rules[..i])
    {
      assert rules[..i + 1][..i] == rules[..i];
      var covers := SearchServiceAccounts(rules[i]);
      if !covers {
        result := result + [rules[i]];
        continue;
      }
      var filtered := FilterVerbs(rules[i].verbs);
      if filtered != [] {
        result := result + [rules[i].(verbs := filtered)];
      }
    }
    assert rules[..|rules|] == rules;
  }

  method FilterVerbs(verbs: seq<string>) returns (filtered: seq<string>)
    ensures filtered == if "*" in verbs then STANDARD else Explicit(verbs)
  {
    var hasWildcard := false;
    filtered := [];
    for j := 0 to |verbs|
      invariant hasWildcard <==> "*" in verbs[..j]
      invariant filtered == Explicit(verbs[..j])
    {
      assert verbs[..j + 1][..j] == verbs[..j] && verbs[..j + 1] == verbs[..j] + [verbs[j]];
      if verbs[j] == "*" {
        hasWildcard := true;
      } else if verbs[j] != "impersonate" {
        filtered := filtered + [verbs[j]];
      }
    }
    assert verbs[..|verbs|] == verbs;
    if hasWildcard {
      filtered := STANDARD;
    }
  }

  // ---- What the rewrite decides -----------------------------------------------------------------------

  lemma {:induction false} ExplicitExact(verbs: seq<string>, verb: string)
    ensures verb in Explicit(verbs) <==> verb in verbs && verb != "impersonate" && verb != "*"
  {
    if verbs != [] {
      var init, last := verbs[..|verbs| - 1], verbs[|verbs| - 1];
      assert verbs == init + [last];
      ExplicitExact(init, verb);
    }
  }

  // What a rule still allows once rewritten.
  predicate StillAllows(rule: PolicyRule, verb: string) {
    if !CoversServiceAccounts(rule) then HasOrAll(rule.verbs, verb)
    else if "*" in rule.verbs then verb in STANDARD
    else verb in rule.verbs && verb != "impersonate"
  }

  lemma RuleExact(rule: PolicyRule, q: Request)
    ensures Allows(RewriteRule(rule), q) <==> Covers(rule, q) && StillAllows(rule, q.verb)
  {
    ExplicitExact(rule.verbs, q.verb);
    ExplicitExact(rule.verbs, "*");
    var new_ := RewriteRule(rule);
    if new_ != [] {
      assert Covers(new_[0], q) <==> Covers(rule, q);
    }
  }

  lemma AllowsConcat(a: seq<PolicyRule>, b: seq<PolicyRule>, q: Request)
    ensures Allows(a + b, q) <==> Allows(a, q) || Allows(b, q)
  {
    if i :| 0 <= i < |a| && Covers(a[i], q) && HasOrAll(a[i].verbs, q.verb) {
      assert (a + b)[i] == a[i];
    }
    if i :| 0 <= i < |b| && Covers(b[i], q) && HasOrAll(b[i].verbs, q.verb) {
      assert (a + b)[|a| + i] == b[i];
    }
  }

  // The rewritten rules allow exactly what some rule, by itself, still allows.
  lemma {:induction false} RewriteExact(rules: seq<PolicyRule>, q: Request)
    ensures Allows(Rewrite(rules), q) <==> exists i | 0 <= i < |rules| :: Covers(rules[i], q) && StillAllows(rules[i], q.verb)
  {
    if rules != [] {
      var init, last := rules[..|rules| - 1], rules[|rules| - 1];
      RewriteExact(init, q);
      RuleExact(last, q);
      AllowsConcat(Rewrite(init), RewriteRule(last), q);
    }
  }

  // The verbs of the Kubernetes API that act on single objects and lists of them.
  predicate ApiVerb(verb: string) {
    || verb == "get" || verb == "list" || verb == "watch"
    || verb == "create" || verb == "update" || verb == "patch" || verb == "delete"
  }

  lemma StandardIff(verb: string)
    ensures verb in STANDARD <==> ApiVerb(verb)
  {
    if ApiVerb(verb) {
      assert exists i | 0 <= i < 7 :: STANDARD[i] == verb by {
        assert STANDARD[0] == "get" && STANDARD[1] == "list" && STANDARD[2] == "watch" && STANDARD[3] == "create";
        assert STANDARD[4] == "update" && STANDARD[5] == "patch" && STANDARD[6] == "delete";
      }
    }
  }

  // Never more than before; the seven API verbs decided as before.
  lemma NeverMore(rules: seq<PolicyRule>, q: Request)
    ensures Allows(Rewrite(rules), q) ==> Allows(rules, q)
    ensures ApiVerb(q.verb) ==> (Allows(Rewrite(rules), q) <==> Allows(rules, q))
  {
    StandardIff(q.verb);
    RewriteExact(rules, q);
  }

  // A request for another verb is lost if and only if it was allowed, but only by rules that
  // cover service accounts and either have a wildcard verb or were asked to impersonate.
  lemma LostExactly(rules: seq<PolicyRule>, q: Request)
    requires !ApiVerb(q.verb)
    ensures Allows(rules, q) && !Allows(Rewrite(rules), q) <==>
              && Allows(rules, q)
              && forall i | 0 <= i < |rules| && Covers(rules[i], q) && HasOrAll(rules[i].verbs, q.verb) ::
                   CoversServiceAccounts(rules[i]) && ("*" in rules[i].verbs || q.verb == "impersonate")
  {
    StandardIff(q.verb);
    RewriteExact(rules, q);
  }

  predicate WildcardFree(rules: seq<PolicyRule>) {
    forall i | 0 <= i < |rules| && CoversServiceAccounts(rules[i]) :: "*" !in rules[i].verbs
  }

  // Without a wildcard verb on service accounts, only impersonate changes.
  lemma OnlyImpersonateChanges(rules: seq<PolicyRule>, q: Request)
    requires WildcardFree(rules) && q.verb != "impersonate"
    ensures Allows(Rewrite(rules), q) <==> Allows(rules, q)
  {
    RewriteExact(rules, q);
  }

  // Nobody can impersonate a service account by the rewritten rules.
  lemma ImpersonationGone(rules: seq<PolicyRule>, group: string, name: string)
    ensures !Allows(Rewrite(rules), OnResource("impersonate", group, "serviceaccounts", "", name))
  {
    RewriteExact(rules, OnResource("impersonate", group, "serviceaccounts", "", name));
  }

  // With one, a verb outside the standard seven goes too, even one the rule names.
  lemma CustomVerbLost(group: string, verb: string)
    requires !ApiVerb(verb)
    ensures var rules := [PolicyRule([verb, "*"], [group], ["serviceaccounts"], [], [])];
            var q := OnResource(verb, group, "serviceaccounts", "", "");
            Allows(rules, q) && !Allows(Rewrite(rules), q)
  {
    var rules := [PolicyRule([verb, "*"], [group], ["serviceaccounts"], [], [])];
    var q := OnResource(verb, group, "serviceaccounts", "", "");
    assert Covers(rules[0], q) && HasOrAll(rules[0].verbs, verb);
    StandardIff(verb);
    RewriteExact(rules, q);
  }

  // ---- Once is enough ------------------------------------------------------------------------------------

  predicate Purged(rules: seq<PolicyRule>) {
    forall i | 0 <= i < |rules| && CoversServiceAccounts(rules[i]) ::
      "impersonate" !in rules[i].verbs && "*" !in rules[i].verbs && rules[i].verbs != []
  }

  lemma {:induction false} RewritePurges(rules: seq<PolicyRule>)
    ensures Purged(Rewrite(rules))
  {
    if rules != [] {
      var last := rules[|rules| - 1];
      RewritePurges(rules[..|rules| - 1]);
      ExplicitExact(last.verbs, "impersonate");
      ExplicitExact(last.verbs, "*");
    }
  }

  lemma {:induction false} ExplicitKeepsAll(verbs: seq<string>)
    requires "impersonate" !in verbs && "*" !in verbs
    ensures Explicit(verbs) == verbs
  {
    if verbs != [] {
      assert verbs == verbs[..|verbs| - 1] + [verbs[|verbs| - 1]];
      ExplicitKeepsAll(verbs[..|verbs| - 1]);
    }
  }

  lemma {:induction false} PurgedIsFixed(rules: seq<PolicyRule>)
    requires Purged(rules)
    ensures Rewrite(rules) == rules
  {
    if rules != [] {
      var init, last := rules[..|rules| - 1], rules[|rules| - 1];
      assert rules == init + [last];
      PurgedIsFixed(init);
      if CoversServiceAccounts(last) {
        ExplicitKeepsAll(last.verbs);
      }
    }
  }

  // Rewriting again changes nothing, and the guard is no longer triggered.
  lemma RewriteOnce(rules: seq<PolicyRule>)
    ensures Rewrite(Rewrite(rules)) == Rewrite(rules)
    ensures !HasImpersonateVerb(Rewrite(rules))
  {
    RewritePurges(rules);
    PurgedIsFixed(Rewrite(rules));
  }

  // ---- Guard.Reconcile ----------------------------------------------------------------------------------------

  datatype ClusterRole = ClusterRole(
    labels: map<string, string>, annotations: map<string, string>, rules: seq<PolicyRule>, rv: nat)

  const EDIT_LABEL := "rbac.authorization.kubernetes.io/aggregate-to-edit"
  const AUTOUPDATE := "rbac.authorization.kubernetes.io/autoupdate"

  predicate Guarded(role: ClusterRole) {
    EDIT_LABEL in role.labels && role.labels[EDIT_LABEL] == "true"
  }

  predicate Due(role: ClusterRole) {
    Guarded(role) && HasImpersonateVerb(role.rules)
  }

  function Cleansed(role: ClusterRole): ClusterRole {
    role.(rules := Rewrite(role.rules), annotations := role.annotations[AUTOUPDATE := "false"])
  }

  // A role is due if it is labelled for aggregation to edit and some rule gives the verb
  // impersonate, or every verb, on service accounts or on every resource.
  lemma DueIff(role: ClusterRole)
    ensures Due(role) <==>
              && "rbac.authorization.kubernetes.io/aggregate-to-edit" in role.labels
              && role.labels["rbac.authorization.kubernetes.io/aggregate-to-edit"] == "true"
              && exists rule | rule in role.rules ::
                   && ("serviceaccounts" in rule.resources || "*" in rule.resources)
                   && ("impersonate" in rule.verbs || "*" in rule.verbs)
  {
    if i :| 0 <= i < |role.rules| && CoversServiceAccounts(role.rules[i]) && HasOrAll(role.rules[i].verbs, "impersonate") {
      assert role.rules[i] in role.rules;
    }
  }

  // A cleansed role is not due again, keeps its labels, and is marked against being reset; its
  // other annotations stay.
  lemma CleansedNotDue(role: ClusterRole)
    ensures !Due(Cleansed(role)) && Cleansed(role).labels == role.labels
    ensures Cleansed(role).annotations == role.annotations["rbac.authorization.kubernetes.io/autoupdate" := "false"]
  {
    RewriteOnce(role.rules);
  }

  datatype Outcome = Done | RequeueLater | Failed

  class Reconciler {
    var roles: map<string, ClusterRole>
    var version: nat

    constructor (roles: map<string, ClusterRole>, version: nat)
      ensures this.roles == roles && this.version == version
    {
      this.roles := roles;
      this.version := version;
    }

    // One update with rules and annotation together, for a labelled role with the verb;
    // otherwise, or when a call fails, nothing changes. No other role is touched.
    method Reconcile(name: string) returns (outcome: Outcome)
      modifies this
      ensures roles.Keys == old(roles.Keys)
      ensures forall n | n in roles && n != name :: roles[n] == old(roles)[n]
      ensures name in roles ==>
                roles[name] == if Due(old(roles)[name]) && outcome != Failed
                               then Cleansed(old(roles)[name]).(rv := old(version)) else old(roles)[name]
      ensures outcome != Failed && name in roles ==> !Due(roles[name])
    {
      var getFails: bool := *;
      if getFails {
        return Failed;
      }
      if name !in roles {
        return Done;
      }
      var cr := roles[name];
      if !(EDIT_LABEL in cr.labels && cr.labels[EDIT_LABEL] == "true") {
        return Done;
      }
      var found := SearchImpersonateVerb(cr.rules);
      if !found {
        return RequeueLater;
      }
      CleansedNotDue(cr);
      var rules := RemoveImpersonateVerb(cr.rules);
      cr := cr.(rules := rules);
      cr := cr.(annotations := cr.annotations[AUTOUPDATE := "false"]);
      var updateFails: bool := *;
      if updateFails {
        return Failed;
      }
      roles := roles[name := cr.(rv := version)];
      version := version + 1;
      return RequeueLater;
    }
  }
}
