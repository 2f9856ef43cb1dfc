// pkg/audit/scanners.go: the scans for impersonation grants, as a judge of the guard.
module Audit {
  import opened Strings
  import opened Rbac
  import opened Guard

  predicate GrantsImpersonate(rule: PolicyRule) {
    HasOrAll(rule.verbs, "impersonate") && HasOrAll(rule.resources, "serviceaccounts") && HasOrAll(rule.apiGroups, "")
  }

  predicate AnyGrants(rules: seq<PolicyRule>) {
    exists i | 0 <= i < |rules| :: GrantsImpersonate(rules[i])
  }

  datatype Named = Named(ns: string, name: string, rules: seq<PolicyRule>)
  datatype Finding = OnClusterRole(name: string) | OnRole(ns: string, name: string)

  const AGGREGATE := "system:aggregate-to-edit"

  function ClusterFindings(roles: seq<Named>): seq<Finding> {
    if roles == [] then []
    else
      var r := roles[|roles| - 1];
      ClusterFindings(roles[..|roles| - 1])
      + (if r.name != AGGREGATE && AnyGrants(r.rules) then [OnClusterRole(r.name)] else [])
  }

  function RoleFindings(roles: seq<Named>): seq<Finding> {
    if roles == [] then []
    else
      var r := roles[|roles| - 1];
      RoleFindings(roles[..|roles| - 1]) + (if AnyGrants(r.rules) then [OnRole(r.ns, r.name)] else [])
  }

  method AnyGrantsLoop(rules: seq<PolicyRule>) returns (r: bool)
    ensures r == AnyGrants(rules)
  {
    for i := 0 to |rules|
      invariant !AnyGrants(rules[..i])
    {
      assert rules[..i + 1] == rules[..i] + [rules[i]];
      if GrantsImpersonate(rules[i]) {
        return true;
      }
    }
    assert rules[..|rules|] == rules;
    return false;
  }

  // One finding for each offending role, in order; the dedicated scan reports the skipped one.
  // A listing that fails, None, fails the scan, whatever the other one found.
  method ScanImpersonationGrants(listed: Option<seq<Named>>, listedRoles: Option<seq<Named>>)
    returns (r: Option<seq<Finding>>)
    ensures r.Some? <==> listed.Some? && listedRoles.Some?
    ensures r.Some? ==> r.value == ClusterFindings(listed.value) + RoleFindings(listedRoles.value)
  {
    if listed.None? {
      return None;
    }
    var findings := [];
    var clusterRoles := listed.value;
    for i := 0 to |clusterRoles|
      invariant findings == ClusterFindings(clusterRoles[..i])
    {
      assert clusterRoles[..i + 1][..i] == clusterRoles[..i];
      if clusterRoles[i].name == AGGREGATE {
        continue;
      }
      var grants := AnyGrantsLoop(clusterRoles[i].rules);
      if grants {
        findings := findings + [OnClusterRole(clusterRoles[i].name)];
      }
    }
    assert clusterRoles[..|clusterRoles|] == clusterRoles;
    ghost var first := findings;
    if listedRoles.None? {
      return None;
    }
    var roles := listedRoles.value;
    for i := 0 to |roles|
      invariant findings == first + RoleFindings(roles[..i])
    {
      assert roles[..i + 1][..i] == roles[..i];
      var grants := AnyGrantsLoop(roles[i].rules);
      if grants {
        findings := findings + [OnRole(roles[i].ns, roles[i].name)];
      }
    }
    assert roles[..|roles|] == roles;
    return Some(findings);
  }

  datatype Fetched = Got(rules: seq<PolicyRule>) | Missing | FetchFailed

  // A missing aggregate role is no finding; any other failure to read it fails the scan.
  method ScanAggregateToEditStatus(fetched: Fetched) returns (warned: Option<bool>)
    ensures warned.None? <==> fetched.FetchFailed?
    ensures warned.Some? ==> (warned.value <==> fetched.Got? && AnyGrants(fetched.rules))
  {
    match fetched
    case FetchFailed => return None;
    case Missing => return Some(false);
    case Got(rules) =>
      var grants := AnyGrantsLoop(rules);
      return Some(grants);
  }

  predicate Offends(r: Named, name: string) {
    r.name == name && AnyGrants(r.rules)
  }

  lemma {:induction false} ClusterFindingsExact(roles: seq<Named>, name: string)
    ensures OnClusterRole(name) in ClusterFindings(roles) <==>
              name != "system:aggregate-to-edit" && exists r | r in roles :: Offends(r, name)
  {
    if roles != [] {
      var init, last := roles[..|roles| - 1], roles[|roles| - 1];
      assert roles == init + [last];
      assert forall r :: r in roles <==> r in init || r == last;
      ClusterFindingsExact(init, name);
      var tail := if last.name != AGGREGATE && AnyGrants(last.rules) then [OnClusterRole(last.name)] else [];
      assert ClusterFindings(roles) == ClusterFindings(init) + tail;
      assert OnClusterRole(name) in tail <==> name != AGGREGATE && Offends(last, name);
      if r :| r in init && Offends(r, name) {
        assert r in roles;
      }
      if Offends(last, name) {
        assert last in roles;
      }
    }
  }

  lemma {:induction false} RoleFindingsExact(roles: seq<Named>, ns: string, name: string)
    ensures OnRole(ns, name) in RoleFindings(roles) <==>
              exists r | r in roles :: r.ns == ns && Offends(r, name)
  {
    if roles != [] {
      var init, last := roles[..|roles| - 1], roles[|roles| - 1];
      assert roles == init + [last];
      assert forall r :: r in roles <==> r in init || r == last;
      RoleFindingsExact(init, ns, name);
    }
  }

  // Rules are flagged if and only if they let somebody impersonate some service account.
  lemma FlaggedIff(rules: seq<PolicyRule>)
    ensures AnyGrants(rules) <==> exists name :: Allows(rules, OnResource("impersonate", "", "serviceaccounts", "", name))
  {
    if i :| 0 <= i < |rules| && GrantsImpersonate(rules[i]) {
      var name := if rules[i].resourceNames == [] then "" else rules[i].resourceNames[0];
      assert Covers(rules[i], OnResource("impersonate", "", "serviceaccounts", "", name));
      assert Allows(rules, OnResource("impersonate", "", "serviceaccounts", "", name));
    }
    if name :| Allows(rules, OnResource("impersonate", "", "serviceaccounts", "", name)) {
      var i :| 0 <= i < |rules| && Covers(rules[i], OnResource("impersonate", "", "serviceaccounts", "", name))
               && HasOrAll(rules[i].verbs, "impersonate");
      assert GrantsImpersonate(rules[i]);
    }
  }

  // Whatever the audit would flag triggers the guard; the guard also acts on rules whose
  // groups leave out the core group, which the audit passes.
  lemma FlaggedTriggersGuard(rules: seq<PolicyRule>)
    ensures AnyGrants(rules) ==> HasImpersonateVerb(rules)
    ensures HasImpersonateVerb(rules) && !AnyGrants(rules) ==>
              exists i | 0 <= i < |rules| :: CoversServiceAccounts(rules[i]) && !HasOrAll(rules[i].apiGroups, "")
  {
    if i :| 0 <= i < |rules| && GrantsImpersonate(rules[i]) {
      assert CoversServiceAccounts(rules[i]);
    }
  }

  // Rules the guard has rewritten are never flagged, and no request to impersonate a service
  // account gets through a rule the audit would flag.
  lemma RewrittenIsClean(rules: seq<PolicyRule>)
    ensures !AnyGrants(Rewrite(rules))
  {
    RewriteOnce(rules);
    FlaggedTriggersGuard(Rewrite(rules));
  }

  // The listing of a cluster: every ClusterRole once.
  ghost predicate ListingOf(cluster: map<string, ClusterRole>, listing: seq<Named>) {
    && (forall i | 0 <= i < |listing| :: listing[i].name in cluster && listing[i].rules == cluster[listing[i].name].rules)
    && (forall n | n in cluster :: exists i | 0 <= i < |listing| :: listing[i].name == n)
  }

  // Once no labelled ClusterRole is due, which one successful reconcile of each establishes,
  // the audit reports no labelled ClusterRole, and the dedicated scan does not warn either.
  lemma GuardedClusterPasses(cluster: map<string, ClusterRole>, listing: seq<Named>, name: string)
    requires ListingOf(cluster, listing)
    requires forall n | n in cluster :: !Due(cluster[n])
    requires name in cluster && Guarded(cluster[name])
    ensures OnClusterRole(name) !in ClusterFindings(listing) && !AnyGrants(cluster[name].rules)
  {
    FlaggedTriggersGuard(cluster[name].rules);
    ClusterFindingsExact(listing, name);
  }
}
