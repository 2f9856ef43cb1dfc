// RBAC policy rules, shared by the cross-namespace reconciler, the impersonation guard and
// the audit scanners.
module Rbac {
  datatype PolicyRule = PolicyRule(
    verbs: seq<string>, apiGroups: seq<string>, resources: seq<string>,
    resourceNames: seq<string>, nonResourceUrls: seq<string>)
}
