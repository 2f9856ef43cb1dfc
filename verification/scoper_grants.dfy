// What an administrator would say of a grant: which namespaces are open to it, what its
// RoleBinding admits, and what a custom resource asks for. Each notion is defined on its own
// and shown to be the one the controllers compute.
module ScoperGrants {
  import opened Strings
  import opened ScoperTypes

  // ---- Namespaces -----------------------------------------------------------------------------

  // Neither listed itself nor beginning with a listed prefix.
  predicate Permitted(ns: string, deny: DenyList) {
    ns !in deny.namespaces && forall k | 0 <= k <= |ns| :: ns[..k] !in deny.prefixes
  }

  lemma PermittedIff(ns: string, deny: DenyList)
    ensures Permitted(ns, deny) <==> !IsDenied(ns, deny)
  {
    if k :| 0 <= k <= |ns| && ns[..k] in deny.prefixes {
      assert ns[..k] <= ns;
    }
    if p :| p in deny.prefixes && p <= ns {
      assert ns[..|p|] == p;
    }
  }

  // A listed name, and a listed prefix followed by anything, are refused.
  lemma ListedIsDenied(deny: DenyList, p: string, rest: string)
    ensures p in deny.namespaces ==> IsDenied(p, deny)
    ensures p in deny.prefixes ==> IsDenied(p + rest, deny)
  {
    PermittedIff(p, deny);
    PermittedIff(p + rest, deny);
    assert (p + rest)[..|p|] == p;
  }

  // The labels pass the selector, if there is one.
  predicate Passes(selector: Option<LabelSelector>, labels: map<string, string>) {
    selector.Some? ==> selector.value.Matching? && selector.value.test(labels)
  }

  // ---- What a RoleBinding admits -----------------------------------------------------------------

  // The RBAC authorizer finds the service account name of namespace ns among the subjects.
  predicate Admits(rb: RoleBinding, ns: string, name: string) {
    exists i | 0 <= i < |rb.subjects| ::
      rb.subjects[i].kind == "ServiceAccount" && rb.subjects[i].ns == ns && rb.subjects[i].name == name
  }

  ghost predicate AdmitsOnly(rb: RoleBinding, ns: string, name: string) {
    forall n, m :: Admits(rb, n, m) <==> n == ns && m == name
  }

  // The ClusterRole role for one service account and nobody else.
  ghost predicate GrantsOnly(rb: RoleBinding, role: string, ns: string, name: string) {
    && |rb.subjects| == 1 && rb.subjects[0].kind == "ServiceAccount"
    && AdmitsOnly(rb, ns, name)
    && rb.roleRef.apiGroup == "rbac.authorization.k8s.io" && rb.roleRef.kind == "ClusterRole" && rb.roleRef.name == role
  }

  lemma SubjectsAdmit(rb: RoleBinding, sa: Sa)
    requires rb.subjects == ExpectedSubjects(sa)
    ensures AdmitsOnly(rb, sa.ns, sa.name)
  {
    assert rb.subjects[0].ns == sa.ns;
  }

  lemma ExpectedGrants(rb: RoleBinding, t: Target, sa: Sa)
    ensures rb.roleRef == ExpectedRef(t) && rb.subjects == ExpectedSubjects(sa)
       <==> GrantsOnly(rb, t.clusterRole, sa.ns, sa.name) && rb.subjects[0].apiGroup == ""
  {
    if GrantsOnly(rb, t.clusterRole, sa.ns, sa.name) && rb.subjects[0].apiGroup == "" {
      assert Admits(rb, sa.ns, sa.name);
      assert rb.subjects == [rb.subjects[0]];
    }
    if rb.subjects == ExpectedSubjects(sa) {
      SubjectsAdmit(rb, sa);
    }
  }

  // ---- What a custom resource asks for -------------------------------------------------------------

  // value is the non-empty string field of cr at a dotted path, which may begin with a dot.
  ghost predicate ValueAt(cr: Cr, path: string, value: string) {
    && value != ""
    && exists parts ::
         && parts in cr.fields && cr.fields[parts] == value && parts != []
         && (forall p | p in parts :: '.' !in p)
         && (path == "." + Join(parts, '.') || (path == Join(parts, '.') && !("." <= path)))
  }

  lemma FieldIff(cr: Cr, path: string, value: string)
    ensures Field(cr, path) == Some(value) <==> ValueAt(cr, path, value)
  {
    var parts := Split(TrimDot(path), '.');
    JoinSplit(TrimDot(path), '.');
    SplitPartsClean(TrimDot(path), '.');
    forall qs | qs != [] && (forall p | p in qs :: '.' !in p)
      && (path == "." + Join(qs, '.') || (path == Join(qs, '.') && !("." <= path)))
      ensures qs == parts
    {
      SplitJoin(qs, '.');
      assert TrimDot(path) == Join(qs, '.');
    }
    assert path == "." + TrimDot(path) || (path == TrimDot(path) && !("." <= path));
  }

  // cr asks for its grant in ns: the namespace it names, or its own.
  ghost predicate AsksFor(t: Target, cr: Cr, ns: string) {
    match t.nsField
    case Some(path) => ValueAt(cr, path, ns)
    case None => ns == cr.id.ns
  }

  // sa is the service account the grant goes to: the configured one, or the one cr names.
  ghost predicate ActsFor(t: Target, cr: Cr, sa: Sa) {
    if t.saFunc.Some? then sa == t.saFunc.value(cr)
    else
      match t.saSource
      case None => sa == t.sa
      case Some(source) =>
        && ValueAt(cr, source.nameField, sa.name)
        && if source.nsField == "" then sa.ns == cr.id.ns else ValueAt(cr, source.nsField, sa.ns)
  }

  lemma AsksForIff(t: Target, cr: Cr, ns: string)
    ensures AsksFor(t, cr, ns) <==> TargetNs(t, cr) == Some(ns)
  {
    if t.nsField.Some? {
      FieldIff(cr, t.nsField.value, ns);
    }
  }

  lemma ActsForIff(t: Target, cr: Cr, sa: Sa)
    ensures ActsFor(t, cr, sa) <==> ResolveSa(t, cr) == Some(sa)
  {
    if t.saFunc.None? && t.saSource.Some? {
      FieldIff(cr, t.saSource.value.nameField, sa.name);
      FieldIff(cr, t.saSource.value.nsField, sa.ns);
      var name := Field(cr, t.saSource.value.nameField);
      var ns := Field(cr, t.saSource.value.nsField);
      assert ResolveSa(t, cr) == Some(sa) <==>
        name == Some(sa.name) && if t.saSource.value.nsField == "" then sa.ns == cr.id.ns else ns == Some(sa.ns);
    }
  }
}
