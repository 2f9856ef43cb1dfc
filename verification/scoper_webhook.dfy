// pkg/scoper/webhook.go: the maps the constructor fills and the handler, call by call.
module ScoperWebhook {
  import opened Strings
  import opened Recall
  import opened ScoperTypes
  import opened ScoperActors
  import opened ScoperSolo
  import opened ScoperServer

  datatype Gvr = Gvr(group: string, version: string, resource: string)

  function Lower(s: string): (r: string)
    ensures |r| == |s|
  {
    seq(|s|, i requires 0 <= i < |s| => if 'A' <= s[i] <= 'Z' then s[i] - 'A' + 'a' else s[i])
  }

  predicate EndsIn(s: string, suffix: string) {
    |suffix| <= |s| && s[|s| - |suffix|..] == suffix
  }

  function Pluralize(kind: string): string {
    var k := Lower(kind);
    if EndsIn(k, "y") && !EndsIn(k, "ey") && !EndsIn(k, "ay") && !EndsIn(k, "oy") then k[..|k| - 1] + "ies"
    else if EndsIn(k, "s") || EndsIn(k, "x") || EndsIn(k, "sh") || EndsIn(k, "ch") then k + "es"
    else k + "s"
  }

  // A kind of lower-case letters: y after anything but a, e or o becomes ies; s, x, sh and ch get
  // es; everything else gets s. Capitals count as their lower-case letters.
  lemma PluralOf(kind: string)
    requires kind != ""
    ensures var k := Lower(kind);
            var last, before := k[|k| - 1], if |k| > 1 then k[|k| - 2] else ' ';
            Pluralize(kind) ==
              if last == 'y' && before != 'a' && before != 'e' && before != 'o' then k[..|k| - 1] + "ies"
              else if last == 's' || last == 'x' || (last == 'h' && (before == 's' || before == 'c')) then k + "es"
              else k + "s"
    ensures forall i | 0 <= i < |kind| :: Lower(kind)[i] == if 'A' <= kind[i] <= 'Z' then kind[i] - 'A' + 'a' else kind[i]
  {
    var k := Lower(kind);
    EndsInTwo(k, 'a', 'y');
    EndsInTwo(k, 'e', 'y');
    EndsInTwo(k, 'o', 'y');
    EndsInTwo(k, 's', 'h');
    EndsInTwo(k, 'c', 'h');
  }

  lemma EndsInTwo(s: string, a: char, b: char)
    requires s != ""
    ensures EndsIn(s, [a, b]) <==> |s| > 1 && s[|s| - 2] == a && s[|s| - 1] == b
    ensures EndsIn(s, [b]) <==> s[|s| - 1] == b
  {}

  // The configured resource, or the plural of the kind when none is configured.
  function GvrOf(t: Target): Gvr {
    Gvr(t.gvk.group, t.gvk.version, if t.resource == "" then Pluralize(t.gvk.kind) else t.resource)
  }

  predicate Serves(t: Target, gvr: Gvr) {
    t.webhook && GvrOf(t) == gvr
  }

  // The target that answers for a resource: the last webhook target configured for it.
  function TargetFor(ts: seq<Target>, gvr: Gvr): Option<Target> {
    if ts == [] then None
    else if Serves(ts[|ts| - 1], gvr) then Some(ts[|ts| - 1])
    else TargetFor(ts[..|ts| - 1], gvr)
  }

  predicate HasSelector(t: Target) {
    t.selector.Some? && t.selector.value.Matching?
  }

  // The selector in force for a resource: that of the last webhook target configured for it
  // that has one that can be read.
  function SelectorFor(ts: seq<Target>, gvr: Gvr): Option<LabelSelector> {
    if ts == [] then None
    else
      var t := ts[|ts| - 1];
      if Serves(t, gvr) && HasSelector(t) then t.selector
      else SelectorFor(ts[..|ts| - 1], gvr)
  }

  lemma {:induction false} TargetForExact(ts: seq<Target>, gvr: Gvr)
    ensures TargetFor(ts, gvr).None? <==> forall t | t in ts :: !Serves(t, gvr)
    ensures TargetFor(ts, gvr).Some? ==> TargetFor(ts, gvr).value in ts && Serves(TargetFor(ts, gvr).value, gvr)
    ensures SelectorFor(ts, gvr).None? <==> forall t | t in ts :: Serves(t, gvr) ==> !HasSelector(t)
    ensures SelectorFor(ts, gvr).Some? ==> SelectorFor(ts, gvr).value.Matching?
  {
    if ts != [] {
      var init, last := ts[..|ts| - 1], ts[|ts| - 1];
      assert ts == init + [last];
      assert forall t :: t in ts <==> t in init || t == last;
      TargetForExact(init, gvr);
      if Serves(last, gvr) {
        assert last in ts;
      }
    }
  }

  // The target that answers is the last one with webhook provisioning whose group, version and
  // resource, configured or the plural of the kind, are those of the request.
  lemma {:induction false} LastAnswers(ts: seq<Target>, gvr: Gvr, i: nat)
    requires i < |ts| && Answers(ts[i], gvr) && forall j | i < j < |ts| :: !Answers(ts[j], gvr)
    ensures TargetFor(ts, gvr) == Some(ts[i])
  {
    if i < |ts| - 1 {
      LastAnswers(ts[..|ts| - 1], gvr, i);
    }
  }

  predicate Answers(t: Target, gvr: Gvr) {
    && t.webhook && t.gvk.group == gvr.group && t.gvk.version == gvr.version
    && (if t.resource != "" then t.resource else Pluralize(t.gvk.kind)) == gvr.resource
  }

  // The handler answers with the target's own selector if and only if that can be read, or the
  // target has none and neither does any webhook target for the same resource: an earlier one's
  // selector is not cleared, and one that cannot be read is passed over.
  lemma {:induction false} OwnSelector(ts: seq<Target>, gvr: Gvr)
    requires TargetFor(ts, gvr).Some?
    ensures SelectorFor(ts, gvr) == TargetFor(ts, gvr).value.selector
       <==> if TargetFor(ts, gvr).value.selector.Some? then HasSelector(TargetFor(ts, gvr).value)
            else forall t | t in ts :: Serves(t, gvr) ==> !HasSelector(t)
  {
    TargetForExact(ts, gvr);
    if HasSelector(TargetFor(ts, gvr).value) {
      LastSelector(ts, gvr);
    }
  }

  lemma {:induction false} LastSelector(ts: seq<Target>, gvr: Gvr)
    requires TargetFor(ts, gvr).Some? && HasSelector(TargetFor(ts, gvr).value)
    ensures SelectorFor(ts, gvr) == TargetFor(ts, gvr).value.selector
  {
    if !Serves(ts[|ts| - 1], gvr) {
      LastSelector(ts[..|ts| - 1], gvr);
    }
  }

  // The target as the handler uses it.
  function Effective(ts: seq<Target>, gvr: Gvr): Target
    requires TargetFor(ts, gvr).Some?
  {
    TargetFor(ts, gvr).value.(selector := SelectorFor(ts, gvr))
  }

  // Two webhook targets for one resource, of which only the first has a selector: requests are
  // answered with the second target, but only where the first one's selector matches.
  lemma SelectorOfAnotherTarget(sa: Sa, test: map<string, string> -> bool, s: Store, deny: DenyList,
                                ns: string, name: string, dryRun: bool, now: nat)
    requires ns in s.namespaces ==> !test(s.namespaces[ns])
    ensures var first := Target(Gvk("example.io", "v1", "Widget"), "widgets", "widget-editor", "widget-a",
                                Some(Matching(test)), None, true, None, sa, None, None, None);
            var second := first.(rbName := "widget-b", selector := None);
            var gvr := Gvr("example.io", "v1", "widgets");
            && TargetFor([first, second], gvr) == Some(second)
            && HookSpec(s, Effective([first, second], gvr), deny, ns, name, dryRun, now) == s
  {
    var first := Target(Gvk("example.io", "v1", "Widget"), "widgets", "widget-editor", "widget-a",
                        Some(Matching(test)), None, true, None, sa, None, None, None);
    var second := first.(rbName := "widget-b", selector := None);
    var gvr := Gvr("example.io", "v1", "widgets");
    assert [first, second][..1] == [first];
    assert Serves(first, gvr) && Serves(second, gvr);
    assert SelectorFor([first], gvr) == first.selector;
  }

  class ProvisioningWebhookHandler {
    var targets: map<Gvr, Target>
    var selectors: map<Gvr, LabelSelector>
    const deny: DenyList
    const api: ApiServer

    // What the constructor makes of the configuration.
    ghost predicate Configured(ts: seq<Target>)
      reads this
    {
      forall g ::
        && (g in targets <==> TargetFor(ts, g).Some?) && (g in targets ==> Some(targets[g]) == TargetFor(ts, g))
        && (g in selectors <==> SelectorFor(ts, g).Some?)
        && (g in selectors ==> Some(selectors[g]) == SelectorFor(ts, g))
    }

    constructor (api: ApiServer, ts: seq<Target>, deny: DenyList)
      ensures this.api == api && this.deny == deny && Configured(ts)
    {
      this.api := api;
      this.deny := deny;
      targets := map[];
      selectors := map[];
      new;
      for i := 0 to |ts|
        invariant Configured(ts[..i])
      {
        var t := ts[i];
        assert ts[..i + 1][..i] == ts[..i];
        if !t.webhook {
          continue;
        }
        targets := targets[GvrOf(t) := t];
        if t.selector.Some? && t.selector.value.Matching? {
          selectors := selectors[GvrOf(t) := t.selector.value];
        }
      }
      assert ts[..|ts|] == ts;
    }

    // The request is always allowed. What it does to the store is a run of the webhook actor
    // for the target configured for its resource; a resource without a target does nothing.
    method Handle(ghost ts: seq<Target>, gvr: Gvr, ns: string, name: string, dryRun: bool) returns (allowed: bool)
      requires Configured(ts)
      modifies api
      ensures allowed
      ensures TargetFor(ts, gvr).None? ==> api.store == old(api.store)
      ensures TargetFor(ts, gvr).Some? ==>
        var t := Effective(ts, gvr);
        && api.Completed(HookStart(t, deny, ns, name, dryRun), Success)
        && (FaultFree(api.oracles) ==>
              api.store == HookSpec(old(api.store), t, deny, ns, name, dryRun, old(api.clock)))
    {
      if gvr !in targets {
        return true;
      }
      ghost var t := Effective(ts, gvr);
      api.Meet(HookStart(t, deny, ns, name, dryRun));
      Provision(ts, gvr, ns, name, dryRun);
      assert Recalled(0);
      if FaultFree(api.oracles) {
        FinishedHook(old(api.store), t, deny, ns, name, dryRun, api.oracles, api.clock);
      }
      return true;
    }

    method Provision(ghost ts: seq<Target>, gvr: Gvr, ns: string, name: string, dryRun: bool)
      requires Configured(ts) && gvr in targets
      requires api.Valid() && api.proc == HookStart(Effective(ts, gvr), deny, ns, name, dryRun)
      modifies api
      ensures api.Continues() && api.proc == Fin(Success)
    {
      if IsDenied(ns, deny) {
        return;
      }
      if gvr in selectors {
        var n := api.Do(GetNamespace(ns));
        if n.Err? {
          return;
        }
        if !Selects(selectors[gvr], n.labels) {
          return;
        }
      }
      CreateIfMissing(ts, gvr, ns, name, dryRun);
    }

    method CreateIfMissing(ghost ts: seq<Target>, gvr: Gvr, ns: string, name: string, dryRun: bool)
      requires Configured(ts) && gvr in targets
      requires api.Valid() && api.proc == Hook(Effective(ts, gvr), ns, name, dryRun, HookLookup)
      modifies api
      ensures api.Continues() && api.proc == Fin(Success)
    {
      var t := targets[gvr];
      var key := Key(ns, t.rbName);
      var r := api.Do(GetRb(key));
      if !r.Err? {
        return;
      }
      r := api.Do(GetClusterRole(t.clusterRole));
      if r.Err? || r.aggregated {
        return;
      }
      if dryRun {
        return;
      }
      r := api.Do(CreateRb(key, HookRb(t, ns, name, api.clock)));
    }
  }
}
