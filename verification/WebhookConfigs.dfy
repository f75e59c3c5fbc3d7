/**
  Webhook configurations and the three writers of their `caBundle`: the policy reconcilers and the init container,
  which only fill it in when it is empty or new, and the cert controller, which replaces it.
 */
module WebhookConfigs {
  import opened Certs

  datatype Kind = Validating | Mutating

  /** One webhook of a configuration: the Service it calls and the CA roots trusted for that call. */
  datatype Entry = Entry(name: string, service: string, caBundle: seq<CACert>)

  /** A webhook configuration as stored. `labelled` is the label app.kubernetes.io/part-of: kubewarden. */
  datatype Config = Config(rv: nat, labelled: bool, entries: seq<Entry>)

  const WEBHOOK_NAME_SUFFIX: string := ".kubewarden.admission"

  // ---- the cert controller ----

  function InjectEntries(entries: seq<Entry>, bundle: seq<CACert>): (r: seq<Entry>)
    ensures |r| == |entries|
    ensures forall i :: 0 <= i < |r| ==> r[i] == entries[i].(caBundle := bundle)
  {
    seq(|entries|, i requires 0 <= i < |entries| => entries[i].(caBundle := bundle))
  }

  predicate UpToDate(entries: seq<Entry>, bundle: seq<CACert>) {
    forall i :: 0 <= i < |entries| ==> entries[i].caBundle == bundle
  }

  /** The loop of injectCABundle: overwrite every stale bundle, and say whether there was one. */
  method InjectLoop(entries: seq<Entry>, bundle: seq<CACert>) returns (r: seq<Entry>, changed: bool)
    ensures r == InjectEntries(entries, bundle)
    ensures changed <==> r != entries
    ensures changed <==> !UpToDate(entries, bundle)
  {
    r := entries;
    changed := false;
    for i := 0 to |entries|
      invariant |r| == |entries|
      invariant forall j :: 0 <= j < i ==> r[j] == entries[j].(caBundle := bundle)
      invariant forall j :: i <= j < |r| ==> r[j] == entries[j]
      invariant changed <==> exists j :: 0 <= j < i && entries[j].caBundle != bundle
    {
      if r[i].caBundle != bundle {
        r := r[i := r[i].(caBundle := bundle)];
        changed := true;
      }
    }
    if changed {
      var j :| 0 <= j < |entries| && entries[j].caBundle != bundle;
      assert r[j] != entries[j];
    }
  }

  // ---- the policy reconcilers ----

  /** caBundleForWebhook: a live bundle stays, an empty one is never kept. */
  function CABundleForWebhook(live: seq<CACert>, secret: CASecret): (r: seq<CACert>)
    ensures r != []
    ensures live != [] ==> r == live
  {
    if |live| > 0 then live else CABundle(secret)
  }

  function LiveBundle(entries: seq<Entry>): seq<CACert> {
    if |entries| > 0 then entries[0].caBundle else []
  }

  /** The single entry that the reconciler of a policy writes. */
  function PolicyEntries(uniqueName: string, service: string, live: seq<Entry>, secret: CASecret): seq<Entry> {
    [Entry(uniqueName + WEBHOOK_NAME_SUFFIX, service, CABundleForWebhook(LiveBundle(live), secret))]
  }

  // ---- the init container ----

  predicate DistinctNames(entries: seq<Entry>) {
    forall i, j :: 0 <= i < j < |entries| ==> entries[i].name != entries[j].name
  }

  predicate Distinct(names: seq<string>) {
    forall i, j :: 0 <= i < j < |names| ==> names[i] != names[j]
  }

  /** The bundle of the last entry with this name, or the empty bundle. */
  function BundleNamed(entries: seq<Entry>, name: string): (r: seq<CACert>)
    ensures (forall i :: 0 <= i < |entries| ==> entries[i].name != name) ==> r == []
  {
    if entries == [] then []
    else
      var last := entries[|entries| - 1];
      if last.name == name then last.caBundle else BundleNamed(entries[..|entries| - 1], name)
  }

  lemma {:induction false} BundleNamedFinds(entries: seq<Entry>, k: nat)
    requires k < |entries| && DistinctNames(entries)
    ensures BundleNamed(entries, entries[k].name) == entries[k].caBundle
  {
    if k < |entries| - 1 {
      BundleNamedFinds(entries[..|entries| - 1], k);
    }
  }

  function InitEntries(template: seq<string>, service: string, live: seq<Entry>, secret: CASecret): (r: seq<Entry>)
    ensures |r| == |template|
    ensures forall i :: 0 <= i < |r| ==>
              r[i] == Entry(template[i], service, CABundleForWebhook(BundleNamed(live, template[i]), secret))
  {
    seq(|template|, i requires 0 <= i < |template| =>
      Entry(template[i], service, CABundleForWebhook(BundleNamed(live, template[i]), secret)))
  }

  /** The mutate function of ensureControllerWebhookConfigurations: collect the live bundles by name, then point every
      webhook of the template at the Service of the controller. */
  method ReconcileControllerEntries(template: seq<string>, service: string, live: seq<Entry>, secret: CASecret)
    returns (r: seq<Entry>)
    requires DistinctNames(live)
    ensures r == InitEntries(template, service, live, secret)
    // A webhook that stays keeps a bundle that is not empty; every other one trusts the CA root Secret.
    ensures forall i, k :: 0 <= i < |r| && 0 <= k < |live| && live[k].name == r[i].name && live[k].caBundle != [] ==>
                             r[i].caBundle == live[k].caBundle
    ensures forall i :: 0 <= i < |r| && (forall k :: 0 <= k < |live| ==> live[k].name != r[i].name) ==>
                          r[i].caBundle == CABundle(secret)
  {
    hide CABundleForWebhook;
    var liveCABundles := CollectBundles(live);
    r := [];
    for i := 0 to |template|
      invariant r == InitEntries(template, service, live, secret)[..i]
    {
      var name := template[i];
      var bundle := if name in liveCABundles then liveCABundles[name] else [];
      r := r + [Entry(name, service, CABundleForWebhook(bundle, secret))];
    }
    assert r == InitEntries(template, service, live, secret);
    KeptOrFresh(template, service, live, secret);
  }

  method CollectBundles(live: seq<Entry>) returns (bundles: map<string, seq<CACert>>)
    ensures forall n :: BundleNamed(live, n) == if n in bundles then bundles[n] else []
  {
    bundles := map[];
    for i := 0 to |live|
      invariant forall n :: n in bundles ==> bundles[n] == BundleNamed(live[..i], n)
      invariant forall n :: n !in bundles ==> BundleNamed(live[..i], n) == []
    {
      assert live[..i + 1][..i] == live[..i];
      bundles := bundles[live[i].name := live[i].caBundle];
    }
    assert live[..|live|] == live;
  }

  lemma KeptOrFresh(template: seq<string>, service: string, live: seq<Entry>, secret: CASecret)
    requires DistinctNames(live)
    ensures var r := InitEntries(template, service, live, secret);
            && (forall i, k ::
                  0 <= i < |r| && 0 <= k < |live| && live[k].name == r[i].name && live[k].caBundle != [] ==>
                    r[i].caBundle == live[k].caBundle)
            && (forall i :: 0 <= i < |r| && (forall k :: 0 <= k < |live| ==> live[k].name != r[i].name) ==>
                              r[i].caBundle == CABundle(secret))
  {
    hide InitEntries;
    var r := InitEntries(template, service, live, secret);
    forall i, k | 0 <= i < |r| && 0 <= k < |live| && live[k].name == r[i].name && live[k].caBundle != []
      ensures r[i].caBundle == live[k].caBundle
    {
      BundleNamedFinds(live, k);
    }
  }
}
