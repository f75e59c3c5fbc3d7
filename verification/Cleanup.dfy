/**
  The uninstall hook. Every object has a final form that depends on the object alone; every call that a run makes,
  whether or not the run goes on to succeed, keeps all final forms, and a run that succeeds has brought every object to
  its own. So a run that stopped anywhere can simply be started again.
 */
module Cleanup {
  import opened Collections
  import opened Options

  datatype Kind =
    | ValidatingWebhookConfiguration | MutatingWebhookConfiguration
    | PolicyServer | ClusterAdmissionPolicy | AdmissionPolicy | ClusterAdmissionPolicyGroup | AdmissionPolicyGroup
    | Deployment | Service | Secret | ConfigMap | PodDisruptionBudget
    | OtherKind

  /** Cluster-wide objects have an empty namespace. */
  datatype Key = Key(kind: Kind, namespace: string, name: string)

  datatype Object = Object(labels: map<string, string>, finalizers: seq<string>, deleting: bool, content: string)

  type Objects = map<Key, Object>

  const FINALIZER := "kubewarden.io/finalizer"
  const LEGACY_FINALIZER := "kubewarden"

  const CUSTOM_RESOURCES: seq<Kind> :=
    [PolicyServer, ClusterAdmissionPolicy, AdmissionPolicy, ClusterAdmissionPolicyGroup, AdmissionPolicyGroup]
  const WEBHOOKS: seq<Kind> := [ValidatingWebhookConfiguration, MutatingWebhookConfiguration]
  const BACKING: seq<Kind> := [Deployment, Service, Secret, ConfigMap, PodDisruptionBudget]

  predicate IsCustomResource(kind: Kind) {
    kind in CUSTOM_RESOURCES
  }

  // ---- label queries ----

  predicate HasValue(o: Object, name: string, value: string) {
    name in o.labels && o.labels[name] == value
  }

  predicate PartOfKubewarden(o: Object) {
    HasValue(o, "app.kubernetes.io/part-of", "kubewarden")
  }

  datatype Query = All | PartOf | BacksPolicyServer | ManagedByDefaults | NamesPolicyServer

  predicate Satisfies(query: Query, o: Object) {
    match query
    case All => true
    case PartOf => PartOfKubewarden(o)
    case BacksPolicyServer => PartOfKubewarden(o) && HasValue(o, "app.kubernetes.io/component", "policy-server")
    case ManagedByDefaults => HasValue(o, "kubewarden.io/managed-by", "kubewarden-controller-defaults")
    case NamesPolicyServer => "kubewarden/policy-server" in o.labels
  }

  datatype Selector = Selector(kind: Kind, namespace: Option<string>, query: Query)

  predicate Matches(s: Selector, key: Key, o: Object) {
    key.kind == s.kind && (s.namespace.Some? ==> key.namespace == s.namespace.value) && Satisfies(s.query, o)
  }

  // ---- what the API server does ----

  function Without(finalizers: seq<string>, name: string): seq<string> {
    if finalizers == [] then []
    else if finalizers[0] == name then Without(finalizers[1..], name)
    else [finalizers[0]] + Without(finalizers[1..], name)
  }

  /** The finalizers of other tools, in their order. */
  function Foreign(finalizers: seq<string>): seq<string> {
    Without(Without(finalizers, FINALIZER), LEGACY_FINALIZER)
  }

  /** A deletion removes the object, or marks it while finalizers hold it. */
  function Deleted(o: Object): Option<Object> {
    if o.finalizers == [] then None else Some(o.(deleting := true))
  }

  /** Removing the last finalizer of an object that is being deleted completes the deletion. */
  function Stripped(o: Object): Option<Object> {
    var kept := Foreign(o.finalizers);
    if kept == o.finalizers then Some(o)
    else if kept == [] && o.deleting then None
    else Some(o.(finalizers := kept))
  }

  // ---- the final form of an object ----

  /** A first list at once, and one for each second of the timeout. */
  const POLLS := 181

  datatype RunOptions = RunOptions(deploymentsNamespace: string, controllerDeployment: string)

  const CERT_SECRETS: seq<string> := ["kubewarden-ca", "kubewarden-webhook-server-cert",
                                      "kubewarden-audit-scanner-client-cert"]

  /** What the uninstall deletes. */
  predicate Doomed(opts: RunOptions, key: Key, o: Object) {
    || key == Key(Deployment, opts.deploymentsNamespace, opts.controllerDeployment)
    || (key.kind in WEBHOOKS && Satisfies(PartOf, o))
    || (IsCustomResource(key.kind) && Satisfies(ManagedByDefaults, o))
    || (key.kind in BACKING && key.namespace == opts.deploymentsNamespace && Satisfies(BacksPolicyServer, o))
    || (key.kind == ConfigMap && key.namespace == opts.deploymentsNamespace && Satisfies(NamesPolicyServer, o))
    || (key.kind == Secret && key.namespace == opts.deploymentsNamespace && key.name in CERT_SECRETS)
  }

  ghost function Final(opts: RunOptions, key: Key, o: Object): Option<Object> {
    var kept := if IsCustomResource(key.kind) then Stripped(o) else Some(o);
    if kept.Some? && Doomed(opts, key, o) then Deleted(kept.value) else kept
  }

  ghost function Lookup(objects: Objects, key: Key): Option<Object> {
    if key in objects then Some(objects[key]) else None
  }

  ghost function FinalAt(opts: RunOptions, objects: Objects, key: Key): Option<Object> {
    if key in objects then Final(opts, key, objects[key]) else None
  }

  /** An object that a complete run would leave alone. */
  ghost predicate Settled(opts: RunOptions, key: Key, o: Object) {
    && (IsCustomResource(key.kind) ==> Foreign(o.finalizers) == o.finalizers)
    && (Doomed(opts, key, o) ==> Held(o))
  }

  ghost predicate Held(o: Object) {
    o.deleting && o.finalizers != []
  }

  lemma {:induction false} WithoutIdempotent(finalizers: seq<string>, name: string)
    ensures Without(Without(finalizers, name), name) == Without(finalizers, name) && name !in Without(finalizers, name)
  {
    if finalizers != [] {
      WithoutIdempotent(finalizers[1..], name);
      var rest := Without(finalizers[1..], name);
      assert ([finalizers[0]] + rest)[1..] == rest;
    }
  }

  lemma {:induction false} WithoutCommutes(finalizers: seq<string>, a: string, b: string)
    ensures Without(Without(finalizers, a), b) == Without(Without(finalizers, b), a)
  {
    if finalizers != [] {
      WithoutCommutes(finalizers[1..], a, b);
      var restA, restB := Without(finalizers[1..], a), Without(finalizers[1..], b);
      assert ([finalizers[0]] + restA)[1..] == restA && ([finalizers[0]] + restB)[1..] == restB;
    }
  }

  lemma {:induction false} WithoutKeeps(finalizers: seq<string>, name: string, other: string)
    requires other != name
    ensures other in Without(finalizers, name) <==> other in finalizers
  {
    if finalizers != [] { WithoutKeeps(finalizers[1..], name, other); }
  }

  lemma ForeignIdempotent(finalizers: seq<string>)
    ensures Foreign(Foreign(finalizers)) == Foreign(finalizers)
  {
    hide Without;
    var once := Without(finalizers, FINALIZER);
    WithoutIdempotent(finalizers, FINALIZER);
    WithoutIdempotent(once, LEGACY_FINALIZER);
    WithoutCommutes(once, FINALIZER, LEGACY_FINALIZER);
  }

  /** Both Kubewarden finalizers are gone and every other finalizer is still there. */
  lemma ForeignMeans(finalizers: seq<string>, name: string)
    ensures name in Foreign(finalizers) <==> name in finalizers && name != FINALIZER && name != LEGACY_FINALIZER
  {
    hide Without;
    var once := Without(finalizers, FINALIZER);
    WithoutIdempotent(finalizers, FINALIZER);
    WithoutIdempotent(once, LEGACY_FINALIZER);
    if name != FINALIZER { WithoutKeeps(finalizers, FINALIZER, name); }
    if name != LEGACY_FINALIZER { WithoutKeeps(once, LEGACY_FINALIZER, name); }
  }

  // ---- how a run changes the cluster ----

  /** What every call keeps of an object that stays. */
  ghost predicate Keeps(before: Object, after: Object) {
    && after.labels == before.labels && after.content == before.content
    && (before.deleting ==> after.deleting)
    && (Held(before) ==> Held(after))
    && (Foreign(before.finalizers) == before.finalizers ==> Foreign(after.finalizers) == after.finalizers)
  }

  /** Nothing new appears, what stays is kept, and every object keeps its final form. */
  ghost predicate Progress(opts: RunOptions, before: Objects, after: Objects) {
    forall key {:trigger FinalAt(opts, after, key)} {:trigger key in after} ::
      && FinalAt(opts, after, key) == FinalAt(opts, before, key)
      && (key in after ==> key in before && Keeps(before[key], after[key]))
  }

  lemma ProgressRefl(opts: RunOptions, a: Objects)
    ensures Progress(opts, a, a)
  {
    hide Final, Foreign, Held;
  }

  lemma ProgressTrans(opts: RunOptions, a: Objects, b: Objects, c: Objects)
    requires Progress(opts, a, b) && Progress(opts, b, c)
    ensures Progress(opts, a, c)
  {
    hide Final, Foreign, Held;
  }

  function Put(objects: Objects, key: Key, o: Option<Object>): Objects {
    if o.Some? then objects[key := o.value] else objects - {key}
  }

  lemma PutProgress(opts: RunOptions, objects: Objects, key: Key, o: Option<Object>)
    requires key in objects
    requires (if o.Some? then Final(opts, key, o.value) else None) == Final(opts, key, objects[key])
    requires o.Some? ==> Keeps(objects[key], o.value)
    ensures Progress(opts, objects, Put(objects, key, o))
  {
    hide Final, Foreign, Held;
  }

  lemma DeleteProgress(opts: RunOptions, objects: Objects, key: Key)
    requires key in objects && Doomed(opts, key, objects[key])
    ensures Progress(opts, objects, Put(objects, key, Deleted(objects[key])))
  {
    hide Foreign, Satisfies;
    var o := objects[key];
    ForeignNothing();
    ForeignIdempotent(o.finalizers);
    assert Doomed(opts, key, o) == Doomed(opts, key, o.(deleting := true)) by {
      SameLabels(opts, key, o, o.(deleting := true));
    }
    PutProgress(opts, objects, key, Deleted(o));
  }

  lemma ForeignNothing()
    ensures Foreign([]) == []
  {
  }

  lemma SameLabels(opts: RunOptions, key: Key, o: Object, p: Object)
    requires o.labels == p.labels
    ensures Doomed(opts, key, o) == Doomed(opts, key, p)
  {
  }

  lemma StripProgress(opts: RunOptions, objects: Objects, key: Key)
    requires key in objects && IsCustomResource(key.kind)
    ensures Progress(opts, objects, Put(objects, key, Stripped(objects[key])))
  {
    hide Foreign, Satisfies;
    var o := objects[key];
    ForeignIdempotent(o.finalizers);
    var stripped := o.(finalizers := Foreign(o.finalizers));
    assert Doomed(opts, key, o) == Doomed(opts, key, stripped) by { SameLabels(opts, key, o, stripped); }
    PutProgress(opts, objects, key, Stripped(o));
  }

  // ---- the stages ----

  /** Every object the selector matches is gone, or only held by its finalizers. */
  ghost predicate Cleared(objects: Objects, s: Selector) {
    forall key :: key in objects && Matches(s, key, objects[key]) ==> Held(objects[key])
  }

  ghost predicate ClearedAll(objects: Objects, kinds: seq<Kind>, namespace: Option<string>, query: Query) {
    forall kind :: kind in kinds ==> Cleared(objects, Selector(kind, namespace, query))
  }

  ghost predicate KeyCleared(objects: Objects, key: Key) {
    key in objects ==> Held(objects[key])
  }

  ghost predicate CertsCleared(opts: RunOptions, objects: Objects) {
    forall name :: name in CERT_SECRETS ==> KeyCleared(objects, Key(Secret, opts.deploymentsNamespace, name))
  }

  ghost predicate AllStripped(objects: Objects, kind: Kind) {
    forall key :: key in objects && key.kind == kind ==> Foreign(objects[key].finalizers) == objects[key].finalizers
  }

  ghost predicate StrippedAt(objects: Objects, key: Key) {
    key in objects ==> Foreign(objects[key].finalizers) == objects[key].finalizers
  }

  ghost predicate Dooms(opts: RunOptions, s: Selector) {
    forall key, o :: Matches(s, key, o) ==> Doomed(opts, key, o)
  }

  lemma MatchesSame(s: Selector, key: Key, o: Object, p: Object)
    requires o.labels == p.labels
    ensures Matches(s, key, o) == Matches(s, key, p)
  {
  }

  lemma ClearedStays(opts: RunOptions, before: Objects, after: Objects, s: Selector)
    requires Progress(opts, before, after) && Cleared(before, s)
    ensures Cleared(after, s)
  {
    hide Final, Foreign, Held, Matches;
    forall key | key in after && Matches(s, key, after[key]) ensures Held(after[key]) {
      MatchesSame(s, key, before[key], after[key]);
    }
  }

  lemma ClearedAllStays(opts: RunOptions, before: Objects, after: Objects, kinds: seq<Kind>, namespace: Option<string>,
                        query: Query)
    requires Progress(opts, before, after) && ClearedAll(before, kinds, namespace, query)
    ensures ClearedAll(after, kinds, namespace, query)
  {
    hide Progress, Cleared;
    forall kind | kind in kinds ensures Cleared(after, Selector(kind, namespace, query)) {
      ClearedStays(opts, before, after, Selector(kind, namespace, query));
    }
  }

  lemma KeyClearedStays(opts: RunOptions, before: Objects, after: Objects, key: Key)
    requires Progress(opts, before, after) && KeyCleared(before, key)
    ensures KeyCleared(after, key)
  {
    hide Final, Foreign, Held;
  }

  lemma StrippedStays(opts: RunOptions, before: Objects, after: Objects, kind: Kind)
    requires Progress(opts, before, after) && AllStripped(before, kind)
    ensures AllStripped(after, kind)
  {
    hide Final, Foreign, Held;
  }

  /** Objects of other kinds than these are as they were. */
  ghost predicate OnlyKinds(before: Objects, after: Objects, kinds: seq<Kind>) {
    forall key: Key :: key.kind !in kinds ==> Lookup(after, key) == Lookup(before, key)
  }

  lemma OnlyKindsTrans(a: Objects, b: Objects, c: Objects, first: seq<Kind>, second: seq<Kind>, kinds: seq<Kind>)
    requires OnlyKinds(a, b, first) && OnlyKinds(b, c, second)
    requires forall kind :: kind in first || kind in second ==> kind in kinds
    ensures OnlyKinds(a, c, kinds)
  {
  }

  ghost predicate Touches(before: Objects, after: Objects, kinds: seq<Kind>) {
    exists key: Key :: key.kind in kinds && Lookup(after, key) != Lookup(before, key)
  }

  const CONFIGURATION: seq<Kind> := [Service, Secret, ConfigMap, PodDisruptionBudget]

  ghost predicate CustomResourcesReleased(objects: Objects) {
    && (forall kind :: IsCustomResource(kind) ==> AllStripped(objects, kind))
    && ClearedAll(objects, CUSTOM_RESOURCES, None, ManagedByDefaults)
  }

  /**
    The order of the stages, as far as it shows in the cluster: no webhook configuration is touched before the
    controller is gone, no custom resource before the webhook configurations that could reject the write are gone, and
    nothing that backs a policy server before the custom resources are released.
   */
  ghost predicate InOrder(opts: RunOptions, before: Objects, after: Objects) {
    var controller := Key(Deployment, opts.deploymentsNamespace, opts.controllerDeployment);
    && (Touches(before, after, WEBHOOKS) ==> KeyCleared(after, controller))
    && (Touches(before, after, CUSTOM_RESOURCES) ==>
          KeyCleared(after, controller) && ClearedAll(after, WEBHOOKS, None, PartOf))
    && (Touches(before, after, CONFIGURATION) ==>
          KeyCleared(after, controller) && ClearedAll(after, WEBHOOKS, None, PartOf) && CustomResourcesReleased(after))
  }

  lemma Untouched(before: Objects, after: Objects, kinds: seq<Kind>, others: seq<Kind>)
    requires OnlyKinds(before, after, kinds) && forall kind :: kind in others ==> kind !in kinds
    ensures !Touches(before, after, others)
  {
  }

  /** How far a run has come decides what it may have touched. */
  lemma InOrderAt(opts: RunOptions, before: Objects, after: Objects, stage: nat)
    requires stage >= 1 ==> KeyCleared(after, Key(Deployment, opts.deploymentsNamespace, opts.controllerDeployment))
    requires stage >= 2 ==> ClearedAll(after, WEBHOOKS, None, PartOf)
    requires stage >= 3 ==> CustomResourcesReleased(after)
    requires stage == 0 ==> OnlyKinds(before, after, [Deployment])
    requires stage == 1 ==> OnlyKinds(before, after, [Deployment] + WEBHOOKS)
    requires stage == 2 ==> OnlyKinds(before, after, [Deployment] + WEBHOOKS + CUSTOM_RESOURCES)
    ensures InOrder(opts, before, after)
  {
    hide OnlyKinds, Touches, ClearedAll, KeyCleared, CustomResourcesReleased;
    if stage == 0 {
      Untouched(before, after, [Deployment], WEBHOOKS);
      Untouched(before, after, [Deployment], CUSTOM_RESOURCES);
      Untouched(before, after, [Deployment], CONFIGURATION);
    } else if stage == 1 {
      Untouched(before, after, [Deployment] + WEBHOOKS, CUSTOM_RESOURCES);
      Untouched(before, after, [Deployment] + WEBHOOKS, CONFIGURATION);
    } else if stage == 2 {
      Untouched(before, after, [Deployment] + WEBHOOKS + CUSTOM_RESOURCES, CONFIGURATION);
    }
  }

  /** What a stage has achieved is still true after later ones. */
  lemma StagesStay(opts: RunOptions, before: Objects, after: Objects, stage: nat)
    requires Progress(opts, before, after)
    requires stage >= 1 ==> KeyCleared(before, Key(Deployment, opts.deploymentsNamespace, opts.controllerDeployment))
    requires stage >= 2 ==> ClearedAll(before, WEBHOOKS, None, PartOf)
    requires stage >= 3 ==> CustomResourcesReleased(before)
    ensures stage >= 1 ==> KeyCleared(after, Key(Deployment, opts.deploymentsNamespace, opts.controllerDeployment))
    ensures stage >= 2 ==> ClearedAll(after, WEBHOOKS, None, PartOf)
    ensures stage >= 3 ==> CustomResourcesReleased(after)
  {
    hide Progress, ClearedAll, KeyCleared, AllStripped;
    if stage >= 1 {
      KeyClearedStays(opts, before, after, Key(Deployment, opts.deploymentsNamespace, opts.controllerDeployment));
    }
    if stage >= 2 { ClearedAllStays(opts, before, after, WEBHOOKS, None, PartOf); }
    if stage >= 3 {
      forall kind | IsCustomResource(kind) ensures AllStripped(after, kind) {
        StrippedStays(opts, before, after, kind);
      }
      ClearedAllStays(opts, before, after, CUSTOM_RESOURCES, None, ManagedByDefaults);
    }
  }

  datatype Update = Updated | NotFound | Conflict | Error

  class Cluster {
    var objects: Objects
    /** The pods of the controller. */
    var pods: set<string>
    /** How many calls have returned an error other than "not found". */
    var failures: nat

    method Call() returns (ok: bool)
      modifies this`failures
      ensures ok ==> failures == old(failures)
      ensures !ok ==> failures == old(failures) + 1
    {
      ok := *;
      if !ok { failures := failures + 1; }
    }

    method List(s: Selector) returns (keys: Option<seq<Key>>)
      modifies this`failures
      ensures failures >= old(failures)
      ensures keys.None? ==> failures > old(failures)
      ensures keys.Some? ==> forall key :: key in keys.value <==> key in objects && Matches(s, key, objects[key])
    {
      hide Matches;
      var ok := Call();
      if !ok { return None; }
      var found := Enumerate(set key | key in objects && Matches(s, key, objects[key]));
      return Some(found);
    }

    /** Deleting what is not there is no error. */
    method Delete(ghost opts: RunOptions, key: Key) returns (ok: bool)
      requires key in objects ==> Doomed(opts, key, objects[key])
      modifies this`objects, this`failures
      ensures Progress(opts, old(objects), objects) && failures >= old(failures)
      ensures OnlyKinds(old(objects), objects, [key.kind])
      ensures ok ==> KeyCleared(objects, key)
      ensures !ok ==> failures > old(failures)
    {
      hide Doomed, Final, Foreign;
      ok := Call();
      if !ok || key !in objects { return; }
      DeleteProgress(opts, objects, key);
      objects := Put(objects, key, Deleted(objects[key]));
    }

    method DeleteEachListItem(ghost opts: RunOptions, s: Selector) returns (ok: bool)
      requires Dooms(opts, s)
      modifies this`objects, this`failures
      ensures Progress(opts, old(objects), objects) && failures >= old(failures)
      ensures OnlyKinds(old(objects), objects, [s.kind])
      ensures ok ==> Cleared(objects, s)
      ensures !ok ==> failures > old(failures)
    {
      hide Doomed, Final, Foreign, Matches, Held;
      var keys := List(s);
      if keys.None? { return false; }
      assert forall key :: key in keys.value ==> key.kind == s.kind by { ListedKind(s, objects, keys.value); }
      for i := 0 to |keys.value|
        invariant OnlyKinds(old(objects), objects, [s.kind])
        invariant Progress(opts, old(objects), objects) && failures >= old(failures)
        invariant forall j :: 0 <= j < i ==> KeyCleared(objects, keys.value[j])
      {
        var key := keys.value[i];
        assert key in keys.value;
        if key in objects { MatchesSame(s, key, old(objects)[key], objects[key]); }
        ghost var before := objects;
        ok := Delete(opts, key);
        ProgressTrans(opts, old(objects), before, objects);
        if !ok { return; }
        forall j | 0 <= j < i ensures KeyCleared(objects, keys.value[j]) {
          KeyClearedStays(opts, before, objects, keys.value[j]);
        }
      }
      forall key | key in objects && Matches(s, key, objects[key]) ensures Held(objects[key]) {
        MatchesSame(s, key, old(objects)[key], objects[key]);
        assert key in keys.value;
      }
      return true;
    }

    /** One list and its deletions for each kind. */
    method DeleteKinds(ghost opts: RunOptions, kinds: seq<Kind>, namespace: Option<string>, query: Query)
      returns (ok: bool)
      requires forall kind :: kind in kinds ==> Dooms(opts, Selector(kind, namespace, query))
      modifies this`objects, this`failures
      ensures Progress(opts, old(objects), objects) && failures >= old(failures)
      ensures OnlyKinds(old(objects), objects, kinds)
      ensures ok ==> ClearedAll(objects, kinds, namespace, query)
      ensures !ok ==> failures > old(failures)
    {
      hide Dooms, Cleared, Progress;
      ProgressRefl(opts, objects);
      for i := 0 to |kinds|
        invariant OnlyKinds(old(objects), objects, kinds)
        invariant Progress(opts, old(objects), objects) && failures >= old(failures)
        invariant forall j :: 0 <= j < i ==> Cleared(objects, Selector(kinds[j], namespace, query))
      {
        ghost var before := objects;
        ok := DeleteEachListItem(opts, Selector(kinds[i], namespace, query));
        ProgressTrans(opts, old(objects), before, objects);
        OnlyKindsTrans(old(objects), before, objects, kinds, [kinds[i]], kinds);
        if !ok { return; }
        forall j | 0 <= j < i ensures Cleared(objects, Selector(kinds[j], namespace, query)) {
          ClearedStays(opts, before, objects, Selector(kinds[j], namespace, query));
        }
      }
      return true;
    }

    /** An update of the finalizers; a spurious conflict changes nothing. */
    method UpdateFinalizers(key: Key, finalizers: seq<string>) returns (r: Update)
      modifies this`objects, this`failures
      ensures match r
              case Updated =>
                && key in old(objects) && failures == old(failures)
                && objects == Put(old(objects), key,
                                  if finalizers == [] && old(objects)[key].deleting then None
                                  else Some(old(objects)[key].(finalizers := finalizers)))
              case NotFound => key !in objects && objects == old(objects) && failures == old(failures)
              case _ => objects == old(objects) && failures == old(failures) + 1
    {
      var ok := Call();
      if !ok {
        if * { return Conflict; } else { return Error; }
      }
      if key !in objects { return NotFound; }
      var o := objects[key];
      objects := Put(objects, key, if finalizers == [] && o.deleting then None else Some(o.(finalizers := finalizers)));
      return Updated;
    }

    /** Get, remove both finalizers, update; again up to five times when the update conflicts. It gives up only after
        five conflicts, or at another error. */
    method StripObject(ghost opts: RunOptions, key: Key) returns (ok: bool, ghost conflicts: nat, ghost error: bool)
      requires IsCustomResource(key.kind)
      modifies this`objects, this`failures
      ensures Progress(opts, old(objects), objects) && failures >= old(failures)
      ensures OnlyKinds(old(objects), objects, [key.kind])
      ensures ok ==> key in objects ==> Foreign(objects[key].finalizers) == objects[key].finalizers
      ensures !ok ==> failures > old(failures)
      ensures failures == old(failures) + conflicts + if error then 1 else 0
      ensures !ok <==> error || conflicts == 5
    {
      hide Progress, Foreign, Doomed, Final;
      ProgressRefl(opts, objects);
      conflicts, error := 0, false;
      for attempt := 0 to 5
        invariant objects == old(objects) && conflicts == attempt && failures == old(failures) + conflicts && !error
      {
        ok := Call();
        if !ok {
          error := true;
          return;
        }
        if key !in objects { return; }
        var kept := Foreign(objects[key].finalizers);
        if kept == objects[key].finalizers { return; }
        StripProgress(opts, objects, key);
        ForeignIdempotent(objects[key].finalizers);
        var r := UpdateFinalizers(key, kept);
        match r
        case Updated => return;
        case NotFound => return;
        case Error =>
          ok, error := false, true;
          return;
        case Conflict => conflicts := conflicts + 1;
      }
      ok := false;
    }

    method StripKind(ghost opts: RunOptions, kind: Kind) returns (ok: bool)
      requires IsCustomResource(kind)
      modifies this`objects, this`failures
      ensures Progress(opts, old(objects), objects) && failures >= old(failures)
      ensures OnlyKinds(old(objects), objects, [kind])
      ensures ok ==> AllStripped(objects, kind)
      ensures !ok ==> failures > old(failures)
    {
      hide Foreign, Doomed, Final, Held, IsCustomResource;
      var keys := List(Selector(kind, None, All));
      if keys.None? { return false; }
      assert forall key :: key in keys.value ==> key.kind == kind;
      for i := 0 to |keys.value|
        invariant Progress(opts, old(objects), objects) && failures >= old(failures)
        invariant forall j :: 0 <= j < i ==> StrippedAt(objects, keys.value[j])
        invariant OnlyKinds(old(objects), objects, [kind])
      {
        ghost var before := objects;
        assert keys.value[i] in keys.value;
        ghost var conflicts, error;
        ok, conflicts, error := StripObject(opts, keys.value[i]);
        ProgressTrans(opts, old(objects), before, objects);
        if !ok { return; }
        forall j | 0 <= j < i ensures StrippedAt(objects, keys.value[j]) {
          assert StrippedAt(before, keys.value[j]);
        }
      }
      forall key | key in objects && key.kind == kind ensures StrippedAt(objects, key) {
        assert key in keys.value;
      }
      return true;
    }

    method StripKubewardenFinalizers(ghost opts: RunOptions) returns (ok: bool)
      modifies this`objects, this`failures
      ensures Progress(opts, old(objects), objects) && failures >= old(failures)
      ensures OnlyKinds(old(objects), objects, CUSTOM_RESOURCES)
      ensures ok ==> forall kind :: IsCustomResource(kind) ==> AllStripped(objects, kind)
      ensures ok ==> forall key :: key in objects && OfKubewarden(key) ==> NotOurs(objects[key])
      ensures !ok ==> failures > old(failures)
    {
      hide Progress, AllStripped, NotOurs, OfKubewarden;
      ProgressRefl(opts, objects);
      var kinds := CUSTOM_RESOURCES;
      for i := 0 to |kinds|
        invariant Progress(opts, old(objects), objects) && failures >= old(failures)
        invariant forall j :: 0 <= j < i ==> AllStripped(objects, kinds[j])
        invariant OnlyKinds(old(objects), objects, kinds)
      {
        ghost var before := objects;
        ok := StripKind(opts, kinds[i]);
        ProgressTrans(opts, old(objects), before, objects);
        OnlyKindsTrans(old(objects), before, objects, kinds, [kinds[i]], kinds);
        if !ok { return; }
        forall j | 0 <= j < i ensures AllStripped(objects, kinds[j]) {
          StrippedStays(opts, before, objects, kinds[j]);
        }
      }
      forall key | key in objects && OfKubewarden(key) ensures NotOurs(objects[key]) {
        StrippedMeans(objects, key);
      }
      return true;
    }

    method DeleteCertificateSecrets(opts: RunOptions) returns (ok: bool)
      modifies this`objects, this`failures
      ensures Progress(opts, old(objects), objects) && failures >= old(failures)
      ensures ok ==> CertsCleared(opts, objects)
      ensures !ok ==> failures > old(failures)
    {
      hide Progress, KeyCleared, Satisfies;
      ProgressRefl(opts, objects);
      var names := CERT_SECRETS;
      for i := 0 to |names|
        invariant Progress(opts, old(objects), objects) && failures >= old(failures)
        invariant forall j :: 0 <= j < i ==> KeyCleared(objects, Key(Secret, opts.deploymentsNamespace, names[j]))
      {
        ghost var before := objects;
        ok := Delete(opts, Key(Secret, opts.deploymentsNamespace, names[i]));
        ProgressTrans(opts, old(objects), before, objects);
        if !ok { return; }
        forall j | 0 <= j < i ensures KeyCleared(objects, Key(Secret, opts.deploymentsNamespace, names[j])) {
          KeyClearedStays(opts, before, objects, Key(Secret, opts.deploymentsNamespace, names[j]));
        }
      }
      return true;
    }

    /**
      The whole hook. Stopped or not, it keeps every final form and the order of the stages; when it succeeds every
      object is in its final form, and it stops early only for missing options or a failed call.
     */
    method Run(opts: RunOptions) returns (ok: bool)
      modifies this
      ensures Progress(opts, old(objects), objects) && InOrder(opts, old(objects), objects)
      ensures Touches(old(objects), objects, WEBHOOKS + CUSTOM_RESOURCES + CONFIGURATION) ==> pods == {}
      ensures ok ==> forall key :: Lookup(objects, key) == FinalAt(opts, old(objects), key)
      ensures ok ==> Uninstalled(opts, old(objects), objects)
      ensures !ok ==> opts.deploymentsNamespace == "" || opts.controllerDeployment == "" || failures > old(failures)
    {
      hide Progress, Dooms, ClearedAll, Cleared, KeyCleared, AllStripped, CertsCleared, Doomed, Final, OnlyKinds,
           InOrder;
      ProgressRefl(opts, objects);
      ghost var start := objects;
      NothingTouched(opts, start);
      assert !Touches(start, start, WEBHOOKS + CUSTOM_RESOURCES + CONFIGURATION);
      if opts.deploymentsNamespace == "" || opts.controllerDeployment == "" { return false; }
      ok := DeleteController(opts);
      ghost var s1 := objects;
      InOrderAt(opts, start, s1, 0);
      Untouched(start, s1, [Deployment], WEBHOOKS + CUSTOM_RESOURCES + CONFIGURATION);
      if !ok { return; }
      SelectorsDoom(opts);
      ok := DeleteKinds(opts, WEBHOOKS, None, PartOf);
      ghost var s2 := objects;
      ProgressTrans(opts, start, s1, s2);
      OnlyKindsTrans(start, s1, s2, [Deployment], WEBHOOKS, [Deployment] + WEBHOOKS);
      StagesStay(opts, s1, s2, 1);
      InOrderAt(opts, start, s2, 1);
      if !ok { return; }
      ok := StripKubewardenFinalizers(opts);
      ghost var s3 := objects;
      ProgressTrans(opts, start, s2, s3);
      OnlyKindsTrans(start, s2, s3, [Deployment] + WEBHOOKS, CUSTOM_RESOURCES,
                     [Deployment] + WEBHOOKS + CUSTOM_RESOURCES);
      StagesStay(opts, s2, s3, 2);
      InOrderAt(opts, start, s3, 2);
      if !ok { return; }
      ok := DeleteKinds(opts, CUSTOM_RESOURCES, None, ManagedByDefaults);
      ghost var s4 := objects;
      ProgressTrans(opts, start, s3, s4);
      OnlyKindsTrans(start, s3, s4, [Deployment] + WEBHOOKS + CUSTOM_RESOURCES, CUSTOM_RESOURCES,
                     [Deployment] + WEBHOOKS + CUSTOM_RESOURCES);
      StagesStay(opts, s3, s4, 2);
      InOrderAt(opts, start, s4, 2);
      if !ok { return; }
      forall kind | IsCustomResource(kind) ensures AllStripped(s4, kind) { StrippedStays(opts, s3, s4, kind); }
      ok := DeleteKinds(opts, BACKING, Some(opts.deploymentsNamespace), BacksPolicyServer);
      ghost var s5 := objects;
      ProgressTrans(opts, start, s4, s5);
      StagesStay(opts, s4, s5, 3);
      InOrderAt(opts, start, s5, 3);
      if !ok { return; }
      ok := DeleteEachListItem(opts, Selector(ConfigMap, Some(opts.deploymentsNamespace), NamesPolicyServer));
      ghost var s6 := objects;
      ProgressTrans(opts, start, s5, s6);
      StagesStay(opts, s5, s6, 3);
      InOrderAt(opts, start, s6, 3);
      if !ok { return; }
      ok := DeleteCertificateSecrets(opts);
      ProgressTrans(opts, start, s6, objects);
      StagesStay(opts, s6, objects, 3);
      InOrderAt(opts, start, objects, 3);
      if !ok { return; }
      StagesSettle(opts, s1, s2, s3, s4, s5, s6, objects);
      forall key ensures Lookup(objects, key) == FinalAt(opts, start, key) {
        SettledLookup(opts, start, objects, key);
      }
      AllUninstalled(opts, start, objects);
    }

    /** Deletes the controller's Deployment and waits until its pods are gone. */
    method DeleteController(opts: RunOptions) returns (ok: bool)
      modifies this
      ensures Progress(opts, old(objects), objects) && failures >= old(failures)
      ensures OnlyKinds(old(objects), objects, [Deployment])
      ensures ok ==>
                KeyCleared(objects, Key(Deployment, opts.deploymentsNamespace, opts.controllerDeployment)) && pods == {}
      ensures !ok ==> failures > old(failures)
    {
      hide Progress, KeyCleared, Satisfies, OnlyKinds;
      ok := Delete(opts, Key(Deployment, opts.deploymentsNamespace, opts.controllerDeployment));
      if ok {
        ghost var lists, failed;
        ok, lists, failed := WaitForPods();
      }
    }

    /** Lists the pods once a second, up to three minutes, while they terminate. It gives up at a list that fails, or
        when 180 seconds have passed since the first list. */
    method WaitForPods() returns (ok: bool, ghost lists: nat, ghost failed: bool)
      modifies this`pods, this`failures
      ensures pods <= old(pods) && failures >= old(failures)
      ensures ok ==> pods == {} && failures == old(failures)
      ensures !ok ==> failures == old(failures) + 1
      ensures ok ==> !failed
      ensures !ok && !failed ==> lists == 181
    {
      lists, failed := 0, false;
      for second := 0 to POLLS
        invariant pods <= old(pods) && failures == old(failures) && lists == second && !failed
      {
        ok := Call();
        lists, failed := lists + 1, !ok;
        if !ok || pods == {} { return; }
        var terminated: set<string> := *;
        pods := pods - terminated;
      }
      failures := failures + 1;
      ok := false;
    }
  }

  lemma NothingTouched(opts: RunOptions, objects: Objects)
    ensures InOrder(opts, objects, objects)
  {
    hide ClearedAll, KeyCleared;
  }

  lemma ListedKind(s: Selector, objects: Objects, keys: seq<Key>)
    requires forall key :: key in keys ==> key in objects && Matches(s, key, objects[key])
    ensures forall key :: key in keys ==> key.kind == s.kind
  {
    hide Satisfies;
  }

  lemma SelectorsDoom(opts: RunOptions)
    ensures forall kind :: kind in WEBHOOKS ==> Dooms(opts, Selector(kind, None, PartOf))
    ensures forall kind :: kind in CUSTOM_RESOURCES ==> Dooms(opts, Selector(kind, None, ManagedByDefaults))
    ensures forall kind :: kind in BACKING ==>
              Dooms(opts, Selector(kind, Some(opts.deploymentsNamespace), BacksPolicyServer))
    ensures Dooms(opts, Selector(ConfigMap, Some(opts.deploymentsNamespace), NamesPolicyServer))
  {
    hide Satisfies;
  }

  /** The stages together cover everything that is doomed, and none undoes another. */
  lemma StagesSettle(opts: RunOptions, s1: Objects, s2: Objects, s3: Objects, s4: Objects, s5: Objects, s6: Objects,
                     s7: Objects)
    requires Progress(opts, s1, s2) && Progress(opts, s2, s3) && Progress(opts, s3, s4) && Progress(opts, s4, s5)
    requires Progress(opts, s5, s6) && Progress(opts, s6, s7)
    requires KeyCleared(s1, Key(Deployment, opts.deploymentsNamespace, opts.controllerDeployment))
    requires ClearedAll(s2, WEBHOOKS, None, PartOf)
    requires forall kind :: IsCustomResource(kind) ==> AllStripped(s3, kind)
    requires ClearedAll(s4, CUSTOM_RESOURCES, None, ManagedByDefaults)
    requires ClearedAll(s5, BACKING, Some(opts.deploymentsNamespace), BacksPolicyServer)
    requires Cleared(s6, Selector(ConfigMap, Some(opts.deploymentsNamespace), NamesPolicyServer))
    requires CertsCleared(opts, s7)
    ensures forall key :: key in s7 ==> Settled(opts, key, s7[key])
  {
    assert KeyCleared(s7, Key(Deployment, opts.deploymentsNamespace, opts.controllerDeployment))
        && ClearedAll(s7, WEBHOOKS, None, PartOf)
        && (forall kind :: IsCustomResource(kind) ==> AllStripped(s7, kind))
        && ClearedAll(s7, CUSTOM_RESOURCES, None, ManagedByDefaults)
        && ClearedAll(s7, BACKING, Some(opts.deploymentsNamespace), BacksPolicyServer)
        && Cleared(s7, Selector(ConfigMap, Some(opts.deploymentsNamespace), NamesPolicyServer)) by {
      hide Progress, ClearedAll, Cleared, KeyCleared, AllStripped, CertsCleared;
      ProgressTrans(opts, s5, s6, s7);
      ProgressTrans(opts, s4, s5, s7);
      ProgressTrans(opts, s3, s4, s7);
      ProgressTrans(opts, s2, s3, s7);
      ProgressTrans(opts, s1, s2, s7);
      KeyClearedStays(opts, s1, s7, Key(Deployment, opts.deploymentsNamespace, opts.controllerDeployment));
      ClearedAllStays(opts, s2, s7, WEBHOOKS, None, PartOf);
      forall kind | IsCustomResource(kind) ensures AllStripped(s7, kind) { StrippedStays(opts, s3, s7, kind); }
      ClearedAllStays(opts, s4, s7, CUSTOM_RESOURCES, None, ManagedByDefaults);
      ClearedAllStays(opts, s5, s7, BACKING, Some(opts.deploymentsNamespace), BacksPolicyServer);
      ClearedStays(opts, s6, s7, Selector(ConfigMap, Some(opts.deploymentsNamespace), NamesPolicyServer));
    }
    forall key | key in s7 ensures Settled(opts, key, s7[key]) {
      AllClearedSettles(opts, s7, key);
    }
  }

  lemma AllClearedSettles(opts: RunOptions, objects: Objects, key: Key)
    requires key in objects
    requires KeyCleared(objects, Key(Deployment, opts.deploymentsNamespace, opts.controllerDeployment))
    requires ClearedAll(objects, WEBHOOKS, None, PartOf)
    requires forall kind :: IsCustomResource(kind) ==> AllStripped(objects, kind)
    requires ClearedAll(objects, CUSTOM_RESOURCES, None, ManagedByDefaults)
    requires ClearedAll(objects, BACKING, Some(opts.deploymentsNamespace), BacksPolicyServer)
    requires Cleared(objects, Selector(ConfigMap, Some(opts.deploymentsNamespace), NamesPolicyServer))
    requires CertsCleared(opts, objects)
    ensures Settled(opts, key, objects[key])
  {
    hide Satisfies, Held, Foreign;
    var o := objects[key];
    assert key.kind in WEBHOOKS ==> Cleared(objects, Selector(key.kind, None, PartOf));
    assert key.kind in CUSTOM_RESOURCES ==> Cleared(objects, Selector(key.kind, None, ManagedByDefaults));
    assert key.kind in BACKING ==>
             Cleared(objects, Selector(key.kind, Some(opts.deploymentsNamespace), BacksPolicyServer));
    assert key.kind == Secret && key.name in CERT_SECRETS ==>
             KeyCleared(objects, Key(Secret, opts.deploymentsNamespace, key.name));
  }

  lemma SettledLookup(opts: RunOptions, start: Objects, objects: Objects, key: Key)
    requires Progress(opts, start, objects) && (key in objects ==> Settled(opts, key, objects[key]))
    ensures Lookup(objects, key) == FinalAt(opts, start, key)
  {
    hide Foreign, Doomed, Keeps;
    assert FinalAt(opts, objects, key) == FinalAt(opts, start, key);
  }

  // ---- what the final forms are ----

  /** What an uninstall that succeeded leaves of each object. */
  lemma FinalMeans(opts: RunOptions, key: Key, o: Object)
    ensures Doomed(opts, key, o) && Final(opts, key, o).Some? ==> Held(Final(opts, key, o).value)
    ensures Final(opts, key, o).Some? ==> Settled(opts, key, Final(opts, key, o).value)
    ensures IsCustomResource(key.kind) && !Doomed(opts, key, o) && !o.deleting ==>
              Final(opts, key, o) == Some(o.(finalizers := Foreign(o.finalizers)))
    ensures Final(opts, key, o).None? ==> Doomed(opts, key, o) || (IsCustomResource(key.kind) && o.deleting)
    ensures Final(opts, key, o).None? ==>
              forall name :: name in o.finalizers ==>
                               IsCustomResource(key.kind) && (name == FINALIZER || name == LEGACY_FINALIZER)
    ensures Final(opts, key, o).Some? ==>
              forall name :: name in Final(opts, key, o).value.finalizers <==>
                name in o.finalizers && (IsCustomResource(key.kind) ==> name != FINALIZER && name != LEGACY_FINALIZER)
    ensures !IsCustomResource(key.kind) && !Doomed(opts, key, o) ==> Final(opts, key, o) == Some(o)
  {
    hide Foreign, Doomed, IsCustomResource;
    ForeignIdempotent(o.finalizers);
    ForeignNothing();
    forall name
      ensures name in Foreign(o.finalizers) <==> name in o.finalizers && name != FINALIZER && name != LEGACY_FINALIZER
    {
      ForeignMeans(o.finalizers, name);
    }
    var f := Final(opts, key, o);
    if f.Some? { SameLabels(opts, key, o, f.value); }
  }

  // ---- the same, kind by kind ----

  /** The custom resources of Kubewarden: policy servers, policies and policy groups. */
  ghost predicate OfKubewarden(key: Key) {
    match key.kind
    case PolicyServer => true
    case ClusterAdmissionPolicy => true
    case AdmissionPolicy => true
    case ClusterAdmissionPolicyGroup => true
    case AdmissionPolicyGroup => true
    case _ => false
  }

  ghost predicate Labelled(o: Object, name: string, value: string) {
    name in o.labels && o.labels[name] == value
  }

  /** An object that the controller created for a policy server. */
  ghost predicate BacksServer(o: Object) {
    && Labelled(o, "app.kubernetes.io/part-of", "kubewarden")
    && Labelled(o, "app.kubernetes.io/component", "policy-server")
  }

  /** Which objects an uninstall deletes, kind by kind. */
  ghost predicate Unwanted(opts: RunOptions, key: Key, o: Object) {
    match key.kind
    case ValidatingWebhookConfiguration => Labelled(o, "app.kubernetes.io/part-of", "kubewarden")
    case MutatingWebhookConfiguration => Labelled(o, "app.kubernetes.io/part-of", "kubewarden")
    case Deployment =>
      key.namespace == opts.deploymentsNamespace && (key.name == opts.controllerDeployment || BacksServer(o))
    case Service => key.namespace == opts.deploymentsNamespace && BacksServer(o)
    case PodDisruptionBudget => key.namespace == opts.deploymentsNamespace && BacksServer(o)
    case ConfigMap =>
      key.namespace == opts.deploymentsNamespace && (BacksServer(o) || "kubewarden/policy-server" in o.labels)
    case Secret =>
      && key.namespace == opts.deploymentsNamespace
      && (BacksServer(o) || key.name == "kubewarden-ca" || key.name == "kubewarden-webhook-server-cert" ||
          key.name == "kubewarden-audit-scanner-client-cert")
    case _ => OfKubewarden(key) && Labelled(o, "kubewarden.io/managed-by", "kubewarden-controller-defaults")
  }

  ghost predicate Ours(finalizer: string) {
    finalizer == "kubewarden.io/finalizer" || finalizer == "kubewarden"
  }

  ghost predicate NotOurs(o: Object) {
    forall name :: name in o.finalizers ==> !Ours(name)
  }

  lemma StrippedMeans(objects: Objects, key: Key)
    requires key in objects && OfKubewarden(key)
    requires forall kind :: IsCustomResource(kind) ==> AllStripped(objects, kind)
    ensures NotOurs(objects[key])
  {
    hide Foreign;
    assert IsCustomResource(key.kind);
    forall name | name in objects[key].finalizers ensures !Ours(name) {
      ForeignMeans(objects[key].finalizers, name);
    }
  }

  /** What an uninstall has to make of an object, from its kind, its name, its labels and its finalizers. */
  ghost predicate UninstalledAt(opts: RunOptions, key: Key, o: Object, left: Option<Object>) {
    // it goes if nothing but the controller holds it back, and it was to be deleted
    && (left.None? <==>
          && (Unwanted(opts, key, o) || (OfKubewarden(key) && o.deleting && o.finalizers != []))
          && forall name :: name in o.finalizers ==> OfKubewarden(key) && Ours(name))
    && (left.Some? ==>
          && left.value.labels == o.labels && left.value.content == o.content
          && (left.value.deleting <==> o.deleting || Unwanted(opts, key, o))
          // no custom resource carries a finalizer of the controller that is gone; those of other tools stay
          && (forall name :: name in left.value.finalizers <==>
              name in o.finalizers && !(OfKubewarden(key) && Ours(name)))
          && (!OfKubewarden(key) ==> left.value.finalizers == o.finalizers))
  }

  ghost predicate Uninstalled(opts: RunOptions, before: Objects, after: Objects) {
    && (forall key :: key in after ==> key in before)
    && forall key :: key in before ==> UninstalledAt(opts, key, before[key], Lookup(after, key))
  }

  lemma UnwantedIsDoomed(opts: RunOptions, key: Key, o: Object)
    ensures Unwanted(opts, key, o) <==> Doomed(opts, key, o)
    ensures OfKubewarden(key) <==> IsCustomResource(key.kind)
  {
    QueriesMean(o);
    CertNames(key.name);
    hide Satisfies, Labelled, BacksServer;
    assert key == Key(key.kind, key.namespace, key.name);
  }

  lemma QueriesMean(o: Object)
    ensures Satisfies(PartOf, o) <==> Labelled(o, "app.kubernetes.io/part-of", "kubewarden")
    ensures Satisfies(BacksPolicyServer, o) <==> BacksServer(o)
    ensures Satisfies(ManagedByDefaults, o) <==>
              Labelled(o, "kubewarden.io/managed-by", "kubewarden-controller-defaults")
    ensures Satisfies(NamesPolicyServer, o) <==> "kubewarden/policy-server" in o.labels
  {
  }

  lemma CertNames(name: string)
    ensures name in CERT_SECRETS <==>
              || name == "kubewarden-ca" || name == "kubewarden-webhook-server-cert"
              || name == "kubewarden-audit-scanner-client-cert"
  {
    assert CERT_SECRETS[0] in CERT_SECRETS && CERT_SECRETS[1] in CERT_SECRETS && CERT_SECRETS[2] in CERT_SECRETS;
  }

  lemma FinalIsUninstalled(opts: RunOptions, key: Key, o: Object)
    ensures UninstalledAt(opts, key, o, Final(opts, key, o))
  {
    hide Foreign, Doomed, IsCustomResource, Unwanted, OfKubewarden;
    UnwantedIsDoomed(opts, key, o);
    FinalMeans(opts, key, o);
    forall name
      ensures name in Foreign(o.finalizers) <==> name in o.finalizers && !Ours(name)
    {
      ForeignMeans(o.finalizers, name);
    }
    if o.finalizers != [] { assert o.finalizers[0] in o.finalizers; }
    var kept := Foreign(o.finalizers);
    if kept != [] { assert kept[0] in kept; }
  }

  lemma AllUninstalled(opts: RunOptions, before: Objects, after: Objects)
    requires forall key :: Lookup(after, key) == FinalAt(opts, before, key)
    ensures Uninstalled(opts, before, after)
  {
    hide Final, UninstalledAt;
    forall key | key in after ensures key in before { assert Lookup(after, key) == FinalAt(opts, before, key); }
    forall key | key in before ensures UninstalledAt(opts, key, before[key], Lookup(after, key)) {
      FinalIsUninstalled(opts, key, before[key]);
    }
  }

  /** A second run finds every object settled: it reaches the same state. */
  lemma FinalIsStable(opts: RunOptions, key: Key, o: Object)
    requires Final(opts, key, o).Some?
    ensures Final(opts, key, Final(opts, key, o).value) == Final(opts, key, o)
  {
    hide Foreign, Doomed, IsCustomResource;
    FinalMeans(opts, key, o);
  }

  /** Runs that stopped anywhere, any number of them, and then one that succeeded: the same state as one good run. */
  lemma {:induction false} ResumedRun(opts: RunOptions, stops: seq<Objects>, final: Objects)
    requires stops != [] && forall i {:trigger stops[i]} :: 0 < i < |stops| ==> Progress(opts, stops[i - 1], stops[i])
    requires forall key :: Lookup(final, key) == FinalAt(opts, stops[|stops| - 1], key)
    ensures forall key :: Lookup(final, key) == FinalAt(opts, stops[0], key)
  {
    hide Final, Keeps;
    if |stops| > 1 {
      var n := |stops| - 1;
      assert Progress(opts, stops[n - 1], stops[n]);
      assert forall key :: FinalAt(opts, stops[n], key) == FinalAt(opts, stops[n - 1], key);
      ResumedRun(opts, stops[..n], final);
    }
  }
}
