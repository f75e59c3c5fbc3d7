/**
  The three-way merge of a Deployment's labels and annotations: what other tools wrote, what the PolicyServer spec named
  the last time, and what it names now. The controller remembers the names of its last write in a tracking annotation,
  and when annotations are merged that annotation lives in the very map that is being merged.
 */
module ManagedKeys {
  import opened Collections
  import opened Text

  type Entries = map<string, string>

  const ANNOTATION_KEYS := "kubewarden.io/managed-annotation-keys"
  const LABEL_KEYS := "kubewarden.io/managed-label-keys"
  const CONFIG_VERSION := "kubewarden/config-version"

  // ---- the merge on values ----

  /** The keys that the tracking annotation lists. */
  ghost function Recorded(annotations: Entries, trackingKey: string): set<string> {
    if trackingKey in annotations && annotations[trackingKey] != "" then
      set key | key in Split(',', annotations[trackingKey])
    else {}
  }

  ghost function Merge(existing: Entries, recorded: set<string>, desired: Entries): Entries {
    (existing - (recorded - desired.Keys)) + desired
  }

  ghost predicate Lists(order: seq<string>, desired: Entries) {
    NoDuplicates(order) && forall key :: key in order <==> key in desired
  }

  /** The tracking annotation names the desired keys, in some order; with none, it is gone. */
  ghost predicate Tracks(before: Entries, trackingKey: string, desired: Entries, after: Entries) {
    if desired == map[] then after == before - {trackingKey}
    else exists order :: order != [] && Lists(order, desired) && after == before[trackingKey := Join(',', order)]
  }

  lemma TracksNothing(before: Entries, trackingKey: string)
    ensures Tracks(before, trackingKey, map[], before - {trackingKey})
  {
  }

  lemma TracksOrder(before: Entries, trackingKey: string, desired: Entries, order: seq<string>)
    requires order != [] && NoDuplicates(order) && forall key :: key in order <==> key in desired
    ensures Tracks(before, trackingKey, desired, before[trackingKey := Join(',', order)])
  {
    hide Join;
    assert Lists(order, desired);
    assert order[0] in desired;
  }

  class StringMap {
    var entries: Entries

    constructor ()
      ensures entries == map[]
    {
      entries := map[];
    }
  }

  method RemoveStale(existing: StringMap, previous: string, desired: Entries)
    modifies existing
    ensures existing.entries == old(existing.entries) - ((set key | key in Split(',', previous)) - desired.Keys)
  {
    var keys := Split(',', previous);
    for i := 0 to |keys|
      invariant existing.entries == old(existing.entries) - ((set key | key in keys[..i]) - desired.Keys)
    {
      assert keys[..i + 1] == keys[..i] + [keys[i]];
      if keys[i] !in desired {
        existing.entries := existing.entries - {keys[i]};
      }
    }
    assert keys[..|keys|] == keys;
  }

  method ApplyDesired(existing: StringMap, desired: Entries)
    modifies existing
    ensures existing.entries == old(existing.entries) + desired
  {
    var order := Enumerate(desired.Keys);
    for i := 0 to |order|
      invariant forall key :: key in existing.entries <==> key in old(existing.entries) || key in order[..i]
      invariant forall key :: key in existing.entries ==>
                  existing.entries[key] == if key in order[..i] then desired[key] else old(existing.entries)[key]
    {
      assert order[..i + 1] == order[..i] + [order[i]];
      existing.entries := existing.entries[order[i] := desired[order[i]]];
    }
    assert order[..|order|] == order;
  }

  /** Correct whether or not the merged map and the tracking map are one object. */
  method ApplyManagedKeys(existing: StringMap, desired: Entries, tracking: StringMap, trackingKey: string)
    modifies existing, tracking
    ensures var merged := Merge(old(existing.entries), Recorded(old(tracking.entries), trackingKey), desired);
            if existing == tracking then Tracks(merged, trackingKey, desired, tracking.entries)
            else existing.entries == merged && Tracks(old(tracking.entries), trackingKey, desired, tracking.entries)
  {
    hide Split, Join, Tracks, Lists;
    if trackingKey in tracking.entries {
      var previous := tracking.entries[trackingKey];
      if previous != "" {
        RemoveStale(existing, previous, desired);
      }
    }
    assert existing.entries ==
           old(existing.entries) - (Recorded(old(tracking.entries), trackingKey) - desired.Keys);
    ApplyDesired(existing, desired);
    ghost var before := tracking.entries;
    if |desired| == 0 {
      TracksNothing(before, trackingKey);
      tracking.entries := tracking.entries - {trackingKey};
    } else {
      var order := Enumerate(desired.Keys);
      assert order != [] by { var key :| key in desired; assert key in order; }
      TracksOrder(before, trackingKey, desired, order);
      tracking.entries := tracking.entries[trackingKey := Join(',', order)];
    }
  }

  // ---- the Deployment ----

  datatype Spec = Spec(name: string, annotations: Entries, labels: Entries, version: string)

  datatype Metadata = Metadata(annotations: Entries, labels: Entries)

  function SystemLabels(name: string): Entries {
    map["kubewarden/policy-server" := name,
        "app.kubernetes.io/component" := "policy-server",
        "app.kubernetes.io/instance" := "policy-server-" + name,
        "app.kubernetes.io/part-of" := "kubewarden",
        "app.kubernetes.io/managed-by" := "kubewarden-controller"]
  }

  /** What one reconcile makes of the metadata, with `middle` the annotations between the two merges. */
  ghost predicate ConfiguredVia(before: Metadata, spec: Spec, middle: Entries, after: Metadata) {
    && Tracks(Merge(before.annotations, Recorded(before.annotations, ANNOTATION_KEYS), spec.annotations),
              ANNOTATION_KEYS, spec.annotations, middle)
    && var versioned := middle[CONFIG_VERSION := spec.version];
       && after.labels == Merge(before.labels, Recorded(versioned, LABEL_KEYS), spec.labels) + SystemLabels(spec.name)
       && Tracks(versioned, LABEL_KEYS, spec.labels, after.annotations)
  }

  ghost predicate Configured(before: Metadata, spec: Spec, after: Metadata) {
    exists middle :: ConfiguredVia(before, spec, middle, after)
  }

  /** What the system puts on the Deployment of a policy server, whatever the spec says: its five labels, the version of
      the configuration, and the two tracking annotations exactly when there is something to track. */
  ghost predicate ShowsSystem(spec: Spec, m: Metadata) {
    && HasEntry(m.labels, "kubewarden/policy-server", spec.name)
    && HasEntry(m.labels, "app.kubernetes.io/component", "policy-server")
    && HasEntry(m.labels, "app.kubernetes.io/instance", "policy-server-" + spec.name)
    && HasEntry(m.labels, "app.kubernetes.io/part-of", "kubewarden")
    && HasEntry(m.labels, "app.kubernetes.io/managed-by", "kubewarden-controller")
    && HasEntry(m.annotations, "kubewarden/config-version", spec.version)
    && ("kubewarden.io/managed-annotation-keys" in m.annotations <==> spec.annotations != map[])
    && ("kubewarden.io/managed-label-keys" in m.annotations <==> spec.labels != map[])
  }

  ghost predicate HasEntry(entries: Entries, key: string, value: string) {
    key in entries && entries[key] == value
  }

  lemma SystemLabelsShow(name: string, labels: Entries)
    ensures var all := labels + SystemLabels(name);
            && HasEntry(all, "kubewarden/policy-server", name)
            && HasEntry(all, "app.kubernetes.io/component", "policy-server")
            && HasEntry(all, "app.kubernetes.io/instance", "policy-server-" + name)
            && HasEntry(all, "app.kubernetes.io/part-of", "kubewarden")
            && HasEntry(all, "app.kubernetes.io/managed-by", "kubewarden-controller")
  {
    DifferentLabels();
  }

  lemma DifferentLabels()
    ensures var a, b, c, d, e := "kubewarden/policy-server", "app.kubernetes.io/component",
            "app.kubernetes.io/instance",
                                 "app.kubernetes.io/part-of", "app.kubernetes.io/managed-by";
            a != b && a != c && a != d && a != e && b != c && b != d && b != e && c != d && c != e && d != e
  {
    assert "kubewarden/policy-server"[0] == 'k' && "app.kubernetes.io/component"[18] == 'c';
    assert "app.kubernetes.io/instance"[18] == 'i' && "app.kubernetes.io/part-of"[18] == 'p';
    assert "app.kubernetes.io/managed-by"[18] == 'm' && "app.kubernetes.io/component"[0] == 'a';
    assert "app.kubernetes.io/instance"[0] == "app.kubernetes.io/part-of"[0] == "app.kubernetes.io/managed-by"[0] ==
           'a';
  }

  lemma ConfiguredShows(before: Metadata, spec: Spec, middle: Entries, after: Metadata)
    requires ConfiguredVia(before, spec, middle, after)
    ensures ShowsSystem(spec, after)
  {
    hide Merge, Recorded, SystemLabels, Join;
    BookkeepingKeys();
    var versioned := middle[CONFIG_VERSION := spec.version];
    SystemLabelsShow(spec.name, Merge(before.labels, Recorded(versioned, LABEL_KEYS), spec.labels));
    assert HasEntry(versioned, "kubewarden/config-version", spec.version);
  }

  class Deployment {
    var annotations: StringMap?
    var labels: StringMap?

    ghost predicate Separate()
      reads this
    {
      annotations != null ==> annotations != labels
    }

    /** A nil map reads as an empty one. */
    ghost function Value(): Metadata
      reads this, annotations, labels
    {
      Metadata(if annotations == null then map[] else annotations.entries,
               if labels == null then map[] else labels.entries)
    }

    method ConfigureLabelsAndAnnotations(spec: Spec)
      requires Separate()
      modifies this, annotations, labels
      ensures Separate()
      ensures Configured(old(Value()), spec, Value()) && ShowsSystem(spec, Value())
    {
      hide Merge, Recorded, Tracks, SystemLabels, ShowsSystem;
      if annotations == null {
        annotations := new StringMap();
      }
      ApplyManagedKeys(annotations, spec.annotations, annotations, ANNOTATION_KEYS);
      ghost var middle := annotations.entries;
      annotations.entries := annotations.entries[CONFIG_VERSION := spec.version];
      if labels == null {
        labels := new StringMap();
      }
      ApplyManagedKeys(labels, spec.labels, annotations, LABEL_KEYS);
      ApplyDesired(labels, SystemLabels(spec.name));
      assert ConfiguredVia(old(Value()), spec, middle, Value());
      ConfiguredShows(old(Value()), spec, middle, Value());
    }
  }

  // ---- runs ----

  /** A reconcile of some version of the spec, or a write by another tool. */
  datatype Step =
    | Reconcile(spec: Spec)
    | Annotate(key: string, value: string)
    | RemoveAnnotation(key: string)
    | Label(key: string, value: string)
    | RemoveLabel(key: string)

  ghost predicate Next(before: Metadata, step: Step, after: Metadata) {
    match step
    case Reconcile(spec) => Configured(before, spec, after)
    case Annotate(key, value) => after == before.(annotations := before.annotations[key := value])
    case RemoveAnnotation(key) => after == before.(annotations := before.annotations - {key})
    case Label(key, value) => after == before.(labels := before.labels[key := value])
    case RemoveLabel(key) => after == before.(labels := before.labels - {key})
  }

  /** The keys that specs may name: those of annotations and those of labels. */
  datatype Ownership = Ownership(annotations: set<string>, labels: set<string>)

  predicate UsableKey(key: string) {
    key != "" && ',' !in key
  }

  ghost predicate ForeignAnnotation(own: Ownership, key: string) {
    key !in own.annotations && key != ANNOTATION_KEYS && key != LABEL_KEYS && key != CONFIG_VERSION
  }

  ghost predicate ForeignLabel(own: Ownership, key: string) {
    key !in own.labels && forall name :: key !in SystemLabels(name)
  }

  ghost predicate GoodSpec(own: Ownership, spec: Spec) {
    && (forall key :: key in spec.annotations ==>
          key in own.annotations && UsableKey(key) && key != ANNOTATION_KEYS && key != LABEL_KEYS)
    && (forall key :: key in spec.labels ==> key in own.labels && UsableKey(key))
  }

  /** Specs stay within their keys and other tools outside of them. */
  ghost predicate Respects(own: Ownership, step: Step) {
    match step
    case Reconcile(spec) => GoodSpec(own, spec)
    case Annotate(key, _) => ForeignAnnotation(own, key)
    case RemoveAnnotation(key) => ForeignAnnotation(own, key)
    case Label(key, _) => ForeignLabel(own, key)
    case RemoveLabel(key) => ForeignLabel(own, key)
  }

  ghost predicate IsForeign(own: Ownership, m: Metadata) {
    && (forall key :: key in m.annotations ==> ForeignAnnotation(own, key))
    && (forall key :: key in m.labels ==> ForeignLabel(own, key))
  }

  /** What the other tools alone would have made of the metadata. */
  ghost function Others(initial: Metadata, steps: seq<Step>): Metadata {
    if steps == [] then initial
    else
      var before := Others(initial, steps[..|steps| - 1]);
      match steps[|steps| - 1]
      case Reconcile(_) => before
      case Annotate(key, value) => before.(annotations := before.annotations[key := value])
      case RemoveAnnotation(key) => before.(annotations := before.annotations - {key})
      case Label(key, value) => before.(labels := before.labels[key := value])
      case RemoveLabel(key) => before.(labels := before.labels - {key})
  }

  /** What the last reconcile wants: the entries of its spec, overridden by the system's own. */
  ghost function Wanted(steps: seq<Step>): Metadata {
    if steps == [] then Metadata(map[], map[])
    else
      match steps[|steps| - 1]
      case Reconcile(spec) =>
        Metadata(spec.annotations + map[CONFIG_VERSION := spec.version], spec.labels + SystemLabels(spec.name))
      case _ => Wanted(steps[..|steps| - 1])
  }

  ghost function Named(steps: seq<Step>): Ownership {
    if steps == [] then Ownership({}, {})
    else
      match steps[|steps| - 1]
      case Reconcile(spec) => Ownership(spec.annotations.Keys, spec.labels.Keys)
      case _ => Named(steps[..|steps| - 1])
  }

  ghost predicate IsRun(own: Ownership, run: seq<Metadata>, steps: seq<Step>) {
    && |run| == |steps| + 1
    && IsForeign(own, run[0])
    && (forall i {:trigger steps[i]} :: 0 <= i < |steps| ==>
          Respects(own, steps[i]) && Next(run[i], steps[i], run[i + 1]))
  }

  /** The annotations that are not the controller's own bookkeeping. */
  ghost function Visible(annotations: Entries): Entries {
    annotations - {ANNOTATION_KEYS, LABEL_KEYS}
  }

  /** The metadata holds the others' entries and the wanted ones, and the tracking annotations name the last spec's
      keys. */
  ghost predicate Settled(others: Metadata, wanted: Metadata, named: Ownership, m: Metadata) {
    && Visible(m.annotations) == others.annotations + wanted.annotations
    && m.labels == others.labels + wanted.labels
    && Recorded(m.annotations, ANNOTATION_KEYS) == named.annotations
    && Recorded(m.annotations, LABEL_KEYS) == named.labels
  }

  lemma {:induction false} JoinNonempty(order: seq<string>)
    requires order != [] && order[0] != ""
    ensures Join(',', order) != ""
  {
  }

  /** The join and split round trip: the next reconcile reads back exactly the keys this one wrote. */
  lemma RecordedBack(before: Entries, trackingKey: string, desired: Entries, after: Entries)
    requires Tracks(before, trackingKey, desired, after) && forall key :: key in desired ==> UsableKey(key)
    ensures Recorded(after, trackingKey) == desired.Keys
    ensures after - {trackingKey} == before - {trackingKey}
    ensures forall key :: key != trackingKey ==>
              (key in after <==> key in before) && (key in after ==> after[key] == before[key])
  {
    hide Split, Join;
    if desired != map[] {
      var order :| order != [] && Lists(order, desired) && after == before[trackingKey := Join(',', order)];
      assert forall i :: 0 <= i < |order| ==> order[i] in desired;
      SplitJoin(',', order);
      JoinNonempty(order);
    }
  }

  ghost predicate SameAt(a: Entries, b: Entries, key: string) {
    (key in a <==> key in b) && (key in a ==> a[key] == b[key])
  }

  lemma SameEverywhere(a: Entries, b: Entries)
    requires forall key :: SameAt(a, b, key)
    ensures a == b
  {
    assert forall key :: SameAt(a, b, key) ==> (key in a <==> key in b);
    assert forall key :: SameAt(a, b, key) && key in a ==> a[key] == b[key];
  }

  ghost predicate Replaces(existing: Entries, others: Entries, previous: Entries, named: set<string>, system: Entries,
                           desired: Entries) {
    && existing == others + previous
    && named <= previous.Keys && previous.Keys <= named + system.Keys
    && others.Keys !! previous.Keys && others.Keys !! desired.Keys && others.Keys !! system.Keys
  }

  lemma MergeAt(existing: Entries, others: Entries, previous: Entries, named: set<string>, system: Entries,
                desired: Entries, key: string)
    requires Replaces(existing, others, previous, named, system, desired)
    ensures SameAt(Merge(existing, named, desired) + system, others + (desired + system), key)
  {
    if key in others { assert key !in previous && key !in named && key !in desired && key !in system; }
    else if key in previous { assert key in named || key in system; }
  }

  /** One merge replaces the old spec's entries by the new one's and keeps everyone else's. */
  lemma MergeReplaces(existing: Entries, others: Entries, previous: Entries, named: set<string>, system: Entries,
                      desired: Entries)
    requires Replaces(existing, others, previous, named, system, desired)
    ensures Merge(existing, named, desired) + system == others + (desired + system)
  {
    hide Replaces, Merge, SameAt;
    forall key ensures SameAt(Merge(existing, named, desired) + system, others + (desired + system), key) {
      MergeAt(existing, others, previous, named, system, desired, key);
    }
    SameEverywhere(Merge(existing, named, desired) + system, others + (desired + system));
  }

  lemma SystemKeys(name: string, name': string)
    ensures SystemLabels(name).Keys == SystemLabels(name').Keys
  {
  }

  lemma BookkeepingKeys()
    ensures ANNOTATION_KEYS != LABEL_KEYS && ANNOTATION_KEYS != CONFIG_VERSION && LABEL_KEYS != CONFIG_VERSION
  {
    assert ANNOTATION_KEYS[22] != LABEL_KEYS[22] && ANNOTATION_KEYS[10] != CONFIG_VERSION[10] &&
           LABEL_KEYS[10] != CONFIG_VERSION[10];
  }

  ghost predicate NoBookkeeping(entries: set<string>) {
    ANNOTATION_KEYS !in entries && LABEL_KEYS !in entries
  }

  lemma VisibleMerge(annotations: Entries, named: set<string>, desired: Entries)
    requires NoBookkeeping(named) && NoBookkeeping(desired.Keys)
    ensures Visible(Merge(annotations, named, desired)) == Merge(Visible(annotations), named, desired)
    ensures forall key | key in {ANNOTATION_KEYS, LABEL_KEYS} ::
              var merged := Merge(annotations, named, desired);
              (key in merged <==> key in annotations) && (key in merged ==> merged[key] == annotations[key])
  {
    var merged, kept := Visible(Merge(annotations, named, desired)), Merge(Visible(annotations), named, desired);
    assert forall key :: key in merged <==> key in kept;
    assert forall key :: key in merged ==> merged[key] == kept[key];
  }

  /** The keys of the last write: those its spec named, and the system's. */
  ghost predicate Consistent(own: Ownership, others: Metadata, wanted: Metadata, named: Ownership) {
    && IsForeign(own, others)
    && named.annotations <= own.annotations && NoBookkeeping(named.annotations)
    && named.annotations <= wanted.annotations.Keys <= named.annotations + {CONFIG_VERSION}
    && named.labels <= own.labels
    && named.labels <= wanted.labels.Keys <= named.labels + SystemLabels("").Keys
  }

  lemma RecordedSame(a: Entries, b: Entries, key: string)
    requires SameAt(a, b, key)
    ensures Recorded(a, key) == Recorded(b, key)
  {
  }

  lemma VisibleVersion(merged: Entries, middle: Entries, version: string)
    requires middle - {ANNOTATION_KEYS} == merged - {ANNOTATION_KEYS}
    requires CONFIG_VERSION != ANNOTATION_KEYS && CONFIG_VERSION != LABEL_KEYS
    ensures Visible(middle[CONFIG_VERSION := version]) == Visible(merged) + map[CONFIG_VERSION := version]
  {
    assert Visible(middle) == (middle - {ANNOTATION_KEYS}) - {LABEL_KEYS};
    assert Visible(merged) == (merged - {ANNOTATION_KEYS}) - {LABEL_KEYS};
  }

  lemma AnnotationsSettle(own: Ownership, others: Metadata, wanted: Metadata, named: Ownership, annotations: Entries,
                          spec: Spec, middle: Entries)
    requires Consistent(own, others, wanted, named) && GoodSpec(own, spec)
    requires Visible(annotations) == others.annotations + wanted.annotations
    requires Tracks(Merge(annotations, named.annotations, spec.annotations), ANNOTATION_KEYS, spec.annotations, middle)
    ensures var versioned := middle[CONFIG_VERSION := spec.version];
            && Visible(versioned) == others.annotations + (spec.annotations + map[CONFIG_VERSION := spec.version])
            && Recorded(versioned, ANNOTATION_KEYS) == spec.annotations.Keys
            && Recorded(versioned, LABEL_KEYS) == Recorded(annotations, LABEL_KEYS)
  {
    hide Merge, Tracks, Recorded, SystemLabels;
    BookkeepingKeys();
    var system := map[CONFIG_VERSION := spec.version];
    var merged := Merge(annotations, named.annotations, spec.annotations);
    var versioned := middle[CONFIG_VERSION := spec.version];
    RecordedBack(merged, ANNOTATION_KEYS, spec.annotations, middle);
    VisibleMerge(annotations, named.annotations, spec.annotations);
    assert LABEL_KEYS in {ANNOTATION_KEYS, LABEL_KEYS};
    RecordedSame(versioned, middle, ANNOTATION_KEYS);
    RecordedSame(versioned, annotations, LABEL_KEYS);
    VisibleVersion(merged, middle, spec.version);
    hide Visible;
    MergeReplaces(Visible(annotations), others.annotations, wanted.annotations, named.annotations, system,
                  spec.annotations);
  }

  lemma ReconcileSettles(own: Ownership, others: Metadata, wanted: Metadata, named: Ownership, before: Metadata,
                         spec: Spec, after: Metadata)
    requires Consistent(own, others, wanted, named) && GoodSpec(own, spec)
    requires Settled(others, wanted, named, before)
    requires Configured(before, spec, after)
    ensures Settled(others, Metadata(spec.annotations + map[CONFIG_VERSION := spec.version],
                                     spec.labels + SystemLabels(spec.name)),
                    Ownership(spec.annotations.Keys, spec.labels.Keys), after)
  {
    hide Merge, Tracks, Recorded, SystemLabels;
    BookkeepingKeys();
    var middle :| ConfiguredVia(before, spec, middle, after);
    var versioned := middle[CONFIG_VERSION := spec.version];
    AnnotationsSettle(own, others, wanted, named, before.annotations, spec, middle);
    RecordedBack(versioned, LABEL_KEYS, spec.labels, after.annotations);
    RecordedSame(after.annotations, versioned, ANNOTATION_KEYS);
    assert Visible(after.annotations) == Visible(versioned);
    SystemKeys(spec.name, "");
    MergeReplaces(before.labels, others.labels, wanted.labels, named.labels, SystemLabels(spec.name), spec.labels);
  }

  /** A write by another tool changes the others' entries and nothing else. */
  lemma ForeignSettles(own: Ownership, others: Metadata, others': Metadata, wanted: Metadata, named: Ownership,
                       before: Metadata, step: Step, after: Metadata)
    requires Consistent(own, others, wanted, named) && Settled(others, wanted, named, before)
    requires !step.Reconcile? && Respects(own, step) && Next(before, step, after) && Next(others, step, others')
    ensures IsForeign(own, others') && Settled(others', wanted, named, after)
  {
    hide *;
    if step.Annotate? || step.RemoveAnnotation? {
      ForeignAnnotationSettles(own, others, others', wanted, named, before, step, after);
    } else {
      ForeignLabelSettles(own, others, others', wanted, named, before, step, after);
    }
  }

  lemma ForeignAnnotationSettles(own: Ownership, others: Metadata, others': Metadata, wanted: Metadata,
                                 named: Ownership, before: Metadata, step: Step, after: Metadata)
    requires Consistent(own, others, wanted, named) && Settled(others, wanted, named, before)
    requires (step.Annotate? || step.RemoveAnnotation?) && Respects(own, step)
    requires Next(before, step, after) && Next(others, step, others')
    ensures IsForeign(own, others') && Settled(others', wanted, named, after)
  {
    hide Recorded, SystemLabels, Visible, ForeignLabel, Configured;
    var value := if step.Annotate? then step.value else "";
    assert step.key !in wanted.annotations;
    WriteBeside(others.annotations, wanted.annotations, step.key, value);
    VisibleWrite(before.annotations, step.key, value);
    RecordedSame(after.annotations, before.annotations, ANNOTATION_KEYS);
    RecordedSame(after.annotations, before.annotations, LABEL_KEYS);
  }

  lemma ForeignLabelSettles(own: Ownership, others: Metadata, others': Metadata, wanted: Metadata, named: Ownership,
                            before: Metadata, step: Step, after: Metadata)
    requires Consistent(own, others, wanted, named) && Settled(others, wanted, named, before)
    requires (step.Label? || step.RemoveLabel?) && Respects(own, step)
    requires Next(before, step, after) && Next(others, step, others')
    ensures IsForeign(own, others') && Settled(others', wanted, named, after)
  {
    SystemKeysForeign(own);
    hide Recorded, SystemLabels, Visible, ForeignAnnotation, ForeignLabel, Configured;
    WriteBeside(others.labels, wanted.labels, step.key, if step.Label? then step.value else "");
  }

  lemma WriteBeside(others: Entries, wanted: Entries, key: string, value: string)
    requires key !in wanted
    ensures (others + wanted)[key := value] == others[key := value] + wanted
    ensures (others + wanted) - {key} == (others - {key}) + wanted
  {
  }

  lemma VisibleWrite(annotations: Entries, key: string, value: string)
    requires key != ANNOTATION_KEYS && key != LABEL_KEYS
    ensures Visible(annotations[key := value]) == Visible(annotations)[key := value]
    ensures Visible(annotations - {key}) == Visible(annotations) - {key}
  {
  }

  lemma SystemKeysForeign(own: Ownership)
    ensures forall key :: ForeignLabel(own, key) ==> key !in SystemLabels("") && key !in own.labels
  {
  }

  /** Every reachable state is settled. */
  lemma {:induction false} RunSettles(own: Ownership, run: seq<Metadata>, steps: seq<Step>)
    requires IsRun(own, run, steps)
    ensures Consistent(own, Others(run[0], steps), Wanted(steps), Named(steps))
    ensures Settled(Others(run[0], steps), Wanted(steps), Named(steps), run[|steps|])
    decreases |steps|
  {
    hide Recorded, SystemLabels, Configured, Settled;
    if steps == [] {
      FreshSettled(own, run[0]);
    } else {
      var n := |steps| - 1;
      RunSettles(own, run[..n + 1], steps[..n]);
      var others := Others(run[0], steps[..n]);
      assert steps[n] == steps[|steps| - 1];
      assert run[..n + 1][n] == run[n];
      if steps[n].Reconcile? {
        ReconcileSettles(own, others, Wanted(steps[..n]), Named(steps[..n]), run[n], steps[n].spec, run[n + 1]);
        SystemKeys(steps[n].spec.name, "");
      } else {
        ForeignSettles(own, others, Others(run[0], steps), Wanted(steps), Named(steps), run[n], steps[n], run[n + 1]);
      }
    }
  }

  lemma FreshSettled(own: Ownership, m: Metadata)
    requires IsForeign(own, m)
    ensures Settled(m, Metadata(map[], map[]), Ownership({}, {}), m)
  {
    hide SystemLabels;
  }

  /**
    In every run, whatever specs came before, the Deployment shows what the other tools wrote and what the last spec and
    the system want, and nothing else; removing a key from the spec removes it from the Deployment.
   */
  lemma ManagedKeyRuns(own: Ownership, run: seq<Metadata>, steps: seq<Step>)
    requires IsRun(own, run, steps)
    ensures Visible(run[|steps|].annotations) == Others(run[0], steps).annotations + Wanted(steps).annotations
    ensures run[|steps|].labels == Others(run[0], steps).labels + Wanted(steps).labels
    ensures Others(run[0], steps).annotations.Keys !! Wanted(steps).annotations.Keys
    ensures Others(run[0], steps).labels.Keys !! Wanted(steps).labels.Keys
  {
    hide Recorded, SystemLabels, IsRun, Others, Wanted, Named;
    assert |run| == |steps| + 1 by { RunLength(own, run, steps); }
    RunSettles(own, run, steps);
    SystemKeysForeign(own);
  }

  lemma RunLength(own: Ownership, run: seq<Metadata>, steps: seq<Step>)
    requires IsRun(own, run, steps)
    ensures |run| == |steps| + 1
  {
  }
}
