/**
  The CA rotation protocol as a state machine over single API calls.

  One pass of the cert controller runs at a time (leader election) and may stop after any call. Policy reconcilers,
  PolicyServer reconcilers and init containers are workers: they read the CA root Secret and a webhook configuration
  in separate steps, and write later. A write carries the resource version it read and fails if the object changed.
 */
module RotationProtocol {
  import opened Options
  import opened Certs
  import opened WebhookConfigs

  datatype ConfigKey = ControllerConfig(kind: Kind) | PolicyConfig(kind: Kind, uniqueName: string)

  datatype Listed = Listed(key: ConfigKey, config: Config)

  /** Where the running pass is. `mem` is the CA root Secret that the pass holds in memory. */
  datatype Pass =
    | Idle
    | Ensured(mem: CASecret)
    | Rotating(mem: CASecret, renewed: CACert)
    | Rotated(mem: CASecret)
    | Pruned(mem: CASecret)
    | ListedValidating(mem: CASecret, work: seq<Listed>)
    | Injecting(mem: CASecret, work: seq<Listed>)
    | Signing(mem: CASecret)

  /** What a reconciler or an init container has read so far. `seen` is None when the configuration was not found. */
  datatype Worker = Worker(secret: Option<CASecret>, key: Option<ConfigKey>, seen: Option<Config>)

  /** `issued` records every CA root that was ever stored; nothing reads it. */
  datatype State = State(
    now: int,
    nextSerial: nat,
    nextRv: nat,
    webhookService: string,
    ca: Option<CASecret>,
    issued: set<CACert>,
    configs: map<ConfigKey, Config>,
    leaves: map<string, Leaf>,
    pass: Pass,
    workers: map<nat, Worker>)

  datatype Step =
    | Tick(seconds: nat)
    // the cert controller
    | EnsureCA
    | PassStart
    | PassCheckRoot
    | PassStoreRoot
    | PassPrune
    | PassListValidating(order: seq<ConfigKey>)
    | PassListMutating(order: seq<ConfigKey>)
    | PassInject
    | PassTrusted
    | PassSign(service: string)
    | PassStop
    // policy reconcilers, PolicyServer reconcilers and init containers
    | ReadSecret(worker: nat)
    | ReadConfig(worker: nat, key: ConfigKey)
    | WritePolicy(worker: nat, service: string)
    | WriteController(worker: nat, template: seq<string>)
    | DeleteConfig(key: ConfigKey)
    | CreateServerCert(worker: nat, service: string)
    | RegenerateServerCert(worker: nat, service: string)

  // ---- guards ----

  predicate ListsKind(s: State, kind: Kind, order: seq<ConfigKey>) {
    && (forall k :: k in order ==> k in s.configs && k.kind == kind && s.configs[k].labelled)
    && (forall k :: k in s.configs && k.kind == kind && s.configs[k].labelled ==> k in order)
  }

  predicate HasSecret(s: State, w: nat) {
    w in s.workers && s.workers[w].secret.Some?
  }

  predicate ReadyToWrite(s: State, w: nat) {
    HasSecret(s, w) && s.workers[w].key.Some?
  }

  predicate Enabled(s: State, step: Step) {
    match step
    case Tick(_) => true
    case EnsureCA => true
    case PassStart => s.pass.Idle? && s.ca.Some?
    case PassCheckRoot => s.pass.Ensured?
    case PassStoreRoot => s.pass.Rotating?
    case PassPrune => s.pass.Rotated?
    case PassListValidating(order) => s.pass.Pruned? && ListsKind(s, Validating, order)
    case PassListMutating(order) => s.pass.ListedValidating? && ListsKind(s, Mutating, order)
    case PassInject => s.pass.Injecting? && s.pass.work != []
    case PassTrusted => s.pass.Injecting? && s.pass.work == []
    case PassSign(_) => s.pass.Signing?
    case PassStop => true
    case ReadSecret(w) => s.ca.Some?
    case ReadConfig(w, key) => HasSecret(s, w)
    // A policy gets its webhook when the pods of its server are ready, so the Secret they mount exists; the server
    // of a policy is immutable, so a live webhook already calls the same Service.
    case WritePolicy(w, service) =>
      && ReadyToWrite(s, w) && s.workers[w].key.value.PolicyConfig? && service in s.leaves
      && (s.workers[w].seen.Some? ==> forall e :: e in s.workers[w].seen.value.entries ==> e.service == service)
    // The init container makes sure that the certificate of the webhook server exists first.
    case WriteController(w, template) =>
      && ReadyToWrite(s, w) && s.workers[w].key.value.ControllerConfig?
      && s.webhookService in s.leaves && Distinct(template)
    case DeleteConfig(key) => true
    case CreateServerCert(w, service) => HasSecret(s, w) && service !in s.leaves
    // A PolicyServer reconciler replaces a certificate whose Secret lacks the current format version.
    case RegenerateServerCert(w, service) => HasSecret(s, w) && service in s.leaves && service != s.webhookService
  }

  // ---- effects ----

  function PutConfig(s: State, key: ConfigKey, labelled: bool, entries: seq<Entry>): State {
    s.(configs := s.configs[key := Config(s.nextRv, labelled, entries)], nextRv := s.nextRv + 1)
  }

  /** controllerutil.CreateOrUpdate, second half: a create fails if the object exists, an update if it changed. */
  predicate Accepted(s: State, w: nat)
    requires ReadyToWrite(s, w)
  {
    var Worker(_, Some(key), seen) := s.workers[w];
    (seen.None? && key !in s.configs) || (seen.Some? && key in s.configs && s.configs[key].rv == seen.value.rv)
  }

  function WriteIfUnchanged(s: State, w: nat, entries: seq<Entry>): State
    requires ReadyToWrite(s, w)
  {
    if Accepted(s, w) then PutConfig(s, s.workers[w].key.value, true, entries) else s
  }

  function SeenEntries(s: State, w: nat): seq<Entry>
    requires w in s.workers
  {
    if s.workers[w].seen.Some? then s.workers[w].seen.value.entries else []
  }

  function ListWork(s: State, order: seq<ConfigKey>): (work: seq<Listed>)
    requires forall k :: k in order ==> k in s.configs
    ensures forall l :: l in work ==> l.key in order && l.config == s.configs[l.key]
    ensures forall k :: k in order ==> Listed(k, s.configs[k]) in work
  {
    if order == [] then []
    else [Listed(order[0], s.configs[order[0]])] + ListWork(s, order[1..])
  }

  function DoInject(s: State): State
    requires s.pass.Injecting? && s.pass.work != []
  {
    var item, rest := s.pass.work[0], s.pass.work[1..];
    var bundle := CABundle(s.pass.mem);
    var next := s.(pass := Injecting(s.pass.mem, rest));
    if UpToDate(item.config.entries, bundle) || item.key !in s.configs then next
    else if s.configs[item.key].rv != item.config.rv then s.(pass := Idle)
    else PutConfig(next, item.key, item.config.labelled, InjectEntries(item.config.entries, bundle))
  }

  function SetLeaf(s: State, service: string, ca: CACert): State {
    s.(leaves := s.leaves[service := GenerateLeaf(ca, s.nextSerial, s.now, service)], nextSerial := s.nextSerial + 1)
  }

  function DoSign(s: State, service: string): State
    requires s.pass.Signing?
  {
    if service in s.leaves && VerifyLeaf(s.leaves[service], [s.pass.mem.cert], service, s.now + LOOKAHEAD) then s
    else SetLeaf(s, service, s.pass.mem.cert)
  }

  function Do(s: State, step: Step): State
    requires Enabled(s, step)
  {
    match step
    case Tick(d) => s.(now := s.now + d)
    case EnsureCA =>
      if s.ca.Some? then s
      else
        var root := GenerateCA(s.nextSerial, s.now);
        s.(ca := Some(CASecret(root, PrivateKey(root.serial, true), None)),
           issued := s.issued + {root}, nextSerial := s.nextSerial + 1)
    case PassStart => s.(pass := Ensured(s.ca.value))
    case PassCheckRoot =>
      if MustRotate(s.pass.mem, s.now)
      then s.(pass := Rotating(s.pass.mem, GenerateCA(s.nextSerial, s.now)), nextSerial := s.nextSerial + 1)
      else s.(pass := Rotated(s.pass.mem))
    case PassStoreRoot =>
      var secret := Rotate(s.pass.mem, s.pass.renewed);
      s.(ca := Some(secret), issued := s.issued + {s.pass.renewed}, pass := Rotated(secret))
    case PassPrune =>
      if MustDropOld(s.pass.mem, s.now)
      then s.(ca := Some(DropOld(s.pass.mem)), pass := Pruned(DropOld(s.pass.mem)))
      else s.(pass := Pruned(s.pass.mem))
    case PassListValidating(order) => s.(pass := ListedValidating(s.pass.mem, ListWork(s, order)))
    case PassListMutating(order) => s.(pass := Injecting(s.pass.mem, s.pass.work + ListWork(s, order)))
    case PassInject => DoInject(s)
    case PassTrusted => s.(pass := Signing(s.pass.mem))
    case PassSign(service) => DoSign(s, service)
    case PassStop => s.(pass := Idle)
    case ReadSecret(w) => s.(workers := s.workers[w := Worker(s.ca, None, None)])
    case ReadConfig(w, key) =>
      var seen := if key in s.configs then Some(s.configs[key]) else None;
      s.(workers := s.workers[w := Worker(s.workers[w].secret, Some(key), seen)])
    case WritePolicy(w, service) =>
      WriteIfUnchanged(s, w, PolicyEntries(s.workers[w].key.value.uniqueName, service, SeenEntries(s, w),
                                           s.workers[w].secret.value))
    case WriteController(w, template) =>
      WriteIfUnchanged(s, w, InitEntries(template, s.webhookService, SeenEntries(s, w), s.workers[w].secret.value))
    case DeleteConfig(key) => s.(configs := s.configs - {key})
    case CreateServerCert(w, service) => SetLeaf(s, service, s.workers[w].secret.value.cert)
    case RegenerateServerCert(w, service) => SetLeaf(s, service, s.workers[w].secret.value.cert)
  }

  /** A cluster before the first installation. */
  predicate Init(s: State) {
    s.ca.None? && s.issued == {} && s.configs == map[] && s.leaves == map[] && s.pass.Idle? && s.workers == map[]
  }

  ghost predicate IsRun(run: seq<State>, steps: seq<Step>) {
    && |run| == |steps| + 1
    && Init(run[0])
    && forall i {:trigger steps[i]} :: 0 <= i < |steps| ==>
         Enabled(run[i], steps[i]) && run[i + 1] == Do(run[i], steps[i])
  }

  // ---- what the protocol promises ----

  /** Every certificate whose chain still verifies is trusted by every webhook that calls its server. */
  ghost predicate NoTrustGap(s: State) {
    forall k, i :: k in s.configs && s.configs[k].labelled && 0 <= i < |s.configs[k].entries| ==>
      EntryTrustsServer(s, s.configs[k].entries[i])
  }

  ghost predicate EntryTrustsServer(s: State, e: Entry) {
    e.service in s.leaves && ChainValidAt(s.leaves[e.service], s.now) ==> s.leaves[e.service].issuer in e.caBundle
  }

  ghost predicate ConfigTrusts(config: Config, root: CACert) {
    forall i :: 0 <= i < |config.entries| ==> root in config.entries[i].caBundle
  }

  /** Every Kubewarden webhook configuration trusts this CA root. */
  ghost predicate AllTrust(s: State, root: CACert) {
    forall k :: k in s.configs && s.configs[k].labelled ==> ConfigTrusts(s.configs[k], root)
  }

  /** A worker writes a bundle from its copy of the Secret only when a webhook is new or has an empty bundle. */
  ghost predicate UsesSecret(s: State, step: Step)
    requires Enabled(s, step)
  {
    match step
    case WritePolicy(w, _) => LiveBundle(SeenEntries(s, w)) == []
    case WriteController(w, template) =>
      exists i :: 0 <= i < |template| && BundleNamed(SeenEntries(s, w), template[i]) == []
    case _ => false
  }

  /** The copy of the Secret that a new webhook is built from is not stale. A certificate is regenerated from such a
      copy only when every webhook trusts its root already. */
  ghost predicate FreshRead(s: State, step: Step)
    requires Enabled(s, step)
  {
    && (UsesSecret(s, step) || step.RegenerateServerCert? ==> s.workers[step.worker].secret == s.ca)
    && (step.RegenerateServerCert? ==> AllTrust(s, s.workers[step.worker].secret.value.cert))
  }

  // ---- when a write from a copy of the Secret is safe ----

  /** The running pass has listed this configuration and will replace its bundles, or stop because it changed. */
  ghost predicate Pending(work: seq<Listed>, key: ConfigKey, mem: CASecret) {
    exists l :: l in work && l.key == key && !UpToDate(l.config.entries, CABundle(mem))
  }

  /** The running pass will go on to sign without another look at the bundles of this configuration. */
  ghost predicate PassesBy(s: State, key: ConfigKey) {
    match s.pass
    case ListedValidating(mem, work) => key.kind == Validating && !Pending(work, key, mem)
    case Injecting(mem, work) => !Pending(work, key, mem)
    case Signing(_) => true
    case _ => false
  }

  function ServiceOf(s: State, step: Step): string
    requires step.WritePolicy? || step.WriteController? || step.RegenerateServerCert?
  {
    if step.WriteController? then s.webhookService else step.service
  }

  /** Every webhook that calls this server trusts the CA root. */
  ghost predicate CallersTrust(s: State, service: string, root: CACert) {
    forall k, i :: k in s.configs && s.configs[k].labelled && 0 <= i < |s.configs[k].entries| ==>
      s.configs[k].entries[i].service == service ==> root in s.configs[k].entries[i].caBundle
  }

  /**
    What a writer can check before it uses its copy of the Secret. For a bundle that it builds from it: the copy holds
    the CA root that issued the certificate of the server, if that chain verifies, and the CA root that the running pass
    is about to sign with, if the pass will not come back to this configuration. For a certificate that it regenerates
    with it: the webhooks that call the server trust the CA root of the copy, if it has not expired.
   */
  ghost predicate CreateSafe(s: State, step: Step)
    requires Enabled(s, step)
  {
    && (step.RegenerateServerCert? ==>
          var root := s.workers[step.worker].secret.value.cert;
          ValidAt(root, s.now) ==> CallersTrust(s, step.service, root))
    && (UsesSecret(s, step) && Accepted(s, step.worker) ==>
          var bundle := CABundle(s.workers[step.worker].secret.value);
          var leaf := s.leaves[ServiceOf(s, step)];
          && (ChainValidAt(leaf, s.now) ==> leaf.issuer in bundle)
          && (PassesBy(s, s.workers[step.worker].key.value) ==> s.pass.mem.cert in bundle))
  }
}
