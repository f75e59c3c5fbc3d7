/**
  Safety of the CA rotation protocol over whole runs.

  `BaseInv` holds in every run. `TrustInv` holds in every run in which webhooks are built and certificates regenerated
  from a copy of the CA root Secret that is safe to use at that moment; for webhooks a fresh copy always is. The length
  of the periods enters through `ClockInv` alone: two rotations are 10 years minus 60 days apart, so a CA root that
  leaves the Secret has expired.
 */
module RotationProof {
  import opened Options
  import opened Certs
  import opened WebhookConfigs
  import opened RotationProtocol

  // ---- the invariants ----

  ghost predicate ClockInv(s: State) {
    && (s.ca.None? ==> s.issued == {})
    && (s.ca.Some? ==>
          var secret := s.ca.value;
          && secret.cert in s.issued
          && KeyMatches(secret.cert.serial, secret.key)
          && secret.cert.notBefore <= s.now
          && secret.cert.notAfter == secret.cert.notBefore + CA_EXPIRATION
          && (secret.previous.Some? ==> secret.previous.value.notAfter < secret.cert.notBefore + LOOKAHEAD)
          && forall c :: c in s.issued && ValidAt(c, s.now) ==> c in CABundle(secret))
    && (forall c :: c in s.issued ==> c.notBefore <= s.now)
  }

  ghost predicate PassInv(s: State) {
    && (!s.pass.Idle? ==> s.ca == Some(s.pass.mem))
    && (s.pass.Rotating? ==>
          && s.pass.renewed.notBefore <= s.now
          && s.pass.renewed.notAfter == s.pass.renewed.notBefore + CA_EXPIRATION
          && s.pass.mem.cert.notAfter < s.pass.renewed.notBefore + LOOKAHEAD)
  }

  ghost predicate WellShaped(s: State, key: ConfigKey, config: Config) {
    && config.labelled
    && (forall i :: 0 <= i < |config.entries| ==>
                      config.entries[i].caBundle != [] && config.entries[i].service in s.leaves)
    && (key.PolicyConfig? ==>
          |config.entries| == 1 && config.entries[0].name == key.uniqueName + ".kubewarden.admission")
    && (key.ControllerConfig? ==>
          && DistinctNames(config.entries)
          && forall i :: 0 <= i < |config.entries| ==> config.entries[i].service == s.webhookService)
  }

  ghost predicate ShapeInv(s: State) {
    forall k :: k in s.configs ==> WellShaped(s, k, s.configs[k])
  }

  /** A copy with the resource version of the stored object is equal to it. */
  ghost predicate Faithful(s: State, key: ConfigKey, config: Config) {
    config.rv < s.nextRv && (key in s.configs && s.configs[key].rv == config.rv ==> s.configs[key] == config)
  }

  ghost predicate VersionInv(s: State) {
    && (forall k :: k in s.configs ==> s.configs[k].rv < s.nextRv)
    && (forall w :: w in s.workers && s.workers[w].key.Some? && s.workers[w].seen.Some? ==>
                      Faithful(s, s.workers[w].key.value, s.workers[w].seen.value))
    && (s.pass.ListedValidating? || s.pass.Injecting? ==>
          forall l :: l in s.pass.work ==> Faithful(s, l.key, l.config))
  }

  ghost predicate CertInv(s: State) {
    && (forall n :: n in s.leaves ==>
                      && s.leaves[n].issuer in s.issued && s.leaves[n].notBefore <= s.now
                      && s.leaves[n].notAfter == s.leaves[n].notBefore + 31_536_000)
    && (forall w :: HasSecret(s, w) ==> s.workers[w].secret.value.cert in s.issued)
  }

  ghost predicate BaseInv(s: State) {
    ClockInv(s) && PassInv(s) && ShapeInv(s) && VersionInv(s) && CertInv(s)
  }

  ghost predicate Covered(s: State, kind: Kind, work: seq<Listed>, root: CACert) {
    forall k :: k in s.configs && k.kind == kind ==>
                  ConfigTrusts(s.configs[k], root) || exists l :: l in work && l.key == k
  }

  /** A listed configuration that the pass will skip as up to date trusts its root on the server, too. */
  ghost predicate StaysTrusted(s: State, work: seq<Listed>, mem: CASecret) {
    forall l :: l in work && UpToDate(l.config.entries, CABundle(mem)) && l.key in s.configs ==>
                  ConfigTrusts(s.configs[l.key], mem.cert)
  }

  /** All copies of one configuration in a list are the same. */
  ghost predicate SameCopies(work: seq<Listed>) {
    forall l, m :: l in work && m in work && l.key == m.key ==> l.config == m.config
  }

  ghost predicate PhaseInv(s: State) {
    match s.pass
    case ListedValidating(mem, work) =>
      && Covered(s, Validating, work, mem.cert) && StaysTrusted(s, work, mem)
      && SameCopies(work) && (forall l :: l in work ==> l.key.kind == Validating)
    case Injecting(mem, work) =>
      && Covered(s, Validating, work, mem.cert) && Covered(s, Mutating, work, mem.cert)
      && StaysTrusted(s, work, mem) && SameCopies(work)
    case Signing(mem) => AllTrust(s, mem.cert)
    case _ => true
  }

  ghost predicate TrustInv(s: State) {
    NoTrustGap(s) && PhaseInv(s)
  }

  // ---- one write of a webhook configuration ----

  ghost predicate WasThere(s: State, key: ConfigKey, e: Entry) {
    key in s.configs && exists j :: 0 <= j < |s.configs[key].entries| && s.configs[key].entries[j] == e
  }

  /** Every entry was there before, or trusts what `secret` holds. */
  ghost predicate Sourced(s: State, key: ConfigKey, entries: seq<Entry>, secret: CASecret) {
    forall i :: 0 <= i < |entries| ==> WasThere(s, key, entries[i]) || entries[i].caBundle == CABundle(secret)
  }

  ghost predicate AllThere(s: State, key: ConfigKey, entries: seq<Entry>) {
    forall i :: 0 <= i < |entries| ==> WasThere(s, key, entries[i])
  }

  lemma InitSources(s: State, key: ConfigKey, template: seq<string>, live: seq<Entry>, secret: CASecret, i: nat)
    requires i < |template| && DistinctNames(live)
    requires forall j :: 0 <= j < |live| ==>
               WasThere(s, key, live[j]) && live[j].service == s.webhookService && live[j].caBundle != []
    ensures var e := InitEntries(template, s.webhookService, live, secret)[i];
            WasThere(s, key, e) || (BundleNamed(live, template[i]) == [] && e.caBundle == CABundle(secret))
  {
    hide WasThere, BundleNamed;
    if j :| 0 <= j < |live| && live[j].name == template[i] {
      BundleNamedFinds(live, j);
      assert InitEntries(template, s.webhookService, live, secret)[i] == live[j];
    }
  }

  /** The entries that a worker has seen are the stored ones, if its write goes through. */
  lemma SeenIsThere(s: State, w: nat)
    requires ShapeInv(s) && VersionInv(s) && ReadyToWrite(s, w)
    requires s.workers[w].seen.Some? ==>
               s.workers[w].key.value in s.configs && s.configs[s.workers[w].key.value].rv == s.workers[w].seen.value.rv
    ensures var key, live := s.workers[w].key.value, SeenEntries(s, w);
            && (s.workers[w].seen.Some? ==> live == s.configs[key].entries && WellShaped(s, key, s.configs[key]))
            && forall j :: 0 <= j < |live| ==> WasThere(s, key, live[j])
  {
    if s.workers[w].seen.Some? {
      assert Faithful(s, s.workers[w].key.value, s.workers[w].seen.value);
      assert WellShaped(s, s.workers[w].key.value, s.configs[s.workers[w].key.value]);
    }
  }

  /** The entries that a reconciler or an init container sends. */
  ghost function Written(s: State, step: Step): seq<Entry>
    requires (step.WritePolicy? || step.WriteController?) && ReadyToWrite(s, step.worker)
    requires step.WritePolicy? ==> s.workers[step.worker].key.value.PolicyConfig?
  {
    var Worker(Some(secret), Some(key), _) := s.workers[step.worker];
    if step.WritePolicy? then PolicyEntries(key.uniqueName, step.service, SeenEntries(s, step.worker), secret)
    else InitEntries(step.template, s.webhookService, SeenEntries(s, step.worker), secret)
  }

  lemma WriteForm(s: State, step: Step)
    requires Enabled(s, step) && (step.WritePolicy? || step.WriteController?)
    ensures ReadyToWrite(s, step.worker) && s.workers[step.worker].key.value.PolicyConfig? == step.WritePolicy?
    ensures Do(s, step) == s ||
            (Accepted(s, step.worker) &&
             Do(s, step) == PutConfig(s, s.workers[step.worker].key.value, true, Written(s, step)))
  {
  }

  /** What a write of a reconciler or an init container does, if it is not refused: an entry that persists keeps its
      bundle, a new one has the bundle of the Secret that the writer holds. */
  lemma WriteOutcome(s: State, step: Step) returns (key: ConfigKey, entries: seq<Entry>)
    requires BaseInv(s) && Enabled(s, step) && (step.WritePolicy? || step.WriteController?)
    ensures Some(key) == s.workers[step.worker].key
    ensures Do(s, step) == s || Do(s, step) == PutConfig(s, key, true, entries)
    ensures Do(s, step) != s ==> WellShaped(s, key, Config(s.nextRv, true, entries))
    ensures Do(s, step) != s ==> Sourced(s, key, entries, s.workers[step.worker].secret.value)
    ensures Do(s, step) != s && !UsesSecret(s, step) ==> AllThere(s, key, entries)
    ensures Do(s, step) != s ==> Accepted(s, step.worker)
    ensures forall i :: 0 <= i < |entries| ==> entries[i].service == ServiceOf(s, step)
  {
    assert ShapeInv(s) && VersionInv(s);
    WriteForm(s, step);
    var w := step.worker;
    var secret, live := s.workers[w].secret.value, SeenEntries(s, w);
    key := s.workers[w].key.value;
    entries := Written(s, step);
    hide BaseInv, Do, WasThere, Sourced, AllThere, BundleNamed, CABundle, ShapeInv, VersionInv;
    if Do(s, step) != s {
      SeenIsThere(s, w);
      if step.WritePolicy? {
        PolicyOutcome(s, key, step.service, live, secret);
      } else {
        InitOutcome(s, key, step.template, live, secret);
      }
    }
  }

  lemma PolicyOutcome(s: State, key: ConfigKey, service: string, live: seq<Entry>, secret: CASecret)
    requires key.PolicyConfig? && service in s.leaves
    requires live == [] || (|live| == 1 && live[0].caBundle != [] && live[0].service == service &&
                            live[0].name == key.uniqueName + WEBHOOK_NAME_SUFFIX)
    requires forall j :: 0 <= j < |live| ==> WasThere(s, key, live[j])
    ensures var entries := PolicyEntries(key.uniqueName, service, live, secret);
            && WellShaped(s, key, Config(s.nextRv, true, entries)) && Sourced(s, key, entries, secret)
            && (LiveBundle(live) != [] ==> AllThere(s, key, entries))
  {
    hide WasThere, CABundle;
    if live != [] { assert PolicyEntries(key.uniqueName, service, live, secret)[0] == live[0]; }
  }

  lemma InitOutcome(s: State, key: ConfigKey, template: seq<string>, live: seq<Entry>, secret: CASecret)
    requires key.ControllerConfig? && s.webhookService in s.leaves && Distinct(template) && DistinctNames(live)
    requires forall j :: 0 <= j < |live| ==>
               WasThere(s, key, live[j]) && live[j].service == s.webhookService && live[j].caBundle != []
    ensures var entries := InitEntries(template, s.webhookService, live, secret);
            && WellShaped(s, key, Config(s.nextRv, true, entries)) && Sourced(s, key, entries, secret)
            && ((forall i :: 0 <= i < |template| ==> BundleNamed(live, template[i]) != []) ==>
                AllThere(s, key, entries))
  {
    hide WasThere, BundleNamed, CABundle, InitEntries, CABundleForWebhook;
    var entries := InitEntries(template, s.webhookService, live, secret);
    InitShape(s, key, template, live, secret);
    hide WellShaped;
    forall i | 0 <= i < |entries|
      ensures WasThere(s, key, entries[i]) ||
              (BundleNamed(live, template[i]) == [] && entries[i].caBundle == CABundle(secret))
    {
      InitSources(s, key, template, live, secret, i);
    }
  }

  lemma InitShape(s: State, key: ConfigKey, template: seq<string>, live: seq<Entry>, secret: CASecret)
    requires key.ControllerConfig? && s.webhookService in s.leaves && Distinct(template)
    ensures WellShaped(s, key, Config(s.nextRv, true, InitEntries(template, s.webhookService, live, secret)))
  {
    hide InitEntries, BundleNamed, CABundle;
  }

  // ---- the invariants are inductive ----

  ghost predicate Lists(step: Step) {
    step.PassListValidating? || step.PassListMutating?
  }

  ghost predicate Signs(step: Step) {
    step.PassSign? || step.CreateServerCert? || step.RegenerateServerCert?
  }

  ghost predicate Writes(step: Step) {
    step.WritePolicy? || step.WriteController? || step.PassInject?
  }

  lemma InitInv(s: State)
    requires Init(s)
    ensures BaseInv(s) && TrustInv(s)
  {
  }

  /** The only arithmetic of the protocol: when the CA root rotates, the CA root before it has expired. */
  lemma RotationSpacing(s: State)
    requires ClockInv(s) && PassInv(s) && Enabled(s, PassStoreRoot)
    ensures s.pass.mem.previous.Some? ==> !ValidAt(s.pass.mem.previous.value, s.now)
    ensures ClockInv(Do(s, PassStoreRoot)) && PassInv(Do(s, PassStoreRoot))
  {
  }

  lemma ClockPrune(s: State)
    requires ClockInv(s) && PassInv(s) && Enabled(s, PassPrune)
    ensures ClockInv(Do(s, PassPrune)) && PassInv(Do(s, PassPrune))
  {
  }

  lemma ClockTick(s: State, seconds: nat)
    requires ClockInv(s) && PassInv(s) && Enabled(s, Tick(seconds))
    ensures ClockInv(Do(s, Tick(seconds))) && PassInv(Do(s, Tick(seconds)))
  {
  }

  lemma ClockEnsure(s: State)
    requires ClockInv(s) && PassInv(s) && Enabled(s, EnsureCA)
    ensures ClockInv(Do(s, EnsureCA)) && PassInv(Do(s, EnsureCA))
  {
  }

  lemma ClockCheckRoot(s: State)
    requires ClockInv(s) && PassInv(s) && Enabled(s, PassCheckRoot)
    ensures ClockInv(Do(s, PassCheckRoot)) && PassInv(Do(s, PassCheckRoot))
  {
  }

  lemma ClockFrame(s: State, s': State)
    requires ClockInv(s) && PassInv(s) && s'.now == s.now && s'.ca == s.ca && s'.issued == s.issued
    requires s'.pass.Idle? || s'.pass == s.pass || (!s'.pass.Rotating? && s.ca == Some(s'.pass.mem))
    ensures ClockInv(s') && PassInv(s')
  {
  }

  lemma PassHolds(s: State)
    requires PassInv(s)
    ensures !s.pass.Idle? ==> s.ca == Some(s.pass.mem)
  {
  }

  /** What the steps on webhooks, certificates and workers, and the moves of the pass, leave alone. */
  lemma ClockOthers(s: State, step: Step)
    requires ClockInv(s) && PassInv(s) && Enabled(s, step)
    requires !step.Tick? && !step.EnsureCA? && !step.PassCheckRoot? && !step.PassStoreRoot? && !step.PassPrune?
    ensures ClockInv(Do(s, step)) && PassInv(Do(s, step))
  {
    hide ClockInv, PassInv, ListsKind, ListWork, HasSecret, VerifyLeaf, Accepted, UpToDate;
    PassHolds(s);
    ClockFrame(s, Do(s, step));
  }

  lemma ClockStep(s: State, step: Step)
    requires ClockInv(s) && PassInv(s) && Enabled(s, step)
    ensures ClockInv(Do(s, step)) && PassInv(Do(s, step))
  {
    hide ClockInv, PassInv, Do, Enabled;
    match step
    case Tick(seconds) => ClockTick(s, seconds);
    case EnsureCA => ClockEnsure(s);
    case PassCheckRoot => ClockCheckRoot(s);
    case PassStoreRoot => RotationSpacing(s);
    case PassPrune => ClockPrune(s);
    case _ => ClockOthers(s, step);
  }

  /** Versions, shapes and certificates, together: what a step on webhooks and Secrets has to keep. */
  ghost predicate StoreInv(s: State) {
    ShapeInv(s) && VersionInv(s) && CertInv(s)
  }

  /** Writing a well-shaped configuration under a new resource version. */
  lemma PutStep(s: State, key: ConfigKey, entries: seq<Entry>)
    requires StoreInv(s) && WellShaped(s, key, Config(s.nextRv, true, entries))
    ensures StoreInv(PutConfig(s, key, true, entries))
  {
  }

  lemma LeafStep(s: State, service: string, ca: CACert)
    requires StoreInv(s) && ca in s.issued
    ensures StoreInv(SetLeaf(s, service, ca))
  {
    var s' := SetLeaf(s, service, ca);
    forall k | k in s'.configs ensures WellShaped(s', k, s'.configs[k]) {
      assert WellShaped(s, k, s.configs[k]);
    }
  }

  lemma ListStep(s: State, step: Step)
    requires StoreInv(s) && Enabled(s, step) && (step.PassListValidating? || step.PassListMutating?)
    ensures StoreInv(Do(s, step))
  {
    var s' := Do(s, step);
    forall k | k in s'.configs ensures WellShaped(s', k, s'.configs[k]) {
      assert WellShaped(s, k, s.configs[k]);
    }
  }

  lemma LessWork(s: State)
    requires StoreInv(s) && s.pass.Injecting? && s.pass.work != []
    ensures StoreInv(s.(pass := Injecting(s.pass.mem, s.pass.work[1..]))) && StoreInv(s.(pass := Idle))
  {
    assert forall k :: k in s.configs ==> WellShaped(s, k, s.configs[k]);
  }

  lemma InjectStep(s: State)
    requires StoreInv(s) && Enabled(s, PassInject)
    ensures StoreInv(Do(s, PassInject))
  {
    var item := s.pass.work[0];
    assert Faithful(s, item.key, item.config);
    var next := s.(pass := Injecting(s.pass.mem, s.pass.work[1..]));
    LessWork(s);
    if item.key in s.configs && s.configs[item.key].rv == item.config.rv {
      assert WellShaped(s, item.key, s.configs[item.key]);
      var entries := InjectEntries(item.config.entries, CABundle(s.pass.mem));
      assert WellShaped(next, item.key, Config(next.nextRv, true, entries)) && item.config.labelled;
      hide StoreInv, WellShaped, UpToDate;
      PutStep(next, item.key, entries);
    }
  }

  lemma ReadStep(s: State, step: Step)
    requires StoreInv(s) && Enabled(s, step) && (step.ReadSecret? || step.ReadConfig?)
    requires s.ca.Some? ==> s.ca.value.cert in s.issued
    ensures StoreInv(Do(s, step))
  {
    var s' := Do(s, step);
    forall k | k in s'.configs ensures WellShaped(s', k, s'.configs[k]) {
      assert WellShaped(s, k, s.configs[k]);
    }
  }

  /** Steps that leave webhooks, certificates and workers alone. */
  lemma StoreFrame(s: State, s': State)
    requires StoreInv(s) && s'.nextRv == s.nextRv && s'.webhookService == s.webhookService
    requires s'.leaves == s.leaves && s'.workers == s.workers
    requires s'.configs == s.configs || exists k :: s'.configs == s.configs - {k}
    requires s.now <= s'.now && s.issued <= s'.issued
    requires s'.pass == s.pass || !(s'.pass.ListedValidating? || s'.pass.Injecting?)
    ensures StoreInv(s')
  {
    forall k | k in s'.configs ensures WellShaped(s', k, s'.configs[k]) {
      assert WellShaped(s, k, s.configs[k]);
    }
  }

  lemma BaseHolds(s: State)
    requires BaseInv(s)
    ensures ClockInv(s) && PassInv(s) && StoreInv(s)
    ensures s.ca.Some? ==> s.ca.value.cert in s.issued
    ensures !s.pass.Idle? ==> s.ca == Some(s.pass.mem)
    ensures forall w :: HasSecret(s, w) ==> s.workers[w].secret.value.cert in s.issued
  {
    hide ShapeInv, VersionInv;
  }

  lemma StoreStep(s: State, step: Step)
    requires BaseInv(s) && Enabled(s, step)
    ensures StoreInv(Do(s, step))
  {
    hide BaseInv, StoreInv, ClockInv, PassInv, Do, Enabled;
    BaseHolds(s);
    match step
    case PassListValidating(_) => ListStep(s, step);
    case PassListMutating(_) => ListStep(s, step);
    case PassInject => InjectStep(s);
    case PassSign(_) => CertStep(s, step);
    case CreateServerCert(_, _) => CertStep(s, step);
    case RegenerateServerCert(_, _) => CertStep(s, step);
    case ReadSecret(_) => ReadStep(s, step);
    case ReadConfig(_, _) => ReadStep(s, step);
    case WritePolicy(_, _) => WriteStep(s, step);
    case WriteController(_, _) => WriteStep(s, step);
    case _ => StoreOthers(s, step);
  }

  lemma CertStep(s: State, step: Step)
    requires BaseInv(s) && Enabled(s, step) && Signs(step)
    ensures StoreInv(Do(s, step))
  {
    hide BaseInv, StoreInv, SetLeaf, VerifyLeaf;
    BaseHolds(s);
    if step.PassSign? { LeafStep(s, step.service, s.pass.mem.cert); }
    else { LeafStep(s, step.service, s.workers[step.worker].secret.value.cert); }
  }

  lemma StoreOthers(s: State, step: Step)
    requires StoreInv(s) && Enabled(s, step)
    requires !Writes(step) && !Lists(step) && !Signs(step)
    requires !step.ReadSecret? && !step.ReadConfig?
    ensures StoreInv(Do(s, step))
  {
    hide StoreInv, MustRotate, MustDropOld, GenerateCA, Rotate, DropOld;
    StoreFrame(s, Do(s, step));
  }

  lemma WriteStep(s: State, step: Step)
    requires BaseInv(s) && Enabled(s, step) && (step.WritePolicy? || step.WriteController?)
    ensures StoreInv(Do(s, step))
  {
    hide StoreInv, BaseInv, Do, Enabled, Sourced, AllThere;
    BaseHolds(s);
    var key, entries := WriteOutcome(s, step);
    if Do(s, step) != s { PutStep(s, key, entries); }
  }

  lemma BaseStep(s: State, step: Step)
    requires BaseInv(s) && Enabled(s, step)
    ensures BaseInv(Do(s, step))
  {
    hide ClockInv, PassInv, ShapeInv, VersionInv, CertInv, Do, Enabled;
    ClockStep(s, step);
    StoreStep(s, step);
  }

  // ---- trust: what the other steps leave alone ----

  /** All steps but the writes and the injection leave every configuration alone, or remove it. */
  lemma OthersKeepConfigs(s: State, step: Step)
    requires Enabled(s, step) && !Writes(step)
    ensures forall k :: k in Do(s, step).configs ==> k in s.configs && Do(s, step).configs[k] == s.configs[k]
    ensures s.now <= Do(s, step).now
    ensures !Signs(step) ==> Do(s, step).leaves == s.leaves
  {
    hide ListsKind, ListWork, MustRotate, MustDropOld, VerifyLeaf, HasSecret, GenerateCA, Rotate, DropOld;
  }

  ghost predicate AfterLists(pass: Pass) {
    pass.ListedValidating? || pass.Injecting? || pass.Signing?
  }

  lemma OthersKeepPhase(s: State, step: Step)
    requires Enabled(s, step) && !Writes(step) && !Lists(step) && !step.PassTrusted?
    ensures Do(s, step).pass == s.pass || !AfterLists(Do(s, step).pass)
  {
    hide ListsKind, MustRotate, MustDropOld, VerifyLeaf, HasSecret, GenerateCA, Rotate, DropOld;
  }

  // ---- trust: what the pass relies on ----

  /** No configuration loses its trust in `root`, and every new one has it. */
  ghost predicate KeepsTrust(s: State, s': State, root: CACert) {
    forall k :: k in s'.configs && (k in s.configs ==> ConfigTrusts(s.configs[k], root)) ==>
                  ConfigTrusts(s'.configs[k], root)
  }

  lemma PhaseFrame(s: State, s': State)
    requires ShapeInv(s) && PhaseInv(s) && s'.pass == s.pass
    requires !s.pass.Idle? ==> KeepsTrust(s, s', s.pass.mem.cert)
    ensures PhaseInv(s')
  {
  }

  /** A write keeps the phase if what the pass will not look at again trusts its root. */
  lemma PhasePut(s: State, key: ConfigKey, entries: seq<Entry>)
    requires PhaseInv(s)
    requires PassesBy(s, key) ==> forall i :: 0 <= i < |entries| ==> s.pass.mem.cert in entries[i].caBundle
    ensures PhaseInv(PutConfig(s, key, true, entries))
  {
    hide UpToDate, CABundle;
    var s' := PutConfig(s, key, true, entries);
    assert forall k :: k in s.configs && k != key ==> s'.configs[k] == s.configs[k];
    if PassesBy(s, key) {
      assert ConfigTrusts(s'.configs[key], s.pass.mem.cert);
    }
    hide ConfigTrusts;
    if s.pass.ListedValidating? || s.pass.Injecting? {
      PendingStays(s, s', key);
    }
  }

  lemma PendingStays(s: State, s': State, key: ConfigKey)
    requires s.pass.ListedValidating? || s.pass.Injecting?
    requires PhaseInv(s) && s'.configs.Keys == s.configs.Keys + {key} && s'.pass == s.pass
    requires forall k :: k in s.configs && k != key ==> s'.configs[k] == s.configs[k]
    requires PassesBy(s, key) ==> ConfigTrusts(s'.configs[key], s.pass.mem.cert)
    ensures StaysTrusted(s', s.pass.work, s.pass.mem)
    ensures Covered(s', Validating, s.pass.work, s.pass.mem.cert)
    ensures s.pass.Injecting? ==> Covered(s', Mutating, s.pass.work, s.pass.mem.cert)
  {
    hide UpToDate, CABundle, ConfigTrusts;
    if !PassesBy(s, key) && Pending(s.pass.work, key, s.pass.mem) {
      var l :| l in s.pass.work && l.key == key && !UpToDate(l.config.entries, CABundle(s.pass.mem));
      assert forall m :: m in s.pass.work && m.key == key ==> m.config == l.config;
    }
  }

  /** An entry that was there trusts what the pass will sign with, if the pass passes it by. */
  lemma ThereInPhase(s: State, key: ConfigKey, e: Entry)
    requires ShapeInv(s) && PhaseInv(s) && WasThere(s, key, e)
    ensures PassesBy(s, key) ==> s.pass.mem.cert in e.caBundle
  {
    hide CABundle, UpToDate;
    var j :| 0 <= j < |s.configs[key].entries| && s.configs[key].entries[j] == e;
    assert WellShaped(s, key, s.configs[key]);
    assert PassesBy(s, key) ==> ConfigTrusts(s.configs[key], s.pass.mem.cert);
  }

  /** What CreateSafe says about the bundle of a write that uses the copy of the Secret. */
  lemma SafeBundle(s: State, step: Step, key: ConfigKey, e: Entry)
    requires Enabled(s, step) && (step.WritePolicy? || step.WriteController?)
    requires CreateSafe(s, step) && UsesSecret(s, step) && Accepted(s, step.worker)
    requires s.workers[step.worker].key == Some(key) && e.service == ServiceOf(s, step)
    requires e.caBundle == CABundle(s.workers[step.worker].secret.value)
    ensures PassesBy(s, key) ==> s.pass.mem.cert in e.caBundle
    ensures EntryTrustsServer(s, e)
  {
    hide PassesBy, UsesSecret, CABundle, Accepted, ChainValidAt;
  }

  lemma WritePhase(s: State, step: Step)
    requires BaseInv(s) && PhaseInv(s) && Enabled(s, step) && CreateSafe(s, step)
    requires step.WritePolicy? || step.WriteController?
    ensures PhaseInv(Do(s, step))
  {
    BaseHolds(s);
    hide BaseInv, PhaseInv, Do, Enabled, CreateSafe, PassesBy, WellShaped, UsesSecret, WasThere;
    var key, entries := WriteOutcome(s, step);
    if Do(s, step) != s {
      forall i | 0 <= i < |entries| ensures PassesBy(s, key) ==> s.pass.mem.cert in entries[i].caBundle {
        if WasThere(s, key, entries[i]) {
          ThereInPhase(s, key, entries[i]);
        } else {
          SafeBundle(s, step, key, entries[i]);
        }
      }
      PhasePut(s, key, entries);
    }
  }

  /** What an injection that goes through makes of the configurations. */
  lemma InjectOutcome(s: State)
    requires Enabled(s, PassInject)
    ensures var s' := Do(s, PassInject);
            var item := s.pass.work[0];
            s'.pass.Injecting? ==>
              && s'.pass == Injecting(s.pass.mem, s.pass.work[1..])
              && s'.configs.Keys == s.configs.Keys
              && (forall k :: k in s.configs && k != item.key ==> s'.configs[k] == s.configs[k])
              && (item.key in s.configs ==>
                    || ConfigTrusts(s'.configs[item.key], s.pass.mem.cert)
                    || (UpToDate(item.config.entries, CABundle(s.pass.mem)) &&
                        s'.configs[item.key] == s.configs[item.key]))
  {
  }

  lemma InjectPhase(s: State)
    requires PhaseInv(s) && Enabled(s, PassInject)
    ensures PhaseInv(Do(s, PassInject))
  {
    hide ConfigTrusts, UpToDate, CABundle, DoInject;
    var s' := Do(s, PassInject);
    InjectOutcome(s);
    if s'.pass.Injecting? {
      InjectedOne(s, s');
    } else {
      InjectStops(s);
    }
  }

  lemma InjectStops(s: State)
    requires Enabled(s, PassInject) && !Do(s, PassInject).pass.Injecting?
    ensures Do(s, PassInject).pass.Idle?
  {
    hide UpToDate, CABundle, InjectEntries;
  }

  /** The work that is left still covers every configuration that does not trust the root yet. */
  lemma InjectedOne(s: State, s': State)
    requires PhaseInv(s) && s.pass.Injecting? && s.pass.work != []
    requires s'.pass == Injecting(s.pass.mem, s.pass.work[1..]) && s'.configs.Keys == s.configs.Keys
    requires var item := s.pass.work[0];
             && (forall k :: k in s.configs && k != item.key ==> s'.configs[k] == s.configs[k])
             && (item.key in s.configs ==>
                   || ConfigTrusts(s'.configs[item.key], s.pass.mem.cert)
                   || (UpToDate(item.config.entries, CABundle(s.pass.mem)) &&
                       s'.configs[item.key] == s.configs[item.key]))
    ensures PhaseInv(s')
  {
    hide ConfigTrusts, UpToDate, CABundle;
    var root, item := s.pass.mem.cert, s.pass.work[0];
    assert item in s.pass.work;
    assert item.key in s'.configs ==> ConfigTrusts(s'.configs[item.key], root);
    assert forall l :: l in s.pass.work ==> l == item || l in s'.pass.work;
    assert forall l :: l in s'.pass.work ==> l in s.pass.work;
    assert StaysTrusted(s', s'.pass.work, s.pass.mem) && SameCopies(s'.pass.work);
    hide StaysTrusted, SameCopies, Covered;
    CoveredLess(s, s', Validating, root);
    CoveredLess(s, s', Mutating, root);
  }

  lemma CoveredLess(s: State, s': State, kind: Kind, root: CACert)
    requires s.pass.Injecting? && s'.pass.Injecting? && s.pass.work != [] && Covered(s, kind, s.pass.work, root)
    requires s'.configs.Keys == s.configs.Keys
    requires forall k :: k in s.configs && k != s.pass.work[0].key ==> s'.configs[k] == s.configs[k]
    requires s.pass.work[0].key in s'.configs ==> ConfigTrusts(s'.configs[s.pass.work[0].key], root)
    requires forall l :: l in s.pass.work ==> l == s.pass.work[0] || l in s'.pass.work
    ensures Covered(s', kind, s'.pass.work, root)
  {
    hide ConfigTrusts;
    forall k | k in s'.configs && k.kind == kind && !ConfigTrusts(s'.configs[k], root)
      ensures exists l :: l in s'.pass.work && l.key == k
    {
      var l :| l in s.pass.work && l.key == k;
      assert l in s'.pass.work;
    }
  }

  /** A complete list of one kind of configurations covers that kind, and lists every configuration as it is. */
  lemma ListIsComplete(s: State, kind: Kind, order: seq<ConfigKey>, mem: CASecret)
    requires ShapeInv(s) && ListsKind(s, kind, order)
    ensures Covered(s, kind, ListWork(s, order), mem.cert) && StaysTrusted(s, ListWork(s, order), mem)
    ensures SameCopies(ListWork(s, order)) && forall l :: l in ListWork(s, order) ==> l.key.kind == kind
  {
    var work := ListWork(s, order);
    forall k | k in s.configs && k.kind == kind ensures exists l :: l in work && l.key == k {
      assert WellShaped(s, k, s.configs[k]);
      assert Listed(k, s.configs[k]) in work;
    }
  }

  lemma ListValidatingPhase(s: State, order: seq<ConfigKey>)
    requires ShapeInv(s) && Enabled(s, PassListValidating(order))
    ensures PhaseInv(Do(s, PassListValidating(order)))
  {
    var mem, work := s.pass.mem, ListWork(s, order);
    ListIsComplete(s, Validating, order, mem);
    hide ListsKind, ListWork, ConfigTrusts, UpToDate, CABundle, ShapeInv;
    assert Do(s, PassListValidating(order)) == s.(pass := ListedValidating(mem, work));
  }

  lemma ListMutatingPhase(s: State, order: seq<ConfigKey>)
    requires ShapeInv(s) && PhaseInv(s) && Enabled(s, PassListMutating(order))
    ensures PhaseInv(Do(s, PassListMutating(order)))
  {
    var mem, before, work := s.pass.mem, s.pass.work, ListWork(s, order);
    ListIsComplete(s, Mutating, order, mem);
    hide ListsKind, ListWork, ConfigTrusts, UpToDate, CABundle, ShapeInv;
    var s' := s.(pass := Injecting(mem, before + work));
    assert forall l :: l in before + work <==> l in before || l in work;
    assert Do(s, PassListMutating(order)) == s';
    ListedTogether(s, s', before, work, mem);
    hide Do, Enabled, StaysTrusted, SameCopies, Covered;
    CoveredByMore(s, s', Validating, before, before + work, mem.cert);
    CoveredByMore(s, s', Mutating, work, before + work, mem.cert);
  }

  lemma ListedTogether(s: State, s': State, before: seq<Listed>, work: seq<Listed>, mem: CASecret)
    requires StaysTrusted(s, before, mem) && StaysTrusted(s, work, mem) && SameCopies(before) && SameCopies(work)
    requires (forall l :: l in before ==> l.key.kind == Validating) &&
             (forall l :: l in work ==> l.key.kind == Mutating)
    requires s'.configs == s.configs
    ensures StaysTrusted(s', before + work, mem) && SameCopies(before + work)
  {
    hide ConfigTrusts, UpToDate, CABundle;
    assert forall l :: l in before + work <==> l in before || l in work;
  }

  lemma CoveredByMore(s: State, s': State, kind: Kind, work: seq<Listed>, more: seq<Listed>, root: CACert)
    requires s'.configs == s.configs && Covered(s, kind, work, root) && forall l :: l in work ==> l in more
    ensures Covered(s', kind, more, root)
  {
    hide ConfigTrusts;
    forall k | k in s'.configs && k.kind == kind && !ConfigTrusts(s'.configs[k], root)
      ensures exists l :: l in more && l.key == k
    {
      var l :| l in work && l.key == k;
      assert l in more;
    }
  }

  lemma TrustedAll(s: State)
    requires PhaseInv(s) && Enabled(s, PassTrusted)
    ensures PhaseInv(Do(s, PassTrusted))
  {
    hide ConfigTrusts;
    forall k | k in s.configs ensures ConfigTrusts(s.configs[k], s.pass.mem.cert) {
      assert k.kind == Validating || k.kind == Mutating;
    }
  }

  lemma PhaseOthers(s: State, step: Step)
    requires ShapeInv(s) && PhaseInv(s) && Enabled(s, step)
    requires !Writes(step) && !Lists(step) && !step.PassTrusted?
    ensures PhaseInv(Do(s, step))
  {
    hide Do, Enabled, ShapeInv, ConfigTrusts;
    OthersKeepConfigs(s, step);
    OthersKeepPhase(s, step);
    if Do(s, step).pass == s.pass { PhaseFrame(s, Do(s, step)); }
  }

  lemma PhaseStep(s: State, step: Step)
    requires BaseInv(s) && PhaseInv(s) && Enabled(s, step) && CreateSafe(s, step)
    ensures PhaseInv(Do(s, step))
  {
    assert ShapeInv(s);
    hide BaseInv, PhaseInv, ShapeInv, Do, Enabled, CreateSafe;
    match step
    case PassListValidating(order) => ListValidatingPhase(s, order);
    case PassListMutating(order) => ListMutatingPhase(s, order);
    case PassInject => InjectPhase(s);
    case PassTrusted => TrustedAll(s);
    case WritePolicy(_, _) => WritePhase(s, step);
    case WriteController(_, _) => WritePhase(s, step);
    case _ => PhaseOthers(s, step);
  }

  // ---- trust: no gap, one server at a time ----

  /** Every webhook that calls this server trusts its certificate, if the chain verifies. */
  ghost predicate NoGapFor(s: State, service: string) {
    forall k, i :: k in s.configs && 0 <= i < |s.configs[k].entries| && s.configs[k].entries[i].service == service ==>
      EntryTrustsServer(s, s.configs[k].entries[i])
  }

  lemma GapsByServer(s: State)
    requires ShapeInv(s)
    ensures NoTrustGap(s) <==> forall service :: NoGapFor(s, service)
  {
    hide EntryTrustsServer;
    if forall service :: NoGapFor(s, service) {
      forall k, i | k in s.configs && s.configs[k].labelled && 0 <= i < |s.configs[k].entries|
        ensures EntryTrustsServer(s, s.configs[k].entries[i])
      {
        assert NoGapFor(s, s.configs[k].entries[i].service);
      }
    }
    if NoTrustGap(s) {
      forall service ensures NoGapFor(s, service) {
        assert forall k :: k in s.configs ==> WellShaped(s, k, s.configs[k]);
      }
    }
  }

  /** No webhook calls a server that has no certificate. */
  lemma NoServerNoGap(s: State, service: string)
    requires ShapeInv(s) && service !in s.leaves
    ensures NoGapFor(s, service)
  {
  }

  /** A CA root that can still verify a chain is in the bundle of the Secret. */
  lemma IssuerInBundle(s: State, service: string)
    requires BaseInv(s) && service in s.leaves && ValidAt(s.leaves[service].issuer, s.now)
    ensures s.ca.Some? && s.leaves[service].issuer in CABundle(s.ca.value)
  {
    hide ShapeInv, VersionInv, PassInv, CABundle;
  }

  lemma GapFrame(s: State, s': State, service: string)
    requires CertInv(s) && ClockInv(s) && NoGapFor(s, service) && s.now <= s'.now
    requires service in s'.leaves ==> service in s.leaves && s'.leaves[service] == s.leaves[service]
    requires forall k :: k in s'.configs ==> k in s.configs && s'.configs[k] == s.configs[k]
    ensures NoGapFor(s', service)
  {
  }

  lemma PutGap(s: State, key: ConfigKey, entries: seq<Entry>, service: string)
    requires NoGapFor(s, service)
    requires forall i :: 0 <= i < |entries| && entries[i].service == service ==> EntryTrustsServer(s, entries[i])
    ensures NoGapFor(PutConfig(s, key, true, entries), service)
  {
    var s' := PutConfig(s, key, true, entries);
    forall k, i | k in s'.configs && 0 <= i < |s'.configs[k].entries| && s'.configs[k].entries[i].service == service
      ensures EntryTrustsServer(s', s'.configs[k].entries[i])
    {
      if k != key { assert EntryTrustsServer(s, s.configs[k].entries[i]); }
      else { assert EntryTrustsServer(s, entries[i]); }
    }
  }

  lemma WriteGap(s: State, step: Step, service: string)
    requires BaseInv(s) && NoGapFor(s, service) && Enabled(s, step) && CreateSafe(s, step)
    requires step.WritePolicy? || step.WriteController?
    ensures NoGapFor(Do(s, step), service)
  {
    hide BaseInv, Do, Enabled, CreateSafe, WellShaped, UsesSecret, EntryTrustsServer;
    var key, entries := WriteOutcome(s, step);
    if Do(s, step) != s {
      forall i | 0 <= i < |entries| && entries[i].service == service ensures EntryTrustsServer(s, entries[i]) {
        if !WasThere(s, key, entries[i]) {
          SafeBundle(s, step, key, entries[i]);
        }
      }
      PutGap(s, key, entries, service);
    }
  }

  /** An injection leaves a configuration as it is, or gives every entry the bundle of the stored Secret. */
  lemma InjectWrites(s: State, key: ConfigKey)
    requires BaseInv(s) && Enabled(s, PassInject) && key in Do(s, PassInject).configs
    ensures key in s.configs && s.ca.Some?
    ensures var s' := Do(s, PassInject);
            s'.configs[key] == s.configs[key] || UpToDate(s'.configs[key].entries, CABundle(s.ca.value))
  {
    hide ClockInv, ShapeInv, VersionInv, CertInv, CABundle;
  }

  lemma InjectGap(s: State, service: string)
    requires BaseInv(s) && NoGapFor(s, service) && Enabled(s, PassInject)
    ensures NoGapFor(Do(s, PassInject), service)
  {
    var s' := Do(s, PassInject);
    assert s'.leaves == s.leaves && s'.now == s.now by { hide UpToDate, CABundle, InjectEntries; }
    hide BaseInv, Do, Enabled, CABundle;
    forall k, i | k in s'.configs && 0 <= i < |s'.configs[k].entries| && s'.configs[k].entries[i].service == service
      ensures EntryTrustsServer(s', s'.configs[k].entries[i])
    {
      InjectWrites(s, k);
      if s'.configs[k] == s.configs[k] {
        assert EntryTrustsServer(s, s.configs[k].entries[i]);
      } else if service in s.leaves && ValidAt(s.leaves[service].issuer, s.now) {
        IssuerInBundle(s, service);
      }
    }
  }

  /** Where every webhook trusts the root that signs, signing a certificate leaves no gap for it, or closes it. */
  lemma SignCloses(s: State, service: string)
    requires ShapeInv(s) && PhaseInv(s) && Enabled(s, PassSign(service))
    ensures NoGapFor(Do(s, PassSign(service)), service)
  {
    var s', root := Do(s, PassSign(service)), s.pass.mem.cert;
    assert s'.configs == s.configs && service in s'.leaves && s'.leaves[service].issuer == root;
    hide Do, Enabled;
    forall k, i | k in s'.configs && 0 <= i < |s'.configs[k].entries| && s'.configs[k].entries[i].service == service
      ensures EntryTrustsServer(s', s'.configs[k].entries[i])
    {
      assert WellShaped(s, k, s.configs[k]) && ConfigTrusts(s.configs[k], root);
    }
  }

  lemma OtherLeaves(s: State, step: Step, service: string)
    requires Enabled(s, step) && Signs(step) && step.service != service
    ensures service in Do(s, step).leaves ==> service in s.leaves && Do(s, step).leaves[service] == s.leaves[service]
  {
    hide VerifyLeaf;
  }

  /** The first certificate of a server: no webhook calls it yet. */
  lemma FirstCertGap(s: State, w: nat, service: string)
    requires ShapeInv(s) && Enabled(s, CreateServerCert(w, service))
    ensures NoGapFor(Do(s, CreateServerCert(w, service)), service)
  {
    assert forall k :: k in s.configs ==> WellShaped(s, k, s.configs[k]);
  }

  /** A certificate regenerated from a copy of the Secret: the webhooks that call the server trust the root of
      the copy. */
  lemma RegeneratedGap(s: State, w: nat, service: string)
    requires ShapeInv(s) && Enabled(s, RegenerateServerCert(w, service))
    requires CreateSafe(s, RegenerateServerCert(w, service))
    ensures NoGapFor(Do(s, RegenerateServerCert(w, service)), service)
  {
    assert forall k :: k in s.configs ==> WellShaped(s, k, s.configs[k]);
  }

  lemma GapOthers(s: State, step: Step, service: string)
    requires BaseInv(s) && NoGapFor(s, service) && Enabled(s, step) && !Writes(step)
    requires Signs(step) ==> step.service != service
    ensures NoGapFor(Do(s, step), service)
  {
    hide ClockInv, PassInv, ShapeInv, VersionInv, CertInv, NoGapFor, Do, Enabled;
    OthersKeepConfigs(s, step);
    if Signs(step) { OtherLeaves(s, step, service); }
    GapFrame(s, Do(s, step), service);
  }

  lemma GapStep(s: State, step: Step, service: string)
    requires BaseInv(s) && PhaseInv(s) && NoGapFor(s, service) && Enabled(s, step) && CreateSafe(s, step)
    ensures NoGapFor(Do(s, step), service)
  {
    assert ShapeInv(s);
    hide BaseInv, ShapeInv, PhaseInv, NoGapFor, Do, Enabled, CreateSafe;
    if step.PassInject? {
      InjectGap(s, service);
    } else if step.WritePolicy? || step.WriteController? {
      WriteGap(s, step, service);
    } else if step == PassSign(service) {
      SignCloses(s, service);
    } else if step.CreateServerCert? && step.service == service {
      FirstCertGap(s, step.worker, service);
    } else if step.RegenerateServerCert? && step.service == service {
      RegeneratedGap(s, step.worker, service);
    } else {
      GapOthers(s, step, service);
    }
  }

  lemma TrustStep(s: State, step: Step)
    requires BaseInv(s) && TrustInv(s) && Enabled(s, step) && CreateSafe(s, step)
    ensures TrustInv(Do(s, step))
  {
    hide ClockInv, PassInv, ShapeInv, VersionInv, CertInv, NoTrustGap, PhaseInv, NoGapFor, Do, Enabled, CreateSafe;
    BaseStep(s, step);
    PhaseStep(s, step);
    GapsByServer(s);
    forall service ensures NoGapFor(Do(s, step), service) {
      GapStep(s, step, service);
    }
    GapsByServer(Do(s, step));
  }

  // ---- whole runs ----

  lemma {:induction false} RunBase(run: seq<State>, steps: seq<Step>, n: nat)
    requires IsRun(run, steps) && n < |run|
    ensures BaseInv(run[n])
  {
    if n == 0 {
      InitInv(run[0]);
    } else {
      RunBase(run, steps, n - 1);
      BaseStep(run[n - 1], steps[n - 1]);
    }
  }

  lemma {:induction false} RunTrust(run: seq<State>, steps: seq<Step>, n: nat)
    requires IsRun(run, steps) && n < |run|
    requires forall i :: 0 <= i < n ==> CreateSafe(run[i], steps[i])
    ensures TrustInv(run[n])
  {
    if n == 0 {
      InitInv(run[0]);
    } else {
      RunTrust(run, steps, n - 1);
      RunBase(run, steps, n - 1);
      TrustStep(run[n - 1], steps[n - 1]);
    }
  }

  /** No trust gap: at every moment of every run, whatever the passes that failed half-way and however many rotations
      happened, a certificate whose chain verifies is trusted by every webhook that calls its server. */
  lemma NoTrustGapInAnyRun(run: seq<State>, steps: seq<Step>)
    requires IsRun(run, steps)
    requires forall i :: 0 <= i < |steps| ==> CreateSafe(run[i], steps[i])
    ensures forall n :: 0 <= n < |run| ==> NoTrustGap(run[n])
  {
    forall n | 0 <= n < |run| ensures NoTrustGap(run[n]) {
      RunTrust(run, steps, n);
      var s := run[n];
      forall k, i | k in s.configs && s.configs[k].labelled && 0 <= i < |s.configs[k].entries|
        ensures EntryTrustsServer(s, s.configs[k].entries[i])
      {
        assert EntryTrustsServer(s, s.configs[k].entries[i]);
      }
    }
  }

  /** A copy of the Secret that is not stale is always safe to build webhooks from. */
  lemma FreshIsSafe(s: State, step: Step)
    requires BaseInv(s) && Enabled(s, step) && FreshRead(s, step)
    ensures CreateSafe(s, step)
  {
    hide ShapeInv, VersionInv;
    BaseHolds(s);
    if UsesSecret(s, step) && ChainValidAt(s.leaves[ServiceOf(s, step)], s.now) {
      IssuerInBundle(s, ServiceOf(s, step));
    }
  }

  /** In particular, every run that only uses fresh reads in this way has no trust gap. */
  lemma FreshRunsAreSafe(run: seq<State>, steps: seq<Step>)
    requires IsRun(run, steps)
    requires forall i :: 0 <= i < |steps| ==> FreshRead(run[i], steps[i])
    ensures forall i :: 0 <= i < |steps| ==> CreateSafe(run[i], steps[i])
  {
    forall i | 0 <= i < |steps| ensures CreateSafe(run[i], steps[i]) {
      RunBase(run, steps, i);
      FreshIsSafe(run[i], steps[i]);
    }
  }

  lemma SignsTrusted(s: State, service: string)
    requires BaseInv(s) && TrustInv(s) && Enabled(s, PassSign(service))
    ensures AllTrust(s, s.pass.mem.cert) && s.ca == Some(s.pass.mem)
    ensures Do(s, PassSign(service)) != s ==> Do(s, PassSign(service)).leaves[service].issuer == s.pass.mem.cert
  {
  }

  /** Trust before signing: every certificate that the cert controller signs is signed when every Kubewarden webhook
      configuration already holds the CA root that signs it, and that root is the stored one. */
  lemma TrustBeforeSigning(run: seq<State>, steps: seq<Step>, n: nat)
    requires IsRun(run, steps) && n < |steps| && steps[n].PassSign?
    requires forall i :: 0 <= i < n ==> CreateSafe(run[i], steps[i])
    ensures run[n].pass.Signing? && AllTrust(run[n], run[n].pass.mem.cert) && run[n].ca == Some(run[n].pass.mem)
    ensures run[n + 1] != run[n] ==>
              && steps[n].service in run[n + 1].leaves
              && run[n + 1].leaves[steps[n].service].issuer == run[n].pass.mem.cert
  {
    RunTrust(run, steps, n);
    RunBase(run, steps, n);
    SignsTrusted(run[n], steps[n].service);
  }

  // ---- what the steps of a pass do, date by date ----

  /** The pass rotates exactly when the root is not valid 60 days ahead or does not fit its key, and then for
      3650 days. */
  lemma CheckRootExact(s: State)
    requires Enabled(s, PassCheckRoot)
    ensures var CASecret(cert, key, _) := s.pass.mem;
            var pass := Do(s, PassCheckRoot).pass;
            && pass.mem == s.pass.mem && (pass.Rotating? || pass.Rotated?)
            && (pass.Rotated? <==>
                  cert.notBefore <= s.now + 5_184_000 <= cert.notAfter && key == PrivateKey(cert.serial, true))
            && (pass.Rotating? ==> pass.renewed == CACert(s.nextSerial, s.now, s.now + 315_360_000))
  {
    var key := s.pass.mem.key;
    assert key == PrivateKey(key.serial, key.ec);
  }

  /** It stores the new root with its own key and keeps the one before, and drops that exactly when it is not valid. */
  lemma StoreRootExact(s: State)
    ensures Enabled(s, PassStoreRoot) ==>
              var stored := CASecret(s.pass.renewed, PrivateKey(s.pass.renewed.serial, true), Some(s.pass.mem.cert));
              Do(s, PassStoreRoot).ca == Some(stored) && Do(s, PassStoreRoot).pass == Rotated(stored)
    ensures Enabled(s, PassPrune) ==>
              var previous := s.pass.mem.previous;
              var valid := previous.Some? && previous.value.notBefore <= s.now <= previous.value.notAfter;
              && Do(s, PassPrune).pass == Pruned(s.pass.mem.(previous := if valid then previous else None))
              && Do(s, PassPrune).ca == if previous.Some? && !valid then Some(s.pass.mem.(previous := None)) else s.ca
  {
    if Enabled(s, PassPrune) && s.pass.mem.previous.None? { assert s.pass.mem == s.pass.mem.(previous := None); }
  }

  /** It signs exactly when the certificate is missing or does not verify 60 days ahead under the name of its server. */
  lemma SignExact(s: State, service: string)
    requires Enabled(s, PassSign(service))
    ensures var root := s.pass.mem.cert;
            Do(s, PassSign(service)) == s <==>
              && service in s.leaves
              && var leaf := s.leaves[service];
                 && leaf.issuer == root && leaf.key == PrivateKey(leaf.serial, true)
                 && (service != "" ==> leaf.dnsName == service)
                 && leaf.notBefore <= s.now + 5_184_000 <= leaf.notAfter
                 && root.notBefore <= s.now + 5_184_000 <= root.notAfter
    ensures Do(s, PassSign(service)) != s ==>
              Do(s, PassSign(service)).leaves ==
              s.leaves[service := Leaf(s.pass.mem.cert, s.nextSerial, s.now, s.now + 31_536_000, service,
                                       PrivateKey(s.nextSerial, true))]
  {
    if service in s.leaves {
      var key := s.leaves[service].key;
      assert key == PrivateKey(key.serial, key.ec);
    }
    assert s.pass.mem.cert in [s.pass.mem.cert];
    assert SetLeaf(s, service, s.pass.mem.cert).nextSerial != s.nextSerial;
  }

  // ---- the periods over whole runs ----

  /** No certificate that is stored at any moment of any run verifies later than 365 days from that moment. */
  lemma OneYearInAnyRun(run: seq<State>, steps: seq<Step>, n: nat, service: string, at: int)
    requires IsRun(run, steps) && n < |run| && service in run[n].leaves && at > run[n].now + 31_536_000
    ensures !ChainValidAt(run[n].leaves[service], at)
  {
    RunBase(run, steps, n);
  }

  /** Whenever the pass is about to rotate the CA root, the root has stood for 3590 days, and every stored certificate
      that was signed before it has expired: the rotation never has to carry more than one old root. */
  lemma RotationOutlivesLeaves(run: seq<State>, steps: seq<Step>, n: nat, service: string)
    requires IsRun(run, steps) && n < |run| && run[n].pass.Ensured? && MustRotate(run[n].pass.mem, run[n].now)
    ensures run[n].now > run[n].pass.mem.cert.notBefore + 310_176_000
    ensures service in run[n].leaves && run[n].leaves[service].notBefore <= run[n].pass.mem.cert.notBefore ==>
              run[n].leaves[service].notAfter < run[n].now && !ChainValidAt(run[n].leaves[service], run[n].now)
  {
    RunBase(run, steps, n);
    var s := run[n];
    if service in s.leaves && s.leaves[service].notBefore <= s.pass.mem.cert.notBefore {
      LeafOutlived(s.pass.mem, s.leaves[service], s.now);
    }
  }

  // ---- the single writer ----

  /** An entry of a configuration that a step neither removes nor recreates. */
  ghost predicate Persists(s: State, s': State, key: ConfigKey, i: nat, j: nat) {
    && key in s.configs && key in s'.configs
    && i < |s.configs[key].entries| && j < |s'.configs[key].entries|
    && s.configs[key].entries[i].name == s'.configs[key].entries[j].name
  }

  /** Names are unique in a configuration. */
  lemma SameEntry(s: State, key: ConfigKey, i: nat, j: nat)
    requires ShapeInv(s) && key in s.configs && i < |s.configs[key].entries| && j < |s.configs[key].entries|
    requires s.configs[key].entries[i].name == s.configs[key].entries[j].name
    ensures i == j
  {
    assert WellShaped(s, key, s.configs[key]);
  }

  /** Only PassInject changes the bundle of an entry that persists, and it writes the bundle of the stored Secret. */
  lemma SingleWriter(s: State, step: Step, key: ConfigKey, i: nat, j: nat)
    requires BaseInv(s) && Enabled(s, step) && Persists(s, Do(s, step), key, i, j)
    requires s.configs[key].entries[i].caBundle != Do(s, step).configs[key].entries[j].caBundle
    ensures step.PassInject? && s.ca.Some?
    ensures Do(s, step).configs[key].entries[j].caBundle == CABundle(s.ca.value)
  {
    assert ShapeInv(s);
    hide BaseInv, ShapeInv, Do, Enabled, CABundle;
    if step.WritePolicy? || step.WriteController? {
      WriteKeepsEntry(s, step, key, i, j);
    } else {
      if step.PassInject? { InjectWrites(s, key); } else { OthersKeepConfigs(s, step); }
      if Do(s, step).configs[key] == s.configs[key] { SameEntry(s, key, i, j); }
    }
  }

  /** A write of a reconciler or of an init container that is not refused as stale keeps every live bundle. */
  lemma WriteKeepsEntry(s: State, step: Step, key: ConfigKey, i: nat, j: nat)
    requires BaseInv(s) && Enabled(s, step) && Persists(s, Do(s, step), key, i, j)
    requires step.WritePolicy? || step.WriteController?
    ensures s.configs[key].entries[i].caBundle == Do(s, step).configs[key].entries[j].caBundle
  {
    var w := step.worker;
    assert ShapeInv(s) && VersionInv(s);
    WriteForm(s, step);
    hide BaseInv, ShapeInv, VersionInv, BundleNamed, CABundleForWebhook, CABundle, Do, Enabled;
    if Do(s, step) != s && s.workers[w].key == Some(key) {
      SeenIsThere(s, w);
      if step.WritePolicy? {
        LiveStays(LiveBundle(SeenEntries(s, w)), s.workers[w].secret.value);
      } else {
        InitKeepsEntry(step.template, s.webhookService, SeenEntries(s, w), s.workers[w].secret.value, i, j);
      }
    } else {
      SameEntry(s, key, i, j);
    }
  }

  lemma LiveStays(live: seq<CACert>, secret: CASecret)
    requires live != []
    ensures CABundleForWebhook(live, secret) == live
  {
  }

  lemma InitKeepsEntry(template: seq<string>, service: string, live: seq<Entry>, secret: CASecret, i: nat, j: nat)
    requires DistinctNames(live) && i < |live| && j < |template| && template[j] == live[i].name &&
             live[i].caBundle != []
    ensures InitEntries(template, service, live, secret)[j].caBundle == live[i].caBundle
  {
    BundleNamedFinds(live, i);
  }

  lemma StepKeepsBundle(run: seq<State>, steps: seq<Step>, n: nat, key: ConfigKey, i: nat, j: nat)
    requires IsRun(run, steps) && n < |steps| && !steps[n].PassInject? && Persists(run[n], run[n + 1], key, i, j)
    ensures BundleAt(run[n + 1], key, j) == BundleAt(run[n], key, i)
  {
    RunBase(run, steps, n);
    if BundleAt(run[n + 1], key, j) != BundleAt(run[n], key, i) {
      SingleWriter(run[n], steps[n], key, i, j);
    }
  }

  ghost function BundleAt(s: State, key: ConfigKey, i: nat): seq<CACert> {
    if key in s.configs && i < |s.configs[key].entries| then s.configs[key].entries[i].caBundle else []
  }

  ghost predicate StaysInPlace(run: seq<State>, steps: seq<Step>, key: ConfigKey, at: nat -> nat, n: nat)
    requires n < |steps| < |run|
  {
    !steps[n].PassInject? && Persists(run[n], run[n + 1], key, at(n), at(n + 1))
  }

  /** Over whole runs, with stale reads and writes interleaved in any order: while no injection happens, an entry that
      stays in place keeps its bundle. So no reconcile that started before a rotation reverts the rotated bundle. */
  lemma {:induction false} NoStaleRevert(run: seq<State>, steps: seq<Step>, a: nat, b: nat, key: ConfigKey,
                                         at: nat -> nat)
    requires IsRun(run, steps) && a <= b < |run|
    requires forall n :: a <= n < b ==> StaysInPlace(run, steps, key, at, n)
    ensures BundleAt(run[b], key, at(b)) == BundleAt(run[a], key, at(a))
  {
    if a < b {
      NoStaleRevert(run, steps, a, b - 1, key, at);
      assert StaysInPlace(run, steps, key, at, b - 1);
      StepKeepsBundle(run, steps, b - 1, key, at(b - 1), at(b));
    }
  }
}
