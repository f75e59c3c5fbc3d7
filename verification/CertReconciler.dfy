/**
  One pass of the cert controller, run to its end at one instant. Any API call may fail, and others may succeed after
  it: `failures` counts the failed ones. Other replicas may create a Secret first, and webhook configurations may change
  or disappear after they were listed.
 */
module CertReconciler {
  import opened Options
  import opened Certs
  import opened WebhookConfigs
  import opened Collections
  import P = RotationProtocol

  /** A Secret is broken when a key that the controller reads is missing or empty. */
  datatype StoredCA = Absent | Broken | Stored(value: CASecret)

  /** A certificate Secret. `policyServer` is the label app.kubernetes.io/component: policy-server. */
  datatype CertSecret = CertSecret(policyServer: bool, leaf: Option<Leaf>)

  /** The names of the two certificate Secrets of the controller, and every other name. The name of the Secret of a
      policy server is the name of its Service. */
  datatype SecretName = WebhookServer | AuditScanner | Other(service: string)

  /** Two versions of a configuration that differ at most in the bundles, and only if it is a Kubewarden one. */
  predicate OnlyBundles(before: Config, after: Config) {
    && after.labelled == before.labelled
    && (!before.labelled ==> after == before)
    && |after.entries| == |before.entries|
    && forall i :: 0 <= i < |after.entries| ==>
                     && after.entries[i].name == before.entries[i].name
                     && after.entries[i].service == before.entries[i].service
  }

  lemma SameLabel(before: Config, after: Config)
    requires OnlyBundles(before, after)
    ensures after.labelled == before.labelled
  {
  }

  lemma InjectOnlyBundles(before: Config, current: Config, bundle: seq<CACert>, rv: nat)
    requires OnlyBundles(before, current) && before.labelled
    ensures OnlyBundles(before, Config(rv, current.labelled, InjectEntries(current.entries, bundle)))
    ensures UpToDate(InjectEntries(current.entries, bundle), bundle)
  {
  }

  lemma OnlyBundlesTwice(a: Config, b: Config, c: Config)
    requires OnlyBundles(a, b) && OnlyBundles(b, c)
    ensures OnlyBundles(a, c) && a.labelled == b.labelled == c.labelled
  {
  }

  lemma OnlyBundlesSelf(a: Config)
    ensures OnlyBundles(a, a)
  {
  }

  type Secrets = map<SecretName, CertSecret>

  function PolicyServers(secrets: Secrets): set<SecretName> {
    set n | n in secrets && secrets[n].policyServer
  }

  /** The Secrets whose certificate the controller renews. */
  function ManagedSet(secrets: Secrets): set<SecretName> {
    set n | n in secrets && (n == WebhookServer || n == AuditScanner || secrets[n].policyServer)
  }

  /** No Secret disappears, breaks or changes its labels; only the two Secrets of the controller can be new; a Secret
      that the controller does not manage stays as it is. */
  predicate SecretsKept(before: Secrets, after: Secrets) {
    && before.Keys <= after.Keys <= before.Keys + {WebhookServer, AuditScanner}
    && (forall n :: n in after && n !in before ==> !after[n].policyServer)
    && forall n :: n in before ==>
         && after[n].policyServer == before[n].policyServer
         && (after[n].leaf.None? <==> before[n].leaf.None?)
         && (n !in ManagedSet(before) ==> after[n] == before[n])
  }

  /** Some Secret of `names` lacks its certificate or its key. */
  predicate HasBroken(secrets: Secrets, names: set<SecretName>) {
    exists n :: n in names && n in secrets && secrets[n].leaf.None?
  }

  lemma SecretsKeptSame(secrets: Secrets)
    ensures SecretsKept(secrets, secrets)
  {
  }

  lemma KeptTwice(s0: Secrets, s1: Secrets, s2: Secrets)
    requires SecretsKept(s0, s1) && SecretsKept(s1, s2)
    ensures SecretsKept(s0, s2)
  {
  }

  lemma ManagedParts(secrets: Secrets)
    requires WebhookServer in secrets && AuditScanner in secrets
    ensures ManagedSet(secrets) == {WebhookServer} + PolicyServers(secrets) + {AuditScanner}
  {
  }

  class Cluster {
    const namespace: string
    const webhookService: string
    var now: int
    var nextSerial: nat
    var failures: nat
    var writes: nat
    var ca: StoredCA
    var secrets: map<SecretName, CertSecret>
    var configs: map<P.ConfigKey, Config>

    function DNSName(service: string): string {
      service + "." + namespace + ".svc"
    }

    /** The Secrets of the controller are not labelled as Secrets of a policy server. */
    ghost predicate Valid()
      reads this
    {
      forall n :: n in secrets && (n == WebhookServer || n == AuditScanner) ==> !secrets[n].policyServer
    }

    /** The name that a managed certificate must carry; the name of the client certificate is not checked. */
    function ExpectedName(name: SecretName): string {
      match name
      case WebhookServer => DNSName(webhookService)
      case AuditScanner => ""
      case Other(service) => DNSName(service)
    }

    /** This certificate verifies against this CA root at this instant. */
    ghost predicate Verifies(name: SecretName, secret: CertSecret, root: CACert, at: int) {
      secret.leaf.Some? && VerifyLeaf(secret.leaf.value, [root], ExpectedName(name), at)
    }

    /** Everything listed in `names` verifies. */
    ghost predicate AllVerify(all: Secrets, names: set<SecretName>, root: CACert, at: int) {
      forall n :: n in names ==> n in all && Verifies(n, all[n], root, at)
    }

    /** Everything listed in `names` verifies, except what is broken. */
    ghost predicate IntactVerify(all: Secrets, names: set<SecretName>, root: CACert, at: int) {
      forall n :: n in names ==> n in all && (all[n].leaf.Some? ==> Verifies(n, all[n], root, at))
    }

    /** A certificate that the controller has signed for this Secret, 60 days before `at`: with this root, under the
        name of its server or client, for 365 days. */
    ghost predicate SignedFor(name: SecretName, leaf: Leaf, root: CACert, at: int) {
      && leaf.issuer == root && leaf.key == PrivateKey(leaf.serial, true)
      && leaf.notBefore + 5_184_000 == at && leaf.notAfter == leaf.notBefore + 31_536_000
      && (name.WebhookServer? ==> leaf.dnsName == webhookService + "." + namespace + ".svc")
      && (name.AuditScanner? ==> leaf.dnsName == "audit-scanner-client")
      && (name.Other? ==> leaf.dnsName == name.service + "." + namespace + ".svc")
    }

    /** The second state of a Secret is the first, or replaces a certificate that did not verify by one that does. */
    ghost predicate KeptOrRenewed(name: SecretName, before: CertSecret, after: CertSecret, root: CACert, at: int) {
      || after == before
      || (&& before.leaf.Some? && after.policyServer == before.policyServer
          && !Verifies(name, before, root, at) && Verifies(name, after, root, at)
          && SignedFor(name, after.leaf.value, root, at))
    }

    /** What there was is kept, or renewed. */
    ghost predicate OnlyRenewed(before: Secrets, after: Secrets, root: CACert, at: int) {
      forall n :: n in before && n in after ==> KeptOrRenewed(n, before[n], after[n], root, at)
    }

    lemma RenewedAfterCreated(s0: Secrets, s1: Secrets, s2: Secrets, root: CACert, at: int)
      requires Renewal(s1, s2, root, at) && forall n :: n in s0 ==> n in s1 && s1[n] == s0[n]
      ensures OnlyRenewed(s0, s2, root, at)
    {
    }

    ghost predicate Renewal(before: Secrets, after: Secrets, root: CACert, at: int) {
      && after.Keys == before.Keys && ManagedSet(after) == ManagedSet(before)
      && forall n :: n in after ==>
           && KeptOrRenewed(n, before[n], after[n], root, at)
           && (n !in ManagedSet(before) ==> after[n] == before[n])
    }

    lemma RenewalsCompose(s0: Secrets, s1: Secrets, s2: Secrets, names: set<SecretName>, root: CACert, at: int)
      requires Renewal(s0, s1, root, at) && Renewal(s1, s2, root, at)
      ensures Renewal(s0, s2, root, at)
      ensures ManagedSet(s2) == ManagedSet(s1) == ManagedSet(s0)
      ensures s2 == s0 ==> s1 == s0
      ensures AllVerify(s1, names, root, at) ==> AllVerify(s2, names, root, at)
      ensures IntactVerify(s1, names, root, at) ==> IntactVerify(s2, names, root, at)
      ensures HasBroken(s1, names) ==> HasBroken(s2, names)
    {
    }

    lemma VerifyUnion(all: Secrets, a: set<SecretName>, b: set<SecretName>, root: CACert, at: int)
      ensures AllVerify(all, a, root, at) && AllVerify(all, b, root, at) ==> AllVerify(all, a + b, root, at)
      ensures IntactVerify(all, a, root, at) && IntactVerify(all, b, root, at) ==> IntactVerify(all, a + b, root, at)
      ensures HasBroken(all, a) || HasBroken(all, b) ==> HasBroken(all, a + b)
    {
    }

    lemma NothingToVerify(all: Secrets, root: CACert, at: int)
      ensures Renewal(all, all, root, at) && AllVerify(all, {}, root, at) && IntactVerify(all, {}, root, at)
    {
    }

    lemma RenewalKeepsServers(s0: Secrets, s1: Secrets, root: CACert, at: int)
      requires Renewal(s0, s1, root, at)
      ensures PolicyServers(s1) == PolicyServers(s0) && ManagedSet(s1) == ManagedSet(s0)
    {
    }

    lemma RenewalKeepsSecrets(s0: Secrets, s1: Secrets, s2: Secrets, root: CACert, at: int)
      requires SecretsKept(s0, s1) && Renewal(s1, s2, root, at)
      ensures SecretsKept(s0, s2) && s2.Keys == s1.Keys
    {
    }

    lemma SettledStays(s0: Secrets, s1: Secrets, root: CACert, at: int)
      requires Renewal(s0, s1, root, at) && AllVerify(s0, ManagedSet(s0), root, at)
      ensures s1 == s0
    {
    }

    /**
      What a stretch of a pass over `names` has done: it went well, or not; the certificates in `reached` are those for
      which no call failed, all but so many; without a failed call only a broken Secret is an error.
     */
    ghost predicate Renewed(before: Secrets, after: Secrets, names: set<SecretName>, ok: bool, reached: set<SecretName>,
                            spent: int, root: CACert, at: int) {
      && Renewal(before, after, root, at)
      && (ok ==> AllVerify(after, names, root, at))
      && IntactVerify(after, reached, root, at)
      && AllBut(names, reached, spent)
      && (!ok && spent <= 0 ==> HasBroken(after, names))
    }

    lemma RenewedUnion(s0: Secrets, s1: Secrets, s2: Secrets, a: set<SecretName>, okA: bool, reachedA: set<SecretName>,
                       spentA: nat, b: set<SecretName>, okB: bool, reachedB: set<SecretName>, spentB: nat,
                       root: CACert, at: int)
      requires Renewed(s0, s1, a, okA, reachedA, spentA, root, at) &&
               Renewed(s1, s2, b, okB, reachedB, spentB, root, at)
      ensures Renewed(s0, s2, a + b, okA && okB, reachedA + reachedB, spentA + spentB, root, at)
    {
      hide *;
      RenewedParts(s0, s1, a, okA, reachedA, spentA, root, at);
      RenewedParts(s1, s2, b, okB, reachedB, spentB, root, at);
      RenewalsCompose(s0, s1, s2, a, root, at);
      RenewalsCompose(s0, s1, s2, reachedA, root, at);
      VerifyUnion(s2, a, b, root, at);
      VerifyUnion(s2, reachedA, reachedB, root, at);
      AllButUnion(a, reachedA, spentA, b, reachedB, spentB);
      RenewedParts(s0, s2, a + b, okA && okB, reachedA + reachedB, spentA + spentB, root, at);
    }

    lemma RenewedParts(before: Secrets, after: Secrets, names: set<SecretName>, ok: bool, reached: set<SecretName>,
                       spent: int, root: CACert, at: int)
      ensures Renewed(before, after, names, ok, reached, spent, root, at) <==>
              && Renewal(before, after, root, at)
              && (ok ==> AllVerify(after, names, root, at))
              && IntactVerify(after, reached, root, at)
              && AllBut(names, reached, spent)
              && (!ok && spent <= 0 ==> HasBroken(after, names))
    {
      hide Renewal, AllVerify, IntactVerify, AllBut, HasBroken;
    }

    lemma NothingRenewed(s: Secrets, root: CACert, at: int)
      ensures Renewed(s, s, {}, true, {}, 0, root, at)
    {
      hide AllBut;
      NoneYet<SecretName>();
    }

    /** A certificate whose Secret could not be read. */
    lemma NotReached(s: Secrets, name: SecretName, root: CACert, at: int)
      ensures Renewed(s, s, {name}, false, {}, 1, root, at)
    {
      var none: set<SecretName> := {};
      assert {name} - none == {name};
    }

    /** A certificate that verifies, or whose Secret is broken, is left alone. */
    lemma LeftAlone(s: Secrets, name: SecretName, root: CACert, at: int)
      requires name in s && (s[name].leaf.Some? ==> Verifies(name, s[name], root, at))
      ensures Renewed(s, s, {name}, s[name].leaf.Some?, {name}, 0, root, at)
    {
      hide VerifyLeaf;
      assert {name} - {name} == {};
    }

    /** A certificate that does not verify is replaced by one that does. */
    lemma Replaced(s: Secrets, name: SecretName, leaf: Leaf, root: CACert, at: int)
      requires name in ManagedSet(s) && s[name].leaf.Some? && !Verifies(name, s[name], root, at)
      requires Verifies(name, s[name].(leaf := Some(leaf)), root, at) && SignedFor(name, leaf, root, at)
      ensures Renewed(s, s[name := s[name].(leaf := Some(leaf))], {name}, true, {name}, 0, root, at)
    {
      hide Verifies, SignedFor;
      assert {name} - {name} == {};
    }

    /** One more failed call, and the stretch is a failure. */
    lemma OneMoreFailure(s0: Secrets, s1: Secrets, names: set<SecretName>, ok: bool, reached: set<SecretName>,
                         spent: nat, root: CACert, at: int)
      requires Renewed(s0, s1, names, ok, reached, spent, root, at)
      ensures Renewed(s0, s1, names, false, reached, spent + 1, root, at)
    {
      hide Renewal, AllVerify, IntactVerify, HasBroken;
    }

    ghost predicate BundlesWritten(secret: CASecret)
      reads this`configs
    {
      forall k :: k in configs && configs[k].labelled ==> UpToDate(configs[k].entries, CABundle(secret))
    }

    ghost predicate RootSettled(secret: CASecret)
      reads this`now
    {
      !MustRotate(secret, now) && !MustDropOld(secret, now)
    }

    /** What a pass is for: the bundles are those of the Secret and every managed certificate verifies. */
    ghost predicate Converged()
      reads this
    {
      && ca.Stored? && RootSettled(ca.value) && BundlesWritten(ca.value)
      && WebhookServer in secrets && AuditScanner in secrets
      && AllVerify(secrets, ManagedSet(secrets), ca.value.cert, now + LOOKAHEAD)
    }

    /** The certificate of a managed Secret, read off its fields: signed by the root, with its key, in its period 60
        days from now, and under the name of the server that presents it. */
    ghost predicate InForce(name: SecretName, root: CACert)
      reads this
      requires name in secrets
    {
      && secrets[name].leaf.Some?
      && var leaf := secrets[name].leaf.value;
         && leaf.issuer == root && leaf.key == PrivateKey(leaf.serial, true)
         && leaf.notBefore <= now + 5_184_000 <= leaf.notAfter
         && (name.WebhookServer? ==> leaf.dnsName == webhookService + "." + namespace + ".svc")
         && (name.Other? ==> leaf.dnsName == name.service + "." + namespace + ".svc")
    }

    /** What a converged cluster looks like, field by field. */
    lemma ConvergedMeans()
      requires ca.Stored?
      ensures Converged() <==>
              var CASecret(cert, key, previous) := ca.value;
              && key == PrivateKey(cert.serial, true) && cert.notBefore <= now + 5_184_000 <= cert.notAfter
              && (previous.Some? ==> previous.value.notBefore <= now <= previous.value.notAfter)
              && (forall k, i :: k in configs && configs[k].labelled && 0 <= i < |configs[k].entries| ==>
                    configs[k].entries[i].caBundle == if previous.Some? then [cert, previous.value] else [cert])
              && WebhookServer in secrets && AuditScanner in secrets
              && forall n :: n in secrets && (n == WebhookServer || n == AuditScanner || secrets[n].policyServer) ==>
                               InForce(n, cert)
    {
      BundlesMean(ca.value);
      hide BundlesWritten, InForce, Verifies;
      assert ca.value.key == PrivateKey(ca.value.key.serial, ca.value.key.ec);
      forall n | n in secrets && ValidAt(ca.value.cert, now + LOOKAHEAD)
        ensures Verifies(n, secrets[n], ca.value.cert, now + LOOKAHEAD) <==> InForce(n, ca.value.cert)
      {
        InForceMeans(n, ca.value.cert);
      }
    }

    lemma HasName(service: string)
      ensures DNSName(service) != ""
    {
      assert |DNSName(service)| >= 1;
    }

    lemma InForceMeans(name: SecretName, root: CACert)
      requires name in secrets && ValidAt(root, now + LOOKAHEAD)
      ensures Verifies(name, secrets[name], root, now + LOOKAHEAD) <==> InForce(name, root)
    {
      if secrets[name].leaf.Some? {
        var key := secrets[name].leaf.value.key;
        assert key == PrivateKey(key.serial, key.ec);
      }
      assert root in [root];
      HasName(webhookService);
      if name.Other? { HasName(name.service); }
    }

    lemma BundlesMean(secret: CASecret)
      ensures BundlesWritten(secret) <==>
              forall k, i :: k in configs && configs[k].labelled && 0 <= i < |configs[k].entries| ==>
                configs[k].entries[i].caBundle ==
                if secret.previous.Some? then [secret.cert, secret.previous.value] else [secret.cert]
    {
      assert CABundle(secret) == if secret.previous.Some? then [secret.cert, secret.previous.value] else [secret.cert];
      hide CABundle;
    }

    twostate predicate ConfigsKept()
      reads this
    {
      && configs.Keys <= old(configs).Keys
      && forall k :: k in configs ==> OnlyBundles(old(configs)[k], configs[k])
    }

    /** What no pass changes: where the webhooks of the configurations that are left point, and every foreign object. */
    twostate predicate Untouched()
      reads this
    {
      && now == old(now)
      && ConfigsKept()
      && SecretsKept(old(secrets), secrets)
    }

    method Call() returns (ok: bool)
      modifies this`failures
      ensures failures == if ok then old(failures) else old(failures) + 1
    {
      ok := *;
      if !ok { failures := failures + 1; }
    }

    /** EnsureCARootSecret: read the CA root Secret, or create it, or read the one that another replica created
        first. */
    method EnsureCARoot() returns (ok: bool, mem: StoredCA)
      modifies this`failures, this`writes, this`ca, this`nextSerial
      ensures failures >= old(failures) && (!ok ==> failures > old(failures))
      ensures ok ==> ca == mem && !mem.Absent?
      ensures old(!ca.Absent?) ==> ca == old(ca) && writes == old(writes)
      ensures old(ca.Absent?) && !ca.Absent? ==> ca.Stored? && !MustRotate(ca.value, now) && ca.value.previous.None?
    {
      mem := ca;
      ok := Call();
      if !ok || !ca.Absent? { return; }
      ok := Call();
      if !ok { return; }
      var root := GenerateCA(nextSerial, now);
      nextSerial := nextSerial + 1;
      if * {
        ca := Stored(CASecret(root, PrivateKey(root.serial, true), None));
        writes := writes + 1;
      } else {
        // another replica stored a root of its own; the create says that the Secret exists, and that one is read
        var other := GenerateCA(nextSerial, now);
        nextSerial := nextSerial + 1;
        ca := Stored(CASecret(other, PrivateKey(other.serial, true), None));
        ok := Call();
      }
      mem := ca;
    }

    /** updateSecretWithRetry on the CA root Secret: a read and a write. */
    method UpdateCARoot(secret: CASecret) returns (ok: bool)
      modifies this`failures, this`writes, this`ca
      ensures failures >= old(failures) && (!ok ==> failures > old(failures))
      ensures ca == if ok then Stored(secret) else old(ca)
    {
      ok := Call();
      if !ok { return; }
      ok := Call();
      if !ok { return; }
      ca := Stored(secret);
      writes := writes + 1;
    }

    method ReconcileCARoot(mem: CASecret) returns (ok: bool, mem': CASecret)
      requires ca == Stored(mem)
      modifies this`failures, this`writes, this`ca, this`nextSerial
      ensures failures >= old(failures) && (!ok ==> failures > old(failures))
      ensures ok ==> ca == Stored(mem') && !MustRotate(mem', now)
      ensures !MustRotate(mem, now) ==> ok && mem' == mem && ca == old(ca) && writes == old(writes)
      ensures ok && MustRotate(mem, now) ==> mem'.previous == Some(mem.cert)
      ensures ok || ca == old(ca)
    {
      ok, mem' := true, mem;
      if !VerifyCA(mem.cert, Some(mem.key), now + LOOKAHEAD) {
        mem' := Rotate(mem, GenerateCA(nextSerial, now));
        nextSerial := nextSerial + 1;
        ok := UpdateCARoot(mem');
      }
    }

    method ReconcileOldCARoot(mem: CASecret) returns (ok: bool, mem': CASecret)
      requires ca == Stored(mem) && !MustRotate(mem, now)
      modifies this`failures, this`writes, this`ca
      ensures failures >= old(failures) && (!ok ==> failures > old(failures))
      ensures ok ==> ca == Stored(mem') && RootSettled(mem') && mem'.cert == mem.cert
      ensures !MustDropOld(mem, now) ==> ok && mem' == mem && ca == old(ca) && writes == old(writes)
    {
      ok, mem' := true, mem;
      if mem.previous.Some? && !VerifyCA(mem.previous.value, None, now) {
        mem' := DropOld(mem);
        ok := UpdateCARoot(mem');
      }
    }

    /**
      injectCABundle on one listed configuration. The patch is refused if somebody has changed the configuration since
      it was listed; if somebody has deleted it, there is nothing left to do.
     */
    method InjectCABundle(key: P.ConfigKey, bundle: seq<CACert>) returns (ok: bool)
      requires key in configs && configs[key].labelled
      modifies this`failures, this`writes, this`configs
      ensures failures >= old(failures) && (!ok ==> failures > old(failures))
      ensures configs == if key in configs then old(configs)[key := configs[key]] else old(configs) - {key}
      ensures key in configs ==> OnlyBundles(old(configs)[key], configs[key])
      ensures ok && key in configs ==> UpToDate(configs[key].entries, bundle)
      ensures old(UpToDate(configs[key].entries, bundle)) ==> ok && configs == old(configs) && writes == old(writes)
    {
      var entries, changed := InjectLoop(configs[key].entries, bundle);
      ok := true;
      if changed {
        ok := Call();
        if !ok {
          if * { configs := configs[key := configs[key].(rv := configs[key].rv + 1)]; }
          return;
        }
        if * {
          configs := configs - {key};
          return;
        }
        InjectOnlyBundles(configs[key], configs[key], bundle, configs[key].rv + 1);
        configs := configs[key := Config(configs[key].rv + 1, configs[key].labelled, entries)];
        writes := writes + 1;
      }
    }

    /** The loops of reconcileCABundles over what was listed. */
    method InjectCABundles(order: seq<P.ConfigKey>, mem: CASecret) returns (ok: bool)
      requires NoDuplicates(order) && forall k :: k in order <==> k in configs && configs[k].labelled
      modifies this`failures, this`writes, this`configs
      ensures failures >= old(failures) && (!ok ==> failures > old(failures))
      ensures ok ==> BundlesWritten(mem)
      ensures ConfigsKept()
      ensures old(BundlesWritten(mem)) ==> configs == old(configs) && writes == old(writes)
    {
      hide UpToDate, CABundle, OnlyBundles;
      forall k | k in configs ensures OnlyBundles(configs[k], configs[k]) { OnlyBundlesSelf(configs[k]); }
      ok := true;
      for i := 0 to |order|
        invariant ConfigsKept() && ok && failures >= old(failures)
        invariant forall k :: k in configs && configs[k].labelled ==> k in order
        invariant forall j :: i <= j < |order| ==> order[j] in configs && configs[order[j]].labelled
        invariant forall j :: 0 <= j < i && order[j] in configs ==> UpToDate(configs[order[j]].entries, CABundle(mem))
        invariant old(BundlesWritten(mem)) ==> configs == old(configs) && writes == old(writes)
      {
        ghost var before := configs;
        ok := InjectCABundle(order[i], CABundle(mem));
        if order[i] in configs {
          OnlyBundlesTwice(old(configs)[order[i]], before[order[i]], configs[order[i]]);
          SameLabel(before[order[i]], configs[order[i]]);
        }
        if !ok { return; }
      }
    }

    /** reconcileCABundles: list both kinds, then inject the bundle into each configuration. */
    method ReconcileCABundles(mem: CASecret) returns (ok: bool)
      modifies this`failures, this`writes, this`configs
      ensures failures >= old(failures) && (!ok ==> failures > old(failures))
      ensures ok ==> BundlesWritten(mem)
      ensures ConfigsKept()
      ensures old(BundlesWritten(mem)) ==> configs == old(configs) && writes == old(writes)
    {
      hide UpToDate, CABundle, OnlyBundles;
      forall k | k in configs ensures OnlyBundles(configs[k], configs[k]) { OnlyBundlesSelf(configs[k]); }
      ok := Call();
      if !ok { return; }
      ok := Call();
      if !ok { return; }
      var order := Enumerate(set k | k in configs && configs[k].labelled);
      ok := InjectCABundles(order, mem);
    }

    /** ensureSecret for a certificate that the controller signs; another replica may create it first, with its own. */
    method EnsureSigned(mem: CASecret, secretName: SecretName, certName: string) returns (ok: bool)
      modifies this`failures, this`writes, this`secrets, this`nextSerial
      ensures failures >= old(failures) && (!ok ==> failures > old(failures))
      ensures ok ==> secretName in secrets
      ensures secretName in old(secrets) ==> secrets == old(secrets) && writes == old(writes)
      ensures forall n :: n in old(secrets) ==> n in secrets && secrets[n] == old(secrets)[n]
      ensures secretName in {WebhookServer, AuditScanner} ==> SecretsKept(old(secrets), secrets)
      // a certificate that is created here is signed with the root of `mem`, under this name and for 365 days
      ensures writes == old(writes) || writes == old(writes) + 1
      ensures writes != old(writes) ==>
                && secretName !in old(secrets) && secretName in secrets && secrets[secretName].leaf.Some?
                && var leaf := secrets[secretName].leaf.value;
                   && leaf.issuer == mem.cert && leaf.dnsName == certName && leaf.key == PrivateKey(leaf.serial, true)
                   && leaf.notBefore == now && leaf.notAfter == now + 31_536_000
                   && (!MustRotate(mem, now) ==> VerifyLeaf(leaf, [mem.cert], certName, now + 5_184_000))
    {
      ok := Call();
      if !ok || secretName in secrets { return; }
      ok := Call();
      if !ok { return; }
      if * {
        secrets := secrets[secretName := CertSecret(false, Some(GenerateLeaf(mem.cert, nextSerial, now, certName)))];
        nextSerial := nextSerial + 1;
        writes := writes + 1;
      } else {
        var leaf: Leaf := *;
        secrets := secrets[secretName := CertSecret(false, Some(leaf))];
        ok := Call();
      }
    }

    /**
      reconcileServerCert and reconcileAuditScannerClientCert: renew the certificate if it does not verify. `reached` is
      the certificate, unless a call for it failed.
     */
    method ReconcileCert(mem: CASecret, name: SecretName) returns (ok: bool, ghost reached: set<SecretName>)
      requires name in ManagedSet(secrets) && !MustRotate(mem, now)
      modifies this`failures, this`writes, this`secrets, this`nextSerial
      ensures failures >= old(failures) && (secrets == old(secrets) ==> writes == old(writes))
      ensures Renewed(old(secrets), secrets, {name}, ok, reached, failures - old(failures), mem.cert, now + LOOKAHEAD)
    {
      hide Renewed, Renewal;
      ok, reached := secrets[name].leaf.Some?, {name};
      if ok && !VerifyLeaf(secrets[name].leaf.value, [mem.cert], ExpectedName(name), now + LOOKAHEAD) {
        var certName := if name == AuditScanner then "audit-scanner-client" else ExpectedName(name);
        ok := Call();
        if ok { ok := Call(); }
        if !ok {
          // one of the two calls failed
          reached := {};
          NotReached(secrets, name, mem.cert, now + LOOKAHEAD);
          return;
        }
        var leaf := GenerateLeaf(mem.cert, nextSerial, now, certName);
        Replaced(secrets, name, leaf, mem.cert, now + LOOKAHEAD);
        secrets := secrets[name := secrets[name].(leaf := Some(leaf))];
        nextSerial := nextSerial + 1;
        writes := writes + 1;
      } else {
        LeftAlone(secrets, name, mem.cert, now + LOOKAHEAD);
      }
    }

    /**
      The loop over the listed certificates: one that cannot rotate does not hold back the others, whether its Secret is
      broken or a call for it fails. Each failed call costs one certificate.
     */
    method RenewEach(mem: CASecret, names: seq<SecretName>) returns (ok: bool, ghost reached: set<SecretName>)
      requires !MustRotate(mem, now) && forall i :: 0 <= i < |names| ==> names[i] in ManagedSet(secrets)
      modifies this`failures, this`writes, this`secrets, this`nextSerial
      ensures failures >= old(failures) && (secrets == old(secrets) ==> writes == old(writes))
      ensures Renewed(old(secrets), secrets, (set n | n in names), ok, reached, failures - old(failures), mem.cert,
                      now + LOOKAHEAD)
    {
      hide *;
      ok, reached := true, {};
      ghost var s0, at := secrets, now + LOOKAHEAD;
      ghost var done: set<SecretName> := {};
      NothingRenewed(s0, mem.cert, at);
      for i := 0 to |names|
        invariant failures >= old(failures) && (secrets == s0 ==> writes == old(writes))
        invariant ManagedSet(secrets) == ManagedSet(s0) && done == set n | n in names[..i]
        invariant Renewed(s0, secrets, done, ok, reached, failures - old(failures), mem.cert, at)
      {
        ghost var s1, spent := secrets, failures - old(failures);
        var renewed;
        ghost var also;
        renewed, also := ReconcileCert(mem, names[i]);
        RenewedUnion(s0, s1, secrets, done, ok, reached, spent, {names[i]}, renewed, also,
                     failures - old(failures) - spent, mem.cert, at);
        RenewedKeeps(s0, s1, secrets, done, ok, reached, spent, {names[i]}, renewed, also,
                     failures - old(failures) - spent, mem.cert, at);
        assert names[..i + 1] == names[..i] + [names[i]];
        done, reached := done + {names[i]}, reached + also;
        ok := ok && renewed;
      }
      assert names[..|names|] == names;
    }

    lemma RenewedKeeps(s0: Secrets, s1: Secrets, s2: Secrets, a: set<SecretName>, okA: bool, reachedA: set<SecretName>,
                       spentA: int, b: set<SecretName>, okB: bool, reachedB: set<SecretName>, spentB: int,
                       root: CACert, at: int)
      requires Renewed(s0, s1, a, okA, reachedA, spentA, root, at) &&
               Renewed(s1, s2, b, okB, reachedB, spentB, root, at)
      ensures s2 == s0 ==> s1 == s0
      ensures ManagedSet(s2) == ManagedSet(s1) == ManagedSet(s0) && PolicyServers(s1) == PolicyServers(s0)
    {
      hide *;
      RenewedParts(s0, s1, a, okA, reachedA, spentA, root, at);
      RenewedParts(s1, s2, b, okB, reachedB, spentB, root, at);
      RenewalsCompose(s0, s1, s2, a, root, at);
      RenewalKeepsServers(s0, s1, root, at);
    }

    /** reconcileServerCerts: the webhook server, then every policy server, unless they cannot be listed. */
    method ReconcileServerCerts(mem: CASecret) returns (ok: bool, ghost reached: set<SecretName>)
      requires Valid() && !MustRotate(mem, now) && WebhookServer in ManagedSet(secrets)
      requires PolicyServers(secrets) <= ManagedSet(secrets)
      modifies this`failures, this`writes, this`secrets, this`nextSerial
      ensures failures >= old(failures) && (secrets == old(secrets) ==> writes == old(writes))
      ensures var spent := failures - old(failures);
              || Renewed(old(secrets), secrets, {WebhookServer} + PolicyServers(old(secrets)), ok, reached, spent,
                         mem.cert, now + LOOKAHEAD)
              || (!ok && spent > 0 &&
                  Renewed(old(secrets), secrets, {WebhookServer}, false, reached, spent, mem.cert, now + LOOKAHEAD))
    {
      hide *;
      ghost var s0, at := secrets, now + LOOKAHEAD;
      NotReached(s0, WebhookServer, mem.cert, at);
      reached := {};
      ok := Call();
      if ok { ok, reached := ReconcileCert(mem, WebhookServer); }
      ghost var s1, first, spent := secrets, reached, failures - old(failures);
      OneMoreFailure(s0, s1, {WebhookServer}, ok, first, spent, mem.cert, at);
      RenewedServers(s0, s1, {WebhookServer}, ok, first, spent, mem.cert, at);
      var listed := Call();
      if !listed { ok := false; return; }
      var order := Enumerate(PolicyServers(secrets));
      assert (set n | n in order) == PolicyServers(s0);
      assert forall i :: 0 <= i < |order| ==> order[i] in order;
      listed, reached := RenewEach(mem, order);
      RenewedUnion(s0, s1, secrets, {WebhookServer}, ok, first, spent, PolicyServers(s0), listed, reached,
                   failures - old(failures) - spent, mem.cert, at);
      RenewedKeeps(s0, s1, secrets, {WebhookServer}, ok, first, spent, PolicyServers(s0), listed, reached,
                   failures - old(failures) - spent, mem.cert, at);
      reached := first + reached;
      ok := ok && listed;
    }

    lemma RenewedServers(s0: Secrets, s1: Secrets, names: set<SecretName>, ok: bool, reached: set<SecretName>,
                         spent: int, root: CACert, at: int)
      requires Renewed(s0, s1, names, ok, reached, spent, root, at)
      ensures PolicyServers(s1) == PolicyServers(s0) && ManagedSet(s1) == ManagedSet(s0)
    {
      hide *;
      RenewedParts(s0, s1, names, ok, reached, spent, root, at);
      RenewalKeepsServers(s0, s1, root, at);
    }

    /** reconcileServerCerts, then reconcileAuditScannerClientCert, whatever became of the first. */
    method ReconcileCerts(mem: CASecret) returns (ok: bool, ghost reached: set<SecretName>)
      requires Valid() && !MustRotate(mem, now)
      requires WebhookServer in secrets && AuditScanner in secrets
      modifies this`failures, this`writes, this`secrets, this`nextSerial
      ensures failures >= old(failures) && (secrets == old(secrets) ==> writes == old(writes))
      ensures var spent := failures - old(failures);
              || Renewed(old(secrets), secrets, ManagedSet(old(secrets)), ok, reached, spent, mem.cert, now + LOOKAHEAD)
              || (!ok && spent > 0 &&
                  Renewed(old(secrets), secrets, {WebhookServer} + {AuditScanner}, false, reached, spent, mem.cert,
                          now + LOOKAHEAD))
    {
      hide *;
      ghost var s0, at := secrets, now + LOOKAHEAD;
      ManagedParts(s0);
      ok, reached := ReconcileServerCerts(mem);
      ghost var s1, first, spent := secrets, reached, failures - old(failures);
      ghost var names := {WebhookServer} + PolicyServers(s0);
      if !Renewed(s0, s1, names, ok, first, spent, mem.cert, at) { names := {WebhookServer}; }
      assert Renewed(s0, s1, names, ok, first, spent, mem.cert, at);
      RenewedServers(s0, s1, names, ok, first, spent, mem.cert, at);
      NotReached(s1, AuditScanner, mem.cert, at);
      reached := {};
      var found := Call();
      if found { found, reached := ReconcileCert(mem, AuditScanner); }
      RenewedUnion(s0, s1, secrets, names, ok, first, spent, {AuditScanner}, found, reached,
                   failures - old(failures) - spent, mem.cert, at);
      RenewedKeeps(s0, s1, secrets, names, ok, first, spent, {AuditScanner}, found, reached,
                   failures - old(failures) - spent, mem.cert, at);
      reached := first + reached;
      ok := ok && found;
    }

    /** The first half of a pass: the CA root Secret and the bundles. */
    method ReconcileTrust() returns (ok: bool, mem: CASecret)
      modifies this`failures, this`writes, this`ca, this`nextSerial, this`configs
      ensures failures >= old(failures) && (!ok ==> failures > old(failures) || ca.Broken?)
      ensures ConfigsKept()
      ensures ok ==> ca == Stored(mem) && RootSettled(mem) && BundlesWritten(mem)
      ensures old(ca.Stored? && RootSettled(ca.value) && BundlesWritten(ca.value)) ==>
                ca == old(ca) && configs == old(configs) && writes == old(writes)
    {
      hide OnlyBundles, UpToDate, CABundle;
      forall k | k in configs ensures OnlyBundles(configs[k], configs[k]) { OnlyBundlesSelf(configs[k]); }
      var stored: StoredCA;
      mem := CASecret(CACert(0, 0, 0), PrivateKey(0, true), None);
      ok, stored := EnsureCARoot();
      if !ok { return; }
      if stored.Broken? { ok := false; return; }
      ok, mem := ReconcileCARoot(stored.value);
      if !ok { return; }
      ok, mem := ReconcileOldCARoot(mem);
      if !ok { return; }
      ok := ReconcileCABundles(mem);
    }

    /** EnsureSignedCertificateSecrets: the certificate of the webhook server, then that of the audit scanner. `created`
        are those that are created here, and not by another replica. */
    method EnsureSignedSecrets(mem: CASecret) returns (ok: bool, ghost created: set<SecretName>)
      modifies this`failures, this`writes, this`secrets, this`nextSerial
      ensures failures >= old(failures) && (!ok ==> failures > old(failures))
      ensures ok ==> WebhookServer in secrets && AuditScanner in secrets
      ensures SecretsKept(old(secrets), secrets)
      ensures forall n :: n in old(secrets) ==> n in secrets && secrets[n] == old(secrets)[n]
      ensures WebhookServer in old(secrets) && AuditScanner in old(secrets) ==>
                secrets == old(secrets) && writes == old(writes)
      ensures created <= {WebhookServer, AuditScanner} - old(secrets).Keys && |created| == writes - old(writes)
      ensures forall n :: n in created ==>
                && n in secrets && secrets[n].leaf.Some?
                && SignedFor(n, secrets[n].leaf.value, mem.cert, now + 5_184_000)
    {
      hide SecretsKept, VerifyLeaf, MustRotate;
      created := {};
      ghost var s0, w0 := secrets, writes;
      ok := EnsureSigned(mem, WebhookServer, DNSName(webhookService));
      if writes != w0 { created := {WebhookServer}; }
      if !ok { return; }
      ghost var s1, w1 := secrets, writes;
      ok := EnsureSigned(mem, AuditScanner, "audit-scanner-client");
      if writes != w1 { created := created + {AuditScanner}; }
      KeptTwice(s0, s1, secrets);
    }

    /** The second half of a pass: create the missing certificates and renew the others. */
    method ReconcileSigned(mem: CASecret) returns (ok: bool, ghost reached: set<SecretName>)
      requires Valid() && !MustRotate(mem, now)
      modifies this`failures, this`writes, this`secrets, this`nextSerial
      ensures SecretsKept(old(secrets), secrets) && OnlyRenewed(old(secrets), secrets, mem.cert, now + LOOKAHEAD)
      ensures ok ==> WebhookServer in secrets && AuditScanner in secrets
      ensures ok ==> AllVerify(secrets, ManagedSet(secrets), mem.cert, now + LOOKAHEAD)
      ensures failures >= old(failures) && IntactVerify(secrets, reached, mem.cert, now + LOOKAHEAD)
      ensures || AllBut(ManagedSet(secrets), reached, failures - old(failures))
              || (reached <= {WebhookServer, AuditScanner} && failures > old(failures))
      ensures !ok && failures == old(failures) ==> HasBroken(secrets, ManagedSet(secrets))
      ensures WebhookServer in old(secrets) && AuditScanner in old(secrets) &&
              AllVerify(old(secrets), ManagedSet(old(secrets)), mem.cert, now + LOOKAHEAD) ==>
                secrets == old(secrets) && writes == old(writes)
    {
      hide *;
      reached := {};
      ghost var s0, at := secrets, now + LOOKAHEAD;
      ghost var created;
      assert ControllersOwn(s0) by { OwnOfController(); }
      ok, created := EnsureSignedSecrets(mem);
      ghost var s1 := secrets;
      NothingToVerify(s1, mem.cert, at);
      RenewedAfterCreated(s0, s1, s1, mem.cert, at);
      ControllersOwnStays(s0, s1);
      if !ok { return; }
      ghost var failed := failures - old(failures);
      OwnOfController();
      ok, reached := ReconcileCerts(mem);
      ghost var spent := failures - old(failures) - failed;
      SignedOutcome(s0, s1, secrets, ok, reached, spent, mem.cert, at);
      MoreMissing(ManagedSet(secrets), reached, spent, failures - old(failures));
    }

    ghost predicate ControllersOwn(all: Secrets) {
      forall n :: n in all && (n == WebhookServer || n == AuditScanner) ==> !all[n].policyServer
    }

    lemma OwnOfController()
      ensures ControllersOwn(secrets) <==> Valid()
    {
    }

    lemma ControllersOwnStays(before: Secrets, after: Secrets)
      requires SecretsKept(before, after) && ControllersOwn(before)
      ensures ControllersOwn(after)
    {
    }

    /** What creating the missing certificates and then renewing comes to. */
    lemma SignedOutcome(s0: Secrets, s1: Secrets, s2: Secrets, ok: bool, reached: set<SecretName>, spent: int,
                        root: CACert, at: int)
      requires SecretsKept(s0, s1) && forall n :: n in s0 ==> n in s1 && s1[n] == s0[n]
      requires WebhookServer in s1 && AuditScanner in s1
      requires || Renewed(s1, s2, ManagedSet(s1), ok, reached, spent, root, at)
               || (!ok && spent > 0 && Renewed(s1, s2, {WebhookServer} + {AuditScanner}, false, reached, spent, root,
                                               at))
      ensures SecretsKept(s0, s2) && OnlyRenewed(s0, s2, root, at) && WebhookServer in s2 && AuditScanner in s2
      ensures IntactVerify(s2, reached, root, at) && (ok ==> AllVerify(s2, ManagedSet(s2), root, at))
      ensures AllBut(ManagedSet(s2), reached, spent) || (reached <= {WebhookServer, AuditScanner} && spent > 0)
      ensures !ok && spent <= 0 ==> HasBroken(s2, ManagedSet(s2))
      ensures AllVerify(s1, ManagedSet(s1), root, at) ==> s2 == s1
    {
      hide *;
      RenewedParts(s1, s2, ManagedSet(s1), ok, reached, spent, root, at);
      RenewedParts(s1, s2, {WebhookServer} + {AuditScanner}, false, reached, spent, root, at);
      RenewalKeepsServers(s1, s2, root, at);
      RenewalKeepsSecrets(s0, s1, s2, root, at);
      RenewedAfterCreated(s0, s1, s2, root, at);
      if AllVerify(s1, ManagedSet(s1), root, at) { SettledStays(s1, s2, root, at); }
      if AllBut({WebhookServer} + {AuditScanner}, reached, spent) {
        ReachedAmong({WebhookServer} + {AuditScanner}, reached, spent);
      }
    }

    /** One pass. `reached` are the certificates it got to, with no failed call for them. */
    method Reconcile() returns (ok: bool, ghost reached: set<SecretName>)
      requires Valid()
      modifies this
      ensures Valid() && Untouched()
      // an error-free pass converges
      ensures ok ==> Converged()
      // every certificate that the pass got to and that is not broken verifies, whatever happened to the others
      ensures reached != {} ==> ca.Stored? && IntactVerify(secrets, reached, ca.value.cert, now + LOOKAHEAD)
      // a certificate changes only if it did not verify, and then it is signed now with the stored root, for 365 days
      ensures ca.Stored? ==> OnlyRenewed(old(secrets), secrets, ca.value.cert, now + 5_184_000)
      ensures !ca.Stored? ==> secrets == old(secrets)
      // a pass in which no call fails gets to all of them, and writes every bundle
      ensures failures == old(failures) && ca.Stored? ==>
                && RootSettled(ca.value) && BundlesWritten(ca.value)
                && ManagedSet(secrets) <= reached
      // a pass fails only if a call fails or a Secret is broken
      ensures failures == old(failures) && !ok ==> ca.Broken? || HasBroken(secrets, ManagedSet(secrets))
      // a pass on a converged cluster writes nothing, so the passes that its own writes trigger stop
      ensures old(Converged()) ==>
                writes == old(writes) && ca == old(ca) && secrets == old(secrets) && configs == old(configs)
    {
      hide AllVerify, IntactVerify, BundlesWritten, ManagedSet, OnlyBundles, HasBroken;
      var mem: CASecret;
      reached := {};
      ok, mem := ReconcileTrust();
      if !ok { SecretsKeptSame(secrets); return; }
      ok, reached := ReconcileSigned(mem);
      if failures == old(failures) { NoneLeft(ManagedSet(secrets), reached); }
    }
  }

  /** All but so many of these were reached. */
  ghost predicate AllBut<T>(all: set<T>, reached: set<T>, missing: int) {
    reached <= all && |all - reached| <= missing
  }

  lemma MoreMissing<T>(all: set<T>, reached: set<T>, missing: int, more: int)
    requires missing <= more
    ensures AllBut(all, reached, missing) ==> AllBut(all, reached, more)
  {
  }

  lemma ReachedAmong<T>(all: set<T>, reached: set<T>, missing: int)
    requires AllBut(all, reached, missing)
    ensures reached <= all
  {
  }

  lemma NoneYet<T>()
    ensures AllBut<T>({}, {}, 0)
  {
    var none: set<T> := {};
    assert none - none == {};
  }

  lemma AllButUnion<T>(a: set<T>, reachedA: set<T>, missingA: int, b: set<T>, reachedB: set<T>, missingB: int)
    requires AllBut(a, reachedA, missingA) && AllBut(b, reachedB, missingB)
    ensures AllBut(a + b, reachedA + reachedB, missingA + missingB)
  {
    var left, right := a - reachedA, b - reachedB;
    var more := (a + b) - (reachedA + reachedB);
    assert more <= left + right;
    Smaller(more, left + right);
    assert |left + right| + |left * right| == |left| + |right|;
  }

  lemma {:induction false} Smaller<T>(a: set<T>, b: set<T>)
    requires a <= b
    ensures |a| <= |b|
  {
    if a != {} {
      var x :| x in a;
      Smaller(a - {x}, b - {x});
    }
  }

  lemma NoneLeft<T>(all: set<T>, reached: set<T>)
    requires AllBut(all, reached, 0)
    ensures all == reached
  {
    var left := all - reached;
    assert left == {} && forall x :: x in all ==> x in reached || x in left;
  }
}
