/**
  `CreateSafe` is exact: from any state that the invariants allow, a write that breaks it leads to a trust gap, at once
  or when the running pass signs, and a write that keeps it never does.
 */
module RotationNecessity {
  import opened Options
  import opened Collections
  import opened Certs
  import opened WebhookConfigs
  import opened RotationProtocol
  import opened RotationProof

  /** Steps one after the other; None when one of them is not possible, or is itself an unsafe write. */
  ghost function AfterSafely(s: State, steps: seq<Step>): Option<State>
    decreases |steps|
  {
    if steps == [] then Some(s)
    else if Enabled(s, steps[0]) && CreateSafe(s, steps[0]) then AfterSafely(Do(s, steps[0]), steps[1..])
    else None
  }

  lemma FirstStep(s: State, step: Step, rest: seq<Step>)
    requires Enabled(s, step) && CreateSafe(s, step)
    ensures AfterSafely(s, [step] + rest) == AfterSafely(Do(s, step), rest)
  {
    assert ([step] + rest)[1..] == rest;
  }

  /** No gap, and if a pass is about to sign, everything trusts the CA root it signs with. */
  ghost predicate Harmless(s: State) {
    NoTrustGap(s) && (s.pass.Signing? ==> AllTrust(s, s.pass.mem.cert))
  }

  lemma {:induction false} SafeStays(s: State, steps: seq<Step>)
    requires BaseInv(s) && TrustInv(s) && AfterSafely(s, steps).Some?
    ensures Harmless(AfterSafely(s, steps).value)
    decreases |steps|
  {
    hide BaseInv, Enabled, Do, CreateSafe, AllTrust;
    if steps == [] {
      assert s.pass.Signing? ==> AllTrust(s, s.pass.mem.cert);
    } else {
      hide TrustInv;
      BaseStep(s, steps[0]);
      TrustStep(s, steps[0]);
      SafeStays(Do(s, steps[0]), steps[1..]);
    }
  }

  // ---- what an unsafe write leads to ----

  /** The state but for the pass and for other configurations. */
  ghost predicate SameAt(s: State, t: State, key: ConfigKey) {
    && t.now == s.now && t.leaves == s.leaves
    && key in s.configs && key in t.configs && t.configs[key] == s.configs[key]
  }

  /** The pass gets to sign without touching this configuration; what would stop it can be deleted on the way. */
  lemma {:induction false} FinishInjecting(s: State, key: ConfigKey) returns (steps: seq<Step>, t: State)
    requires s.pass.Injecting? && key in s.configs && !Pending(s.pass.work, key, s.pass.mem)
    ensures AfterSafely(s, steps) == Some(t) && t.pass == Signing(s.pass.mem) && SameAt(s, t, key)
    decreases |s.pass.work|
  {
    hide UpToDate, AfterSafely, CABundle;
    if s.pass.work == [] {
      t := Do(s, PassTrusted);
      FirstStep(s, PassTrusted, []);
      Nothing(t);
      steps := [PassTrusted] + [];
    } else {
      var item, rest := s.pass.work[0], s.pass.work[1..];
      assert forall l :: l in rest ==> l in s.pass.work;
      if UpToDate(item.config.entries, CABundle(s.pass.mem)) {
        var s1 := Do(s, PassInject);
        var more;
        more, t := FinishInjecting(s1, key);
        FirstStep(s, PassInject, more);
        steps := [PassInject] + more;
      } else {
        assert item.key != key;
        var s1 := Do(s, DeleteConfig(item.key));
        var s2 := Do(s1, PassInject);
        var more;
        more, t := FinishInjecting(s2, key);
        FirstStep(s1, PassInject, more);
        FirstStep(s, DeleteConfig(item.key), [PassInject] + more);
        steps := [DeleteConfig(item.key)] + ([PassInject] + more);
      }
    }
  }

  lemma Nothing(s: State)
    ensures AfterSafely(s, []) == Some(s)
  {
  }

  lemma FinishListing(s: State, key: ConfigKey) returns (steps: seq<Step>, t: State)
    requires s.pass.ListedValidating? && key in s.configs && key.kind == Validating &&
             !Pending(s.pass.work, key, s.pass.mem)
    ensures AfterSafely(s, steps) == Some(t) && t.pass == Signing(s.pass.mem) && SameAt(s, t, key)
  {
    hide UpToDate, AfterSafely, CABundle;
    var order := ListOf(set k | k in s.configs && k.kind == Mutating && s.configs[k].labelled);
    var s1 := Do(s, PassListMutating(order));
    assert forall l :: l in s1.pass.work ==> l in s.pass.work || l in ListWork(s, order);
    var more;
    more, t := FinishInjecting(s1, key);
    FirstStep(s, PassListMutating(order), more);
    steps := [PassListMutating(order)] + more;
  }

  /** A pass that will not look at this configuration again gets to sign. */
  lemma PassSigns(s: State, key: ConfigKey) returns (steps: seq<Step>, t: State)
    requires PassesBy(s, key) && key in s.configs
    ensures AfterSafely(s, steps) == Some(t) && t.pass == Signing(s.pass.mem) && SameAt(s, t, key)
  {
    hide Pending, AfterSafely;
    if s.pass.ListedValidating? {
      steps, t := FinishListing(s, key);
    } else if s.pass.Injecting? {
      steps, t := FinishInjecting(s, key);
    } else {
      Nothing(s);
      steps, t := [], s;
    }
  }

  /** A certificate is signed while some webhook of its server does not trust the CA root that signs it. */
  ghost predicate SignsUntrusted(s: State, service: string) {
    && s.pass.Signing? && !AllTrust(s, s.pass.mem.cert)
    && Do(s, PassSign(service)) != s
    && (ValidAt(s.pass.mem.cert, s.now) ==> !NoTrustGap(Do(s, PassSign(service))))
  }

  /** What a write that uses the copy of the Secret leaves behind: an entry with the bundle of the copy. */
  lemma UsesCopy(s: State, step: Step) returns (key: ConfigKey, i: nat)
    requires BaseInv(s) && Enabled(s, step) && (step.WritePolicy? || step.WriteController?)
    requires UsesSecret(s, step) && Accepted(s, step.worker)
    ensures Some(key) == s.workers[step.worker].key && key in Do(s, step).configs
    ensures var c := Do(s, step).configs[key];
            && c.labelled && i < |c.entries| && c.entries[i].service == ServiceOf(s, step)
            && c.entries[i].caBundle == CABundle(s.workers[step.worker].secret.value)
    ensures var s' := Do(s, step);
            s'.now == s.now && s'.leaves == s.leaves && s'.pass == s.pass
  {
    hide BaseInv, CABundle, BundleNamed;
    key := s.workers[step.worker].key.value;
    i := 0;
    if step.WriteController? {
      i :| 0 <= i < |step.template| && BundleNamed(SeenEntries(s, step.worker), step.template[i]) == [];
    }
  }

  /** A root that the entry lacks, signed in: the certificate has to be renewed, and then the entry does not
      trust it. */
  lemma SigningOpensGap(s: State, key: ConfigKey, i: nat, service: string)
    requires s.pass.Signing? && key in s.configs && s.configs[key].labelled && i < |s.configs[key].entries|
    requires s.configs[key].entries[i].service == service && s.pass.mem.cert !in s.configs[key].entries[i].caBundle
    requires service in s.leaves && s.leaves[service].notBefore <= s.now && s.leaves[service].issuer.notBefore <= s.now
    requires s.pass.mem.cert.notBefore <= s.now
    requires ChainValidAt(s.leaves[service], s.now) ==> s.leaves[service].issuer in s.configs[key].entries[i].caBundle
    ensures SignsUntrusted(s, service)
  {
    var e := s.configs[key].entries[i];
    var t := Do(s, PassSign(service));
    assert !ConfigTrusts(s.configs[key], s.pass.mem.cert);
    assert !VerifyLeaf(s.leaves[service], [s.pass.mem.cert], service, s.now + LOOKAHEAD);
    assert t.leaves[service].issuer == s.pass.mem.cert && t.nextSerial == s.nextSerial + 1;
    if ValidAt(s.pass.mem.cert, s.now) {
      assert !EntryTrustsServer(t, t.configs[key].entries[i]);
    }
  }

  /** A certificate regenerated with a root that one of its webhooks lacks opens a gap at once. */
  lemma UnsafeRegeneration(s: State, w: nat, service: string)
    requires Enabled(s, RegenerateServerCert(w, service)) && !CreateSafe(s, RegenerateServerCert(w, service))
    ensures !NoTrustGap(Do(s, RegenerateServerCert(w, service)))
  {
    var s', root := Do(s, RegenerateServerCert(w, service)), s.workers[w].secret.value.cert;
    var k, i :| k in s.configs && s.configs[k].labelled && 0 <= i < |s.configs[k].entries| &&
                s.configs[k].entries[i].service == service && root !in s.configs[k].entries[i].caBundle;
    assert !EntryTrustsServer(s', s'.configs[k].entries[i]);
  }

  /** Every unsafe write leads to a gap now, or to a certificate signed before its root is trusted. */
  lemma UnsafeCreate(s: State, step: Step) returns (steps: seq<Step>, t: State)
    requires BaseInv(s) && Enabled(s, step) && !CreateSafe(s, step)
    ensures AfterSafely(Do(s, step), steps) == Some(t)
    ensures (steps == [] && !NoTrustGap(t)) || SignsUntrusted(t, ServiceOf(s, step))
  {
    hide AfterSafely, CABundle, PassesBy, BaseInv, SignsUntrusted;
    var s' := Do(s, step);
    if step.RegenerateServerCert? {
      UnsafeRegeneration(s, step.worker, step.service);
      Nothing(s');
      return [], s';
    }
    var key, i := UsesCopy(s, step);
    var service := ServiceOf(s, step);
    var e := s'.configs[key].entries[i];
    if EntryTrustsServer(s', e) {
      SamePass(s, s', key);
      steps, t := PassSigns(s', key);
      LeafFacts(s, service);
      SigningOpensGap(t, key, i, service);
    } else {
      Nothing(s');
      steps, t := [], s';
    }
  }

  lemma SamePass(s: State, s': State, key: ConfigKey)
    requires s'.pass == s.pass
    ensures PassesBy(s', key) == PassesBy(s, key)
    ensures PassesBy(s, key) ==> !s.pass.Idle?
  {
  }

  lemma LeafFacts(s: State, service: string)
    requires BaseInv(s) && service in s.leaves
    ensures s.leaves[service].notBefore <= s.now && s.leaves[service].issuer.notBefore <= s.now
    ensures !s.pass.Idle? ==> s.pass.mem.cert.notBefore <= s.now
  {
    hide ShapeInv, VersionInv;
  }

  /**
    For every state that the invariants allow and every write, the condition holds if and only if no continuation, in
    which the later writes are safe, ever has a gap or a pass about to sign with a root that is not trusted everywhere.
   */
  lemma CreateSafeExact(s: State, step: Step)
    requires BaseInv(s) && TrustInv(s) && Enabled(s, step)
    ensures CreateSafe(s, step) <==>
            forall steps :: AfterSafely(Do(s, step), steps).Some? ==> Harmless(AfterSafely(Do(s, step), steps).value)
  {
    hide BaseInv, TrustInv, CreateSafe, AfterSafely, AllTrust, Do, Enabled;
    if CreateSafe(s, step) {
      BaseStep(s, step);
      TrustStep(s, step);
      forall steps | AfterSafely(Do(s, step), steps).Some? ensures Harmless(AfterSafely(Do(s, step), steps).value) {
        SafeStays(Do(s, step), steps);
      }
    } else {
      var steps, t := UnsafeCreate(s, step);
      assert !Harmless(t);
    }
  }
}
