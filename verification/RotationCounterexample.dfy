/**
  Runs that break the two promises of the rotation when webhooks are built from a stale copy of the CA root Secret. A
  policy reconciler reads the Secret, a pass rotates the root, and only then the reconciler creates the webhook. If the
  pass has renewed the certificate of the policy server already, the webhook does not trust it from the start. If the
  pass is between its list and its signatures, it signs with a root that the new webhook does not hold. The watch on new
  webhook configurations starts a pass that closes the gap (`RotationRepair`).

  A PolicyServer reconciler that regenerates a certificate breaks the first promise even with a fresh copy.
 */
module RotationCounterexample {
  import opened Options
  import opened Certs
  import opened WebhookConfigs
  import opened RotationProtocol

  const SERVER: string := "policy-server-default"
  const KEY: ConfigKey := PolicyConfig(Validating, "kw.cap.privileged-pods")

  const ROOT: CACert := GenerateCA(0, 0)
  const NEXT: CACert := GenerateCA(2, 3591 * DAY)
  const SECRET: CASecret := CASecret(ROOT, PrivateKey(0, true), None)
  const ROTATED: CASecret := CASecret(NEXT, PrivateKey(2, true), Some(ROOT))

  const EMPTY: State := State(0, 0, 0, "webhook-service", None, {}, map[], map[], Idle, map[])

  /** Both reconcilers have read the Secret, and the policy server has its first certificate. */
  const READ: State := EMPTY.(nextSerial := 2, ca := Some(SECRET), issued := {ROOT},
    leaves := map[SERVER := GenerateLeaf(ROOT, 1, 0, SERVER)],
    workers := map[0 := Worker(Some(SECRET), None, None), 1 := Worker(Some(SECRET), Some(KEY), None)])

  /** Ten years later, a pass has rotated the root. */
  const PRUNED: State := READ.(now := 3591 * DAY, nextSerial := 3, ca := Some(ROTATED), issued := {ROOT, NEXT},
    pass := Pruned(ROTATED))

  /** The pass has also renewed the certificate. There was no webhook to inject the bundle into. */
  const RENEWED: State := PRUNED.(nextSerial := 4,
    leaves := map[SERVER := GenerateLeaf(NEXT, 3, 3591 * DAY, SERVER)], pass := Signing(ROTATED))

  ghost predicate Reaches(run: seq<State>, steps: seq<Step>, s: State) {
    IsRun(run, steps) && run[|steps|] == s
  }

  lemma Start() returns (run: seq<State>, steps: seq<Step>)
    ensures Reaches(run, steps, EMPTY)
  {
    run, steps := [EMPTY], [];
  }

  lemma Extend(run: seq<State>, steps: seq<Step>, s: State, step: Step) returns (run': seq<State>, steps': seq<Step>)
    requires Reaches(run, steps, s) && Enabled(s, step)
    ensures Reaches(run', steps', Do(s, step))
    ensures |steps'| == |steps| + 1 && steps'[|steps|] == step && run'[|steps|] == s
  {
    run', steps' := run + [Do(s, step)], steps + [step];
  }

  lemma ReadBeforeRotation() returns (run: seq<State>, steps: seq<Step>)
    ensures Reaches(run, steps, READ)
  {
    hide Reaches;
    var s := EMPTY;
    run, steps := Start();
    run, steps := Extend(run, steps, s, EnsureCA);
    s := Do(s, EnsureCA);
    run, steps := Extend(run, steps, s, ReadSecret(0));
    s := Do(s, ReadSecret(0));
    run, steps := Extend(run, steps, s, CreateServerCert(0, SERVER));
    s := Do(s, CreateServerCert(0, SERVER));
    run, steps := Extend(run, steps, s, ReadSecret(1));
    s := Do(s, ReadSecret(1));
    run, steps := Extend(run, steps, s, ReadConfig(1, KEY));
    assert Do(s, ReadConfig(1, KEY)) == READ;
  }

  lemma Rotation() returns (run: seq<State>, steps: seq<Step>)
    ensures Reaches(run, steps, PRUNED)
  {
    hide Reaches;
    run, steps := ReadBeforeRotation();
    var s := READ;
    run, steps := Extend(run, steps, s, Tick(3591 * DAY));
    s := Do(s, Tick(3591 * DAY));
    run, steps := Extend(run, steps, s, PassStart);
    s := Do(s, PassStart);
    run, steps := Extend(run, steps, s, PassCheckRoot);
    s := Do(s, PassCheckRoot);
    run, steps := Extend(run, steps, s, PassStoreRoot);
    s := Do(s, PassStoreRoot);
    run, steps := Extend(run, steps, s, PassPrune);
    assert Do(s, PassPrune) == PRUNED;
  }

  lemma Renewal() returns (run: seq<State>, steps: seq<Step>)
    ensures Reaches(run, steps, RENEWED)
  {
    hide Reaches;
    run, steps := Rotation();
    var s := PRUNED;
    run, steps := Extend(run, steps, s, PassListValidating([]));
    s := Do(s, PassListValidating([]));
    run, steps := Extend(run, steps, s, PassListMutating([]));
    s := Do(s, PassListMutating([]));
    run, steps := Extend(run, steps, s, PassTrusted);
    s := Do(s, PassTrusted);
    run, steps := Extend(run, steps, s, PassSign(SERVER));
    assert Do(s, PassSign(SERVER)) == RENEWED;
  }

  /** With stale copies there are runs with a trust gap. */
  lemma StaleReadOpensGap() returns (run: seq<State>, steps: seq<Step>)
    ensures IsRun(run, steps) && !NoTrustGap(run[|steps|])
  {
    run, steps := Renewal();
    run, steps := Extend(run, steps, RENEWED, WritePolicy(1, SERVER));
    var s := run[|steps|];
    assert CABundle(SECRET) == [ROOT];
    assert s.configs[KEY].entries == [Entry(KEY.uniqueName + WEBHOOK_NAME_SUFFIX, SERVER, [ROOT])];
    assert !EntryTrustsServer(s, s.configs[KEY].entries[0]);
  }

  // ---- a certificate signed before its root is trusted ----

  /** The server got its certificate shortly before the rotation, so the old chain still verifies afterwards. */
  const RECENT: State := EMPTY.(now := 3500 * DAY, nextSerial := 2, ca := Some(SECRET), issued := {ROOT},
    leaves := map[SERVER := GenerateLeaf(ROOT, 1, 3500 * DAY, SERVER)],
    workers := map[0 := Worker(Some(SECRET), None, None), 1 := Worker(Some(SECRET), Some(KEY), None)])

  /** A pass has rotated the root and found no webhook to inject the bundle into. */
  const INJECTED: State := RECENT.(now := 3591 * DAY, nextSerial := 3, ca := Some(ROTATED), issued := {ROOT, NEXT},
    pass := Injecting(ROTATED, []))

  lemma ReadShortlyBefore() returns (run: seq<State>, steps: seq<Step>)
    ensures Reaches(run, steps, RECENT)
  {
    hide Reaches;
    var s := EMPTY;
    run, steps := Start();
    run, steps := Extend(run, steps, s, EnsureCA);
    s := Do(s, EnsureCA);
    run, steps := Extend(run, steps, s, Tick(3500 * DAY));
    s := Do(s, Tick(3500 * DAY));
    run, steps := Extend(run, steps, s, ReadSecret(0));
    s := Do(s, ReadSecret(0));
    run, steps := Extend(run, steps, s, CreateServerCert(0, SERVER));
    s := Do(s, CreateServerCert(0, SERVER));
    run, steps := Extend(run, steps, s, ReadSecret(1));
    s := Do(s, ReadSecret(1));
    run, steps := Extend(run, steps, s, ReadConfig(1, KEY));
    assert Do(s, ReadConfig(1, KEY)) == RECENT;
  }

  lemma RotationMeanwhile() returns (run: seq<State>, steps: seq<Step>)
    ensures Reaches(run, steps, INJECTED)
  {
    hide Reaches;
    run, steps := ReadShortlyBefore();
    var s := RECENT;
    run, steps := Extend(run, steps, s, Tick(91 * DAY));
    s := Do(s, Tick(91 * DAY));
    run, steps := Extend(run, steps, s, PassStart);
    s := Do(s, PassStart);
    run, steps := Extend(run, steps, s, PassCheckRoot);
    s := Do(s, PassCheckRoot);
    run, steps := Extend(run, steps, s, PassStoreRoot);
    s := Do(s, PassStoreRoot);
    run, steps := Extend(run, steps, s, PassPrune);
    assert Do(s, PassPrune) == INJECTED.(pass := Pruned(ROTATED));
    run, steps := NothingToInject(run, steps);
  }

  lemma NothingToInject(run: seq<State>, steps: seq<Step>) returns (run': seq<State>, steps': seq<Step>)
    requires Reaches(run, steps, INJECTED.(pass := Pruned(ROTATED)))
    ensures Reaches(run', steps', INJECTED)
  {
    hide Reaches;
    var s := INJECTED.(pass := Pruned(ROTATED));
    run', steps' := Extend(run, steps, s, PassListValidating([]));
    s := Do(s, PassListValidating([]));
    run', steps' := Extend(run', steps', s, PassListMutating([]));
    assert s.pass.work == [] && s.pass.work + ListWork(s, []) == [];
    assert Do(s, PassListMutating([])) == INJECTED;
  }

  /** The webhook is there, with the bundle of the stale copy, and the pass is about to sign. */
  const WRITTEN: State := INJECTED.(nextRv := 1, pass := Signing(ROTATED),
    configs := map[KEY := Config(0, true, [Entry(KEY.uniqueName + WEBHOOK_NAME_SUFFIX, SERVER, [ROOT])])])

  lemma WriteMeanwhile() returns (run: seq<State>, steps: seq<Step>)
    ensures Reaches(run, steps, WRITTEN)
  {
    hide Reaches;
    run, steps := RotationMeanwhile();
    run, steps := Extend(run, steps, INJECTED, WritePolicy(1, SERVER));
    var s := Do(INJECTED, WritePolicy(1, SERVER));
    assert CABundle(SECRET) == [ROOT];
    assert s.configs == WRITTEN.configs;
    run, steps := Extend(run, steps, s, PassTrusted);
    assert Do(s, PassTrusted) == WRITTEN;
  }

  lemma NoGapYet()
    ensures NoTrustGap(WRITTEN) && !AllTrust(WRITTEN, NEXT)
  {
    assert EntryTrustsServer(WRITTEN, WRITTEN.configs[KEY].entries[0]);
    assert !ConfigTrusts(WRITTEN.configs[KEY], NEXT);
  }

  lemma GapAfterSigning()
    ensures Enabled(WRITTEN, PassSign(SERVER)) && !NoTrustGap(Do(WRITTEN, PassSign(SERVER)))
  {
    var t := Do(WRITTEN, PassSign(SERVER));
    assert !EntryTrustsServer(t, t.configs[KEY].entries[0]);
  }

  /** A run without a gap up to its last step, in which the pass signs while a webhook does not trust the new root. */
  lemma StaleReadSignsUntrusted() returns (run: seq<State>, steps: seq<Step>)
    ensures IsRun(run, steps) && steps != [] && steps[|steps| - 1] == PassSign(SERVER)
    ensures var before := run[|steps| - 1];
            before.pass.Signing? && NoTrustGap(before) && !AllTrust(before, before.pass.mem.cert)
    ensures !NoTrustGap(run[|steps|])
  {
    hide IsRun, NoTrustGap, AllTrust, Do, Enabled;
    run, steps := WriteMeanwhile();
    NoGapYet();
    GapAfterSigning();
    run, steps := Extend(run, steps, WRITTEN, PassSign(SERVER));
  }

  // ---- a certificate regenerated before its root is trusted ----

  /** The webhook is built from a fresh copy of the Secret. */
  const HOOKED: State := RECENT.(nextRv := 1, configs := WRITTEN.configs)

  /** A pass has stored the new root and has not listed the webhooks yet; the PolicyServer reconciler reads the
      Secret. */
  const STORED: State := HOOKED.(now := 3591 * DAY, nextSerial := 3, ca := Some(ROTATED), issued := {ROOT, NEXT},
    pass := Rotated(ROTATED),
    workers := map[0 := Worker(Some(ROTATED), None, None), 1 := Worker(Some(SECRET), Some(KEY), None)])

  lemma FreshHook() returns (run: seq<State>, steps: seq<Step>)
    ensures Reaches(run, steps, HOOKED)
  {
    hide Reaches;
    run, steps := ReadShortlyBefore();
    run, steps := Extend(run, steps, RECENT, WritePolicy(1, SERVER));
    assert CABundle(SECRET) == [ROOT];
    assert Do(RECENT, WritePolicy(1, SERVER)).configs == HOOKED.configs;
  }

  lemma RotationAfterwards() returns (run: seq<State>, steps: seq<Step>)
    ensures Reaches(run, steps, STORED.(workers := HOOKED.workers))
  {
    hide Reaches;
    run, steps := FreshHook();
    var s := HOOKED;
    run, steps := Extend(run, steps, s, Tick(91 * DAY));
    s := Do(s, Tick(91 * DAY));
    run, steps := Extend(run, steps, s, PassStart);
    s := Do(s, PassStart);
    run, steps := Extend(run, steps, s, PassCheckRoot);
    s := Do(s, PassCheckRoot);
    run, steps := Extend(run, steps, s, PassStoreRoot);
    assert Do(s, PassStoreRoot) == STORED.(workers := HOOKED.workers);
  }

  lemma FreshCopy() returns (run: seq<State>, steps: seq<Step>)
    ensures Reaches(run, steps, STORED)
  {
    hide Reaches;
    run, steps := RotationAfterwards();
    run, steps := Extend(run, steps, STORED.(workers := HOOKED.workers), ReadSecret(0));
    assert Do(STORED.(workers := HOOKED.workers), ReadSecret(0)) == STORED;
  }

  lemma TrustedSoFar()
    ensures NoTrustGap(STORED) && ChainValidAt(STORED.leaves[SERVER], STORED.now)
  {
    assert EntryTrustsServer(STORED, STORED.configs[KEY].entries[0]);
  }

  lemma GapAfterRegeneration()
    ensures Enabled(STORED, RegenerateServerCert(0, SERVER)) && !NoTrustGap(Do(STORED, RegenerateServerCert(0, SERVER)))
  {
    DifferentServices();
    var t := Do(STORED, RegenerateServerCert(0, SERVER));
    assert !EntryTrustsServer(t, t.configs[KEY].entries[0]);
  }

  lemma DifferentServices()
    ensures SERVER != STORED.webhookService
  {
    assert SERVER[0] != STORED.webhookService[0];
  }

  /** With copies that are all fresh, a PolicyServer reconciler that regenerates a certificate after the new root is
      stored and before the bundles hold it opens a gap. */
  lemma RegenerationOpensGap() returns (run: seq<State>, steps: seq<Step>)
    ensures IsRun(run, steps) && steps != [] && steps[|steps| - 1] == RegenerateServerCert(0, SERVER)
    ensures var before := run[|steps| - 1];
            NoTrustGap(before) && HasSecret(before, 0) && before.workers[0].secret == before.ca
    ensures !NoTrustGap(run[|steps|])
  {
    hide IsRun, NoTrustGap, Do, Enabled;
    run, steps := FreshCopy();
    TrustedSoFar();
    GapAfterRegeneration();
    run, steps := Extend(run, steps, STORED, RegenerateServerCert(0, SERVER));
  }
}
