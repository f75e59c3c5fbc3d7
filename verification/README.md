# Verified model of the Kubewarden admission controller

This project models the parts of the Kubewarden `adm-controller` repository whose correctness depends on the order of API
calls, on the clock, or on an encoding being unambiguous, and proves what those parts promise. It is written in Dafny;
`dafny verify dfyconfig.toml` checks all of it.

| file | what it models |
|---|---|
| `Certs.dfy`, `WebhookConfigs.dfy` | certificates as records with periods; the `caBundle` of webhook configurations and its writers |
| `RotationProtocol.dfy`, `RotationProof.dfy`, `RotationNecessity.dfy`, `RotationRepair.dfy`, `RotationCounterexample.dfy` | the CA rotation as a state machine over single API calls, its safety over whole runs, the exact condition for it, and how a pass closes gaps |
| `CertReconciler.dfy` | one pass of the cert controller, call by call, on a mutable cluster |
| `PolicyLifecycle.dfy`, `PolicyLifecycleProof.dfy`, `PolicyLifecycleNecessity.dfy`, `PolicyLifecycleProgress.dfy` | policies, webhook configurations, finalizers and PolicyServers as one state machine, the exact conditions for its safety, and what undisturbed reconciles achieve |
| `PolicyReconcile.dfy` | one reconcile of a policy and one of a PolicyServer, with their in-memory copies |
| `Cleanup.dfy` | the uninstall hook |
| `PolicyNames.dfy`, `PolicyServerConfig.dfy`, `LegacyMigration.dfy` | unique names, `policies.yml`, and the legacy aliases in it |
| `ManagedKeys.dfy` | the three-way merge of labels and annotations |
| `AllowList.dfy` | the allow list of resources for namespaced policies |
| `CapabilityPatterns.dfy`, `HostCapabilities.dfy` | host-capability patterns: the Go validator and the Rust allow list |
| `WasmScanner.dfy` | the byte scanner of `kwctl` |
| `RegoArena.dfy` | the heap checkpoints with which `burrego` drives a Rego guest |
| `Options.dfy`, `Collections.dfy`, `Text.dfy` | small shared definitions |

How the parts are modelled. The API server is a map from names to objects; an update or a patch with a stale resource
version fails, and an object that is being deleted goes with its last finalizer. Every API call and every guest call may
fail, and a reconcile or a run may stop after any of them. Clocks, serial numbers and resource versions are part of the
state. Cryptography is replaced by records: a certificate names its issuer, its period and its DNS name, a chain verifies
when leaf and issuer are both inside their periods (section 4.1.2.5 of RFC 5280). Maps and lists are iterated in an
arbitrary order.

## What the proofs found

- `RotationCounterexample.StaleReadOpensGap` and `StaleReadSignsUntrusted`: a policy reconciler or an init container that
  read the CA root Secret before a rotation can create a webhook after it that does not trust its server, or one that the
  running pass does not notice before it signs. `RegenerationOpensGap`: a PolicyServer reconciler that regenerates a
  certificate in place signs with the new root before the webhooks trust it, even from a fresh copy.
  `RotationNecessity.CreateSafeExact` gives the exact condition on the copy of the Secret, for all three writers. The next
  pass of the cert controller closes every gap (`RotationRepair.PassClosesGaps`, `UndisturbedPass`).
- `PolicyLifecycleNecessity.FlipOrphans` and `FlipDuringReconcileOrphans`: `spec.mutating` can be changed, and deletion
  looks at the current flag only, so a webhook configuration of the other kind can outlive its policy. `SafeFlipExact`
  gives the exact condition: no webhook configuration, and no reconcile that may still create one.
- `PolicyLifecycleNecessity.StaleServerRead`: a policy reconcile reads its PolicyServer well before it creates the webhook
  configuration; if the server is deleted and torn down in between, the webhook configuration appears afterwards.
  `MissedExact` and `PolicyLifecycleProof.QuietWrite` give the exact conditions before and after the server is released.
- `PolicyReconcile.StaleActiveCondition`: taking a policy's webhook configuration away because its server is unavailable
  leaves the condition PolicyActive at True, because the update that removes the finalizer loads the stored status into
  memory. `StaleActiveArises` shows it happen; by `StaleActiveClears` it lasts for one reconcile.
- `HostCapabilities.LaxerThanValidator`: the Rust parser accepts patterns that go on after a wildcard, such as
  `oci/*/x/*`, which the Go validator rejects, and the comment in the Rust code says cannot get there. They allow nothing
  more, by `HostCapabilities.New`.
- `WasmScanner.ForkMisleads`: when the longer names fork, the scanner reports an operation that never stands alone.
  `ScannerExact` says, for all names, that a fork is the only reason. In the repository only one operation has a longer
  sibling, and only one.

## Model

| member | source | states |
|---|---|---|
| `RotationProof.NoTrustGapInAnyRun` | internal/controller/cert_controller.go:175-288 | In every state of every run of passes that may stop at any call, clock ticks, server certificates created or regenerated by others, webhook writes and deletions, with any number of rotations: a certificate whose chain verifies now has its issuer in the bundle of every webhook that calls its server. Others use a copy of the CA root Secret that is safe at that moment. |
| `RotationProof.RotationSpacing` | internal/constants/constants.go:158-162 | When the CA root rotates, the root before it has expired: the arithmetic of 10 years and 60 days that lets one old root suffice. |
| `Certs.LeafPeriod` | internal/certs/certs.go:78-147 | A certificate signed at t verifies under its name from t to t + 31 536 000 seconds, while its root is valid, and at no other instant. |
| `Certs.RootPeriod` | internal/constants/constants.go:158-162 | A CA root generated at t is valid for 315 360 000 seconds and has to rotate after 310 176 000. |
| `Certs.LeafOutlived` | internal/constants/constants.go:158-162 | When a CA root has to rotate, every certificate that is not younger than the root has expired. |
| `RotationProof.OneYearInAnyRun` | internal/controller/cert_controller.go:387-398 | No certificate that is stored at any moment of any run verifies later than 31 536 000 seconds from that moment. |
| `RotationProof.RotationOutlivesLeaves` | internal/controller/cert_controller.go:237-265 | Whenever the pass is about to rotate in any run, the root has stood for more than 310 176 000 seconds and every stored certificate signed before it has expired. |
| `RotationProof.CheckRootExact` | internal/controller/cert_controller.go:237-250 | The pass rotates if and only if the root is not valid 5 184 000 seconds ahead or does not fit its key, and then generates one for 315 360 000 seconds. |
| `RotationProof.StoreRootExact` | internal/controller/cert_controller.go:251-288 | The new root is stored with its own key and the one before; that one is dropped if and only if it is not valid. |
| `RotationProof.SignExact` | internal/controller/cert_controller.go:365-400 | A certificate is signed if and only if it is missing or does not verify under its name 5 184 000 seconds ahead, and then for 31 536 000 seconds. |
| `RotationProof.TrustBeforeSigning` | internal/controller/cert_controller.go:189-204 | In every such run, each certificate the cert controller signs is signed by the stored root, in a state in which every Kubewarden webhook configuration already trusts that root. |
| `RotationProof.FreshRunsAreSafe` | internal/controller/policy_subreconciler.go:116-119 | Every run in which new webhooks are built from a fresh read of the Secret, and certificates are regenerated from one only when every webhook trusts its root, is such a run. |
| `RotationProof.SingleWriter` | internal/controller/cert_controller.go:461-494 | If the bundle of a webhook that persists changes in a step, the step is an injection and the new bundle is that of the stored Secret. |
| `RotationProof.WriteKeepsEntry` | internal/controller/policy_subreconciler_webhook.go:52-71 | A write of a policy reconciler or an init container that is not refused as stale keeps the bundle of every webhook that persists. |
| `RotationProof.WriteOutcome` | internal/controller/policy_subreconciler_webhook.go:208-217 | Each webhook of such a write was there before with the same bundle, or carries the bundle of the Secret that the writer read. |
| `RotationProof.StepKeepsBundle` | internal/bootstrap/bootstrap.go:228-281 | No step other than an injection changes the bundle of a webhook that persists, in any reachable state. |
| `RotationProof.NoStaleRevert` | internal/controller/policy_subreconciler_webhook.go:52-71 | Over any stretch of a run without injections, a webhook that stays in place keeps its bundle, so no reconcile that began before a rotation reverts it. |
| `RotationProof.BaseStep` | internal/controller/cert_controller.go:175-207 | Every step keeps the invariant over the clock, the pass in progress, the shape of configurations, resource versions and issued certificates. |
| `RotationProof.TrustStep` | internal/controller/cert_controller.go:175-207 | Every step, with safe writes, keeps both invariants below together. |
| `RotationProof.PhaseStep` | internal/controller/cert_controller.go:293-324 | Every step, with safe writes, keeps the invariant that bundles are trusted wherever the running pass will not come back, whether or not there are gaps. |
| `RotationProof.GapStep` | internal/controller/cert_controller.go:328-361 | No step, with safe writes, opens a gap for a server that has none. |
| `RotationProof.SignCloses` | internal/controller/cert_controller.go:365-459 | Signing the certificate of a server, or finding that it verifies, leaves no gap for that server, whatever there was before. |
| `RotationRepair.PassClosesGaps` | internal/controller/cert_controller.go:175-207 | From every state that the invariants allow in which no pass is past its lists, with any gaps: any steps with safe writes that sign the certificate of every server there is end without a gap. |
| `RotationRepair.UndisturbedPass` | internal/controller/cert_controller.go:175-207 | From every such state between passes, a pass that nothing disturbs gets through: its own steps alone reach a state without a gap. |
| `RotationCounterexample.StaleReadOpensGap` | internal/controller/policy_subreconciler.go:116-119 | There is a run in which a webhook built from a stale CA root Secret does not trust its server. |
| `RotationCounterexample.StaleReadSignsUntrusted` | internal/controller/cert_controller.go:189-204 | There is a run without a gap in which the pass then signs while a webhook, built from a stale copy after the list, does not trust the new root. |
| `RotationCounterexample.RegenerationOpensGap` | internal/controller/policyserver_controller_cert_secret.go:58-75 | There is a run in which all copies are fresh and the regeneration of a trusted certificate, between the new root and the new bundles, opens a gap. |
| `RotationNecessity.CreateSafeExact` | internal/controller/policy_subreconciler_webhook.go:212-217 | For every state that the invariants allow and every write of the three writers: the condition on the copy holds if and only if no continuation has a gap or a pass about to sign with an untrusted root. For a bundle the copy has to hold the issuer of the server's verifying certificate, and the root of a pass that will not look again; for a regenerated certificate the webhooks of the server have to trust the root of the copy, unless it has expired. |
| `RotationNecessity.UnsafeRegeneration` | internal/controller/policyserver_controller_cert_secret.go:58-75 | Every regeneration that breaks the condition opens a gap at once. |
| `RotationNecessity.UnsafeCreate` | internal/bootstrap/bootstrap.go:268-281 | Every write that breaks the condition leaves a gap at once, or leads to a certificate signed before its root is trusted, and to a gap if that root is valid. |
| `RotationNecessity.FinishInjecting` | internal/controller/cert_controller.go:314-321 | A pass gets to sign past a configuration it has not listed as needing a change. |
| `WebhookConfigs.InjectLoop` | internal/controller/cert_controller.go:475-484 | Every entry gets the bundle, nothing else changes, and a change is reported exactly when some bundle differed. |
| `WebhookConfigs.ReconcileControllerEntries` | internal/bootstrap/bootstrap.go:228-239 | A controller webhook that exists by name keeps a bundle that is not empty; every other one gets the bundle of the CA root Secret; each points at the webhook Service. |
| `WebhookConfigs.BundleNamedFinds` | internal/bootstrap/bootstrap.go:229-232 | With distinct names, looking a webhook up by name finds its own bundle. |
| `CertReconciler.Cluster.Reconcile` | internal/controller/cert_controller.go:175-207 | A pass without errors converges, and on a converged cluster it writes nothing. Any call may fail without those after it failing: every certificate the pass got to verifies, and it fails only for a failed call or a broken Secret. A certificate changes only if it did not verify 60 days ahead, and then it is signed now with the stored root, under its name, for 365 days. |
| `CertReconciler.Cluster.ConvergedMeans` | internal/controller/cert_controller.go:175-207 | Converged, field by field: the root fits its key and is valid 5 184 000 seconds ahead, an old root is valid now, every labelled bundle is the root followed by the old one, and every managed certificate is signed by the root, in its period 5 184 000 seconds ahead and under the name of its Service. |
| `CertReconciler.Cluster.EnsureCARoot` | internal/bootstrap/bootstrap.go:113-124 | The CA root Secret exists afterwards, created here or by another replica first, with its own root; one that existed is not changed. |
| `CertReconciler.Cluster.ReconcileCARoot` | internal/controller/cert_controller.go:237-265 | Afterwards the root verifies 60 days ahead, with its predecessor kept if it was replaced; a root that verifies is not written. |
| `CertReconciler.Cluster.ReconcileOldCARoot` | internal/controller/cert_controller.go:268-288 | The old root is dropped exactly when it is no longer valid. |
| `CertReconciler.Cluster.InjectCABundle` | internal/controller/cert_controller.go:464-494 | The configuration holds the bundle afterwards and differs in bundles only, unless somebody changed it, which refuses the patch, or deleted it; an up-to-date one is not written. |
| `CertReconciler.Cluster.InjectCABundles` | internal/controller/cert_controller.go:314-321 | The loop over the listed configurations: unless a call failed, every one that is left holds the bundle; only bundles change, and nothing is written when all match. |
| `CertReconciler.Cluster.ReconcileCABundles` | internal/controller/cert_controller.go:293-324 | Every labelled configuration that is left holds the bundle, unlabelled ones are untouched, a deleted one is skipped, and nothing is written when all bundles match. |
| `CertReconciler.Cluster.EnsureSigned` | internal/bootstrap/bootstrap.go:162-209 | A missing certificate Secret is created, here or by another replica first; one that exists is not changed. What is created here verifies against the root under its name 60 days ahead and runs for 365 days. |
| `CertReconciler.Cluster.EnsureSignedSecrets` | internal/bootstrap/bootstrap.go:135-160 | Both Secrets of the controller exist afterwards unless a call failed; those created here carry the DNS name of the webhook Service and the name of the audit scanner client. |
| `CertReconciler.Cluster.ReconcileCert` | internal/controller/cert_controller.go:365-459 | A certificate that does not verify 60 days ahead is replaced by one that does, signed now for 365 days under the name of its Service or client; one that verifies is kept; a Secret without a certificate is an error and stays. |
| `CertReconciler.Cluster.RenewEach` | internal/controller/cert_controller.go:354-358 | Every listed certificate that is not broken is renewed, whatever happens to the others; each failed call costs at most one certificate. |
| `CertReconciler.Cluster.ReconcileServerCerts` | internal/controller/cert_controller.go:328-361 | The same for the webhook server and all policy servers; only a failed list holds the policy servers back. |
| `CertReconciler.Cluster.RenewalsCompose` | internal/controller/cert_controller.go:354-358 | Renewing some Secrets and then others is one renewal of both: what verified stays, what changed verifies. |
| `CertReconciler.Cluster.RenewedUnion` | internal/controller/cert_controller.go:198-206 | What two stretches of a pass achieve adds up: their certificates, their failures and their errors. |
| `PolicyLifecycleProof.NoOrphanInAnyRun` | internal/controller/policy_subreconciler.go:144-154 | In every state of every run of reconcile steps, crashes, user edits and deletions: a webhook configuration under a policy's unique name implies that the policy is there, has that kind and carries the finalizer. `mutating` changes only while there is no webhook configuration and no reconcile that may still create one. |
| `PolicyLifecycleProof.StepOfReconcile` | internal/controller/policy_subreconciler.go:253-289 | Each call of a policy reconcile keeps the invariant, including refused updates, deletions with a UID precondition and the removal of the finalizer. |
| `PolicyLifecycleProof.StepByOthers` | internal/controller/policy_subreconciler_webhook.go:100-113 | So does every call by users and other tools, at any moment of a reconcile. |
| `PolicyLifecycleProof.TeardownInAnyRun` | internal/controller/policyserver_controller.go:436-513 | In every run in which `mutating` changes only when that is safe: the finalizer of a PolicyServer goes only when no bound policy has a webhook configuration, unless one was created that the deletion was past noticing; from then on none appears until a server of that name is created again, if and only if no reconcile creates one for the server that is going. |
| `PolicyLifecycleProof.QuietWrite` | internal/controller/policy_subreconciler.go:332-344 | For a server that is missing or being deleted and has nothing bound to it, a write keeps it so if and only if it is for another server or refused. |
| `PolicyLifecycleProof.LiveWritesAreSafe` | internal/controller/policy_subreconciler.go:96-102 | Webhook configurations created while their server is live break neither condition. |
| `PolicyLifecycleProof.ReleaseNeedsCleanup` | internal/controller/policyserver_controller.go:497-513 | The finalizer is lost in no other step than its removal, and then no bound policy has a webhook configuration. |
| `PolicyLifecycleProof.ServerStepOwn` | internal/controller/policyserver_controller.go:444-495 | The condition PolicyWebhooksCleanedUp becomes true only when nothing is left, although the policies are listed kind by kind and checked one by one; every step of a deletion keeps that. |
| `PolicyLifecycleProof.PolicyStepServer` | internal/controller/policyserver_controller.go:452-472 | A webhook configuration that appears while its server is being deleted does no harm if the deletion has yet to look for it. |
| `PolicyLifecycleNecessity.SafeFlipExact` | internal/controller/policy_subreconciler.go:243-248 | For every policy in every state that the invariant allows, with any finalizers and any reconcile under way: a change of `mutating` is safe if and only if no continuation leaves an orphan. |
| `PolicyLifecycleNecessity.FlipOrphans` | internal/controller/policy_subreconciler.go:243-248 | From every state with a webhook configuration, changing the flag and deleting the policy can leave it orphaned. |
| `PolicyLifecycleNecessity.FlipDuringReconcileOrphans` | internal/controller/policy_subreconciler.go:228-239 | The same without one, when a reconcile may still create it. |
| `PolicyLifecycleNecessity.MissedExact` | internal/controller/policyserver_controller.go:436-513 | For every state that the invariants allow and every step: the step is not a creation that the deletion misses if and only if, in every continuation without further ones, the server is released only when nothing is bound to it. |
| `PolicyLifecycleNecessity.MissedLeaks` | internal/controller/policyserver_controller.go:485-495 | Every missed creation can still be there when the server is released. |
| `PolicyLifecycleNecessity.StaleServerRead` | internal/controller/policy_subreconciler.go:96-102 | Whatever other policies and servers there are, a server can go between the read and the creation, and a webhook configuration bound to a missing server appears. |
| `PolicyLifecycleNecessity.AboutToCreateIsReachable` | internal/controller/policy_subreconciler.go:144-154 | The situation in which that happens comes up in a run from the empty cluster. |
| `PolicyLifecycleProgress.UndisturbedActivation` | internal/controller/policy_subreconciler.go:144-163 | One undisturbed reconcile gives a policy that stays the webhook configuration of its kind and the finalizer, and changes nothing else about it; an existing webhook configuration is kept. |
| `PolicyLifecycleProgress.UndisturbedRemoval` | internal/controller/policy_subreconciler.go:253-289 | One undisturbed removal leaves no webhook configuration and neither finalizer; a policy that is being deleted goes if and only if no other tool holds it. |
| `PolicyLifecycleProgress.UndisturbedTeardown` | internal/controller/policyserver_controller.go:436-513 | A PolicyServer that is being deleted and has nothing bound to it is released by its own reconciles alone, whatever policies there are, and goes if and only if no other tool holds it. |
| `PolicyLifecycleProgress.ServerReleaseLeavesNeither` | internal/controller/policyserver_controller.go:497-513 | A release that is not refused leaves neither of the two finalizers. |
| `PolicyLifecycleProgress.ReleaseLeavesNeither` | internal/controller/policy_subreconciler.go:266-287 | The same for a policy. |
| `PolicyLifecycleProgress.UndisturbedFinalizer` | internal/controller/policyserver_controller.go:119-129 | A PolicyServer that stays gets the finalizer and keeps the others. |
| `PolicyLifecycleProgress.StaleWriteIsRefused` | internal/controller/policy_subreconciler_webhook.go:52-71 | A webhook configuration that changed since the reconcile read it is not overwritten. |
| `PolicyLifecycleProgress.DeletesWhatItFound` | internal/controller/policy_subreconciler_webhook.go:100-113 | A removal deletes the webhook configuration that it found and spares one that was created since. |
| `PolicyReconcile.Cluster.Reconcile` | internal/controller/policy_subreconciler.go:50-71 | With or without errors, a webhook configuration appears only for a policy that is tolerated, whose server is live and deployed, whose server's configuration holds it and whose server's pods serve that; it touches one policy only and never leaves a webhook configuration without policy and finalizer. Without errors such a policy has it and is active, and one that is being deleted, not tolerated or without its server loses it and both finalizers. |
| `PolicyReconcile.Cluster.ReconcilePolicy` | internal/controller/policy_subreconciler.go:73-102 | The decision between rejected, unscheduled, scheduled and served, with the webhook configuration, finalizers and status each one leaves; a new webhook configuration only under the condition above. |
| `PolicyReconcile.Cluster.ReconcileServed` | internal/controller/policy_subreconciler.go:104-166 | The decision between waiting and active for a policy with an available server; a new webhook configuration only under the condition above. |
| `PolicyReconcile.Cluster.DecideServed` | internal/controller/policy_subreconciler.go:104-132 | The reads behind that decision; a failed read of the reachability check counts as a no. |
| `PolicyReconcile.ServableIsServed` | internal/controller/policy_subreconciler.go:346-409 | A policy that meets the condition is decided reached, and gets its webhook configuration and the phase active. |
| `PolicyReconcile.DismissedIsRemoved` | internal/controller/policy_subreconciler.go:173-224 | A policy that must not have a webhook configuration loses exactly its own and both finalizers; it goes if and only if it is being deleted and no other tool holds it. |
| `PolicyReconcile.StatusMeans` | internal/controller/policy_subreconciler.go:104-166 | The status field by field: an active policy stays active while it waits, the reachability condition, and the mode and version that the server's configuration and Deployment carry. |
| `PolicyReconcile.Cluster.RemoveWebhooksAndFinalizers` | internal/controller/policy_subreconciler.go:253-289 | Removes webhook configuration and finalizers; an update of the finalizers loads the stored status; a failure keeps the finalizers. |
| `PolicyReconcile.Cluster.Activate` | internal/controller/policy_subreconciler.go:144-163 | The finalizer is in place before the webhook configuration, also when the call fails in between. |
| `PolicyReconcile.Cluster.SetModeStatus` | internal/controller/policy_subreconciler.go:291-324 | The mode in the status is that of the served configuration, or unknown when the policy is missing from it or it does not parse; the condition says whether the Deployment carries its version. |
| `PolicyReconcile.Cluster.ReconcileServer` | internal/controller/policyserver_controller.go:365-389 | A live server is deployed with a configuration that holds exactly the policies bound to it that are tolerated, in their modes; nothing else changes, and a server that is missing or being deleted is left alone. |
| `PolicyReconcile.StatusAgrees` | internal/controller/policy_subreconciler.go:173-224 | After a reconcile, rejected or scheduled means no webhook configuration of either kind; reaching active means one, and the finalizer. |
| `PolicyReconcile.PhaseMeans` | internal/controller/policy_subreconciler.go:83-106 | Each phase is the mark of one situation: not tolerated, no server, server not live, server live; and a policy becomes active only when it may have its webhook configuration. |
| `PolicyReconcile.StaleActiveCondition` | internal/controller/policy_subreconciler.go:216-224 | The condition PolicyActive is true in another phase than active if and only if the server is unavailable, a finalizer was removed and the stored condition was true. |
| `PolicyReconcile.StaleActiveArises` | internal/controller/policy_subreconciler.go:216-224 | It happens: a policy becomes active, its server is deleted, and the next reconcile leaves the condition true with no webhook configuration. |
| `PolicyReconcile.StaleActiveClears` | internal/controller/policy_subreconciler.go:274-289 | Whatever else changes, the next reconcile without errors clears it. |
| `PolicyReconcile.ServingAgrees` | internal/controller/policyserver_controller.go:141-146 | After reconciles without errors in any order that include a policy and its server, a webhook configuration of the policy implies that the server is live and its configuration holds the policy. |
| `PolicyReconcile.DoneStep` | internal/controller/policy_subreconciler.go:346-409 | Each reconcile establishes its own part of that and keeps all others'. |
| `Cleanup.Cluster.Run` | internal/cleanup/cleanup.go:66-125 | Stopped anywhere or not, a run keeps the final form of every object and the order of its stages: webhook configurations are touched only once the controller and its pods are gone, custom resources only once those are, backing objects only once custom resources are released. A run that succeeds has made of every object what the next row says; it stops only for missing options or a failed call. |
| `Cleanup.FinalIsUninstalled` | internal/cleanup/cleanup.go:165-311 | Kind by kind, with the labels and names spelled out: which objects go, which are only held by finalizers, and that no PolicyServer, policy or policy group keeps either finalizer of Kubewarden's while foreign finalizers, labels and content stay. |
| `Cleanup.FinalIsStable` | internal/cleanup/cleanup.go:66-125 | A second run reaches the same state. |
| `Cleanup.ResumedRun` | internal/cleanup/cleanup.go:66-125 | Any number of runs that stopped anywhere and one that succeeded end in the same state as one good run. |
| `Cleanup.Cluster.StripObject` | internal/cleanup/cleanup.go:211-243 | Removes both Kubewarden finalizers and no other; an object whose deletion that completes goes. It gives up only after five conflicts or at another error. |
| `Cleanup.Cluster.StripKubewardenFinalizers` | internal/cleanup/cleanup.go:194-207 | No PolicyServer, policy or policy group of either scope keeps a Kubewarden finalizer. |
| `Cleanup.Cluster.DeleteEachListItem` | internal/cleanup/cleanup.go:320-331 | Every object that matched the selector is gone or held by finalizers, and every final form is kept. |
| `Cleanup.Cluster.DeleteCertificateSecrets` | internal/cleanup/cleanup.go:299-311 | The three certificate Secrets are gone or held by finalizers. |
| `Cleanup.Cluster.DeleteController` | internal/cleanup/cleanup.go:129-156 | The controller's Deployment is gone or held by finalizers, and no pod of the controller is left. |
| `Cleanup.Cluster.WaitForPods` | internal/cleanup/cleanup.go:142-154 | Succeeds only when no pod is left; gives up at a failed list, or after 181 lists, one a second. |
| `Cleanup.ForeignMeans` | internal/cleanup/cleanup.go:220-223 | The finalizers that stay are exactly those other than Kubewarden's two. |
| `PolicyNames.DecodeUniqueName` | api/policies/v1/admissionpolicy_types.go:157-164 | A decoder inverts the unique name of every policy of the four kinds with a dot-free namespace. |
| `PolicyNames.DecodeSound` | api/policies/v1/clusteradmissionpolicygroup_types.go:234-239 | The decoder finds only valid policies that have the name. |
| `PolicyNames.UniqueNameInjective` | api/policies/v1/clusteradmissionpolicy_types.go:215-220 | Two policies have the same unique name only if they are the same. |
| `PolicyNames.UniqueNeverLegacy` | api/policies/v1/admissionpolicygroup_types.go:182-189 | No unique name equals any legacy name. |
| `PolicyNames.LegacyCollision` | internal/controller/legacy_policy_migration.go:31-44 | Two policies share a legacy name if and only if their namespaces and names are two splits of one text at dashes, or the group prefix makes them equal. |
| `PolicyNames.LegacyCollides` | internal/controller/legacy_policy_migration.go:31-44 | Valid policies of different namespaces and of different kinds that collide. |
| `PolicyServerConfig.EntryRoundTrip` | internal/controller/policyserver_controller_configmap.go:52-115 | Writing and reading the entry of an admitted policy gives every field back, except the host capabilities of a group itself. |
| `PolicyServerConfig.EntryDescribes` | internal/controller/policyserver_controller_configmap.go:208-271 | The entry of a policy holds its namespace, name, mode, message and spec, or every member of a group with its own; host capabilities are the configured list for a namespaced policy, if there is one, and `*` otherwise. |
| `PolicyServerConfig.SingleFields` | internal/controller/policyserver_controller_configmap.go:90-112 | Under which names the fields of a single policy are written, and which are left out when empty. |
| `PolicyServerConfig.GroupFields` | internal/controller/policyserver_controller_configmap.go:67-88 | The same for a policy group. |
| `PolicyServerConfig.MemberFields` | internal/controller/policyserver_controller_configmap.go:24-30 | The same for a member of a group. |
| `PolicyServerConfig.ConfigRoundTrip` | internal/controller/policy_subreconciler.go:620-630 | Parsing a written map of admitted policies succeeds and gives exactly the keys and entries written. |
| `PolicyServerConfig.GroupRoundTrip` | internal/controller/policyserver_controller_configmap.go:208-225 | A group entry comes back with all its members. |
| `PolicyServerConfig.SingleReadable` | internal/controller/policyserver_controller_configmap.go:52-65 | The reader accepts a single policy if and only if it has a module. |
| `LegacyMigration.BuildPoliciesMap` | internal/controller/policyserver_controller_configmap.go:243-271 | The map holds an entry under the unique name of each policy that describes that policy, and nothing else. |
| `LegacyMigration.CollectOwners` | internal/controller/legacy_policy_migration.go:95-102 | Groups the policies by legacy name, in order. |
| `LegacyMigration.AddLegacyPolicyEntries` | internal/controller/legacy_policy_migration.go:94-122 | In any iteration order, entries under unique names stay, and a legacy name is added exactly when one policy owns it, with that policy's entry. |
| `LegacyMigration.BuildServes` | internal/controller/legacy_policy_migration.go:82-93 | The served names are exactly the unique names and the uncontended legacy names, each with the entry of the policy that has the name. |
| `LegacyMigration.OneOwner` | internal/controller/legacy_policy_migration.go:104-119 | A list of owners of length one means a sole owner among distinct policies, and the converse. |
| `LegacyMigration.UpdateConfigMapData` | internal/controller/policyserver_controller_configmap.go:150-160 | Reading `policies.yml` back succeeds for every list of distinct admitted policies; every policy is there under its unique name, and what is there under a unique or legacy name describes the policy that has it, field by field. |
| `ManagedKeys.ApplyManagedKeys` | internal/controller/managed_keys.go:20-41 | Recorded keys that are no longer desired go, desired ones are set, and the tracking annotation names the desired keys in some order; also when both maps are the same object. |
| `ManagedKeys.Deployment.ConfigureLabelsAndAnnotations` | internal/controller/policyserver_controller_deployment.go:333-365 | Both merges in sequence, from nil maps as well; the five labels and the annotation of the system are there with their values whatever the spec says, and each tracking annotation exactly when there is something to track. |
| `ManagedKeys.RecordedBack` | internal/controller/managed_keys.go:36-40 | The next reconcile reads back from the tracking annotation exactly the keys this one wrote. |
| `ManagedKeys.MergeReplaces` | internal/controller/managed_keys.go:21-34 | A merge replaces the entries of the last spec by those of the new one and keeps everyone else's. |
| `ManagedKeys.ManagedKeyRuns` | internal/controller/policyserver_controller_deployment.go:333-365 | Over any sequence of specs, reconciles and writes of other tools, labels and annotations are the others' entries plus the last spec's, overridden by the system's, and nothing of earlier specs. |
| `AllowList.ValidateAllowedResources` | internal/controller/namespaced_policies_allowed_resources.go:51-91 | The usable part of a raw list, computed in nested loops. |
| `AllowList.UsableLists` | internal/controller/namespaced_policies_allowed_resources.go:109-127 | A pair survives if and only if one raw entry lists it and both parts are literal. |
| `AllowList.DisallowedTargets` | internal/controller/namespaced_policies_allowed_resources.go:155-172 | The one sorted list without duplicates of the renderings of the offending pairs, whatever the order of rules, groups and resources. |
| `AllowList.SortCompact` | internal/controller/namespaced_policies_allowed_resources.go:170-171 | The one strictly sorted list with the same elements. |
| `AllowList.SortedUnique` | internal/controller/namespaced_policies_allowed_resources.go:170-171 | A strictly sorted list is determined by its elements. |
| `AllowList.LessMeans` | internal/controller/namespaced_policies_allowed_resources.go:170-171 | The order: a proper prefix comes first, otherwise the smaller character where two strings first differ. |
| `AllowList.RuleSound` | internal/controller/namespaced_policies_allowed_resources.go:133-149 | A rule without offending pairs matches only requests whose group and parent resource one raw entry names literally. |
| `AllowList.IsNamespacedPolicyAllowed` | internal/controller/namespaced_policies_allowed_resources.go:179-186 | Allowed if and only if one raw entry names every selected group and resource without a wildcard; every request that an allowed namespaced policy intercepts is named in the raw list; the rejected targets are the others, as kubectl names them. |
| `CapabilityPatterns.ValidateParts` | api/policies/v1/policyserver_webhook.go:270-305 | The loop accepts exactly the paths of capabilities and groups followed by a wildcard; each rejection names its true reason. |
| `CapabilityPatterns.ValidateSingleCapability` | api/policies/v1/policyserver_webhook.go:259-306 | For every finite tree, accepts a string if and only if it is a lone wildcard, a root-to-leaf path, or the path of an interior node followed by a wildcard. |
| `CapabilityPatterns.ValidateCapabilities` | api/policies/v1/policyserver_webhook.go:246-256 | One error for each pattern that is not accepted, at its index, and for no other. |
| `CapabilityPatterns.NamesParts` | api/policies/v1/policyserver_webhook.go:267-268 | The three forms of a pattern, in terms of its parts. |
| `HostCapabilities.WildcardCovers` | crates/policy-evaluator/src/host_capabilities.rs:251-262 | Matching by string prefix is containment in the tree: it covers exactly the capabilities below the group. |
| `HostCapabilities.ValidateAgainstTree` | crates/policy-evaluator/src/host_capabilities.rs:89-136 | Accepts exactly capability paths and patterns with a wildcard right below an interior node. |
| `HostCapabilities.LaxerThanValidator` | crates/policy-evaluator/src/host_capabilities.rs:94-99 | Accepts everything the Go validator does, and beyond that exactly the patterns that go on after a wildcard. |
| `HostCapabilities.New` | crates/policy-evaluator/src/host_capabilities.rs:208-245 | A list that parses allows a capability if and only if one of its patterns denotes it; parsing fails at the first pattern that is not parsable, unless a lone wildcard comes before. |
| `HostCapabilities.AdmittedParses` | crates/policy-evaluator/src/host_capabilities.rs:215-229 | In a tree without white space, every pattern that the Go validator admits is its own trimmed form and parses. |
| `HostCapabilities.SpacesAre` | crates/policy-evaluator/src/host_capabilities.rs:215-218 | White space is exactly the 25 characters that have that Unicode property. |
| `HostCapabilities.TrimMeans` | crates/policy-evaluator/src/host_capabilities.rs:215-218 | Trimming takes all white space off both ends of a pattern, and nothing else. |
| `HostCapabilities.NewFromAdmitted` | crates/policy-evaluator/src/host_capabilities.rs:208-262 | For an admitted PolicyServer, a capability is allowed if and only if a pattern denotes it. |
| `WasmScanner.HasStandaloneMatch` | crates/kwctl/src/wasm_scanner.rs:71-81 | True if and only if the name occurs where the longer one does not; the loop ends and never slices out of range. |
| `WasmScanner.IsOperationPresent` | crates/kwctl/src/wasm_scanner.rs:46-67 | Whether an operation is reported, for any list of longer siblings. |
| `WasmScanner.SegmentSearch` | crates/kwctl/src/wasm_scanner.rs:12-18 | Searching the separated concatenation is searching each segment alone. |
| `WasmScanner.AloneSearch` | crates/kwctl/src/wasm_scanner.rs:12-18 | The same for an occurrence at which no sibling starts. |
| `WasmScanner.ReportedIffUsed` | crates/kwctl/src/wasm_scanner.rs:57-66 | With a sibling that is a prefix of all others, reported if and only if the operation occurs where no sibling starts. |
| `WasmScanner.ChainHasLeast` | crates/kwctl/src/wasm_scanner.rs:28-33 | A prefix chain has such a sibling. |
| `WasmScanner.ForkMisleads` | crates/kwctl/src/wasm_scanner.rs:63-66 | Two minimal siblings and the namespace, each in data in which the operation never stands alone, make data that misleads the scanner. |
| `WasmScanner.MisledByFork` | crates/kwctl/src/wasm_scanner.rs:57-66 | Whenever the scanner reports an operation that never stands alone, there are such siblings. |
| `WasmScanner.ScannerExact` | crates/kwctl/src/wasm_scanner.rs:57-66 | For all names, also those that occur inside their siblings or the namespace: the scanner is right on all data if and only if the namespace, or one of every two minimal siblings, cannot begin data in which the operation never stands alone. |
| `WasmScanner.LeastSiblingExact` | crates/kwctl/src/wasm_scanner.rs:57-66 | For names that occur in their siblings at the start only and not in the namespace, that is: one sibling is a prefix of all others. |
| `WasmScanner.Scan` | crates/kwctl/src/wasm_scanner.rs:11-44 | The result is exactly the operations reported; if the longer names nest, these are exactly the operations whose namespace occurs in some segment and whose name occurs in some segment where no longer operation name that begins with it does. |
| `WasmScanner.NestedIsLeast` | crates/kwctl/src/wasm_scanner.rs:28-33 | Nesting, said of the operations alone, is the condition on siblings. |
| `RegoArena.ReadString` | crates/burrego/src/stack_helper.rs:90-108 | Reads exactly up to the first zero, and fails if and only if the memory ends first. |
| `RegoArena.PushJsonRaw` | crates/burrego/src/stack_helper.rs:178-212 | Text and value lie on top of what was allocated; nothing below changes, even on failure; failures have a cause. |
| `RegoArena.PullJson` | crates/burrego/src/stack_helper.rs:118-136 | Gives back the text that the guest dumped, up to its first zero, whatever lies above it in memory, if the decoder takes it. |
| `RegoArena.Policy.New` | crates/burrego/src/policy.rs:144-160 | The first checkpoint lies on top of the empty data document. |
| `RegoArena.Policy.SetData` | crates/burrego/src/policy.rs:218-240 | The data lies right above the first checkpoint, whatever earlier calls left there; on failure the memory below that checkpoint is intact. |
| `RegoArena.Policy.Evaluate` | crates/burrego/src/policy.rs:242-297 | If evaluation is reached, answered or trapped, it is handed the view of this input on the memory below the second checkpoint, with the heap pointer at its end; an answer is the text of the value whose address evaluation returned; that memory stays as it is, also on failure. |
| `RegoArena.AnswerIsResult` | crates/burrego/src/policy.rs:281-297 | There is an answer if and only if the host decodes the dump, up to its first zero, of the value at the address that evaluation returned, in the memory it was handed with that address stored in the context and followed by the cells it allocated; and that text is the answer. |
| `RegoArena.Evaluator.Evaluate` | crates/burrego/src/evaluator.rs:253-284 | After any history of calls that stopped anywhere, what evaluation is handed, also if it traps, and the answer are functions of the module, the data, the input and the entrypoint of this call; an answer is the result of the evaluation that was handed this call's view; a call fails only for a reason of its own. |
| `RegoArena.AnswerAfterHistory` | crates/burrego/src/evaluator.rs:253-284 | The same over an explicit sequence of earlier calls, each answered or failed; each call leaves at most one record of an evaluation, in the order of the calls, and it is the view of that call's own request; the answer is the result of the last record. |
| `RegoArena.Evaluator.Reset` | crates/burrego/src/evaluator.rs:178-192 | Replaces guest and policy together or not at all. |
| `RegoArena.Evaluator.Setup` | crates/burrego/src/evaluator.rs:121-176 | The first checkpoint lies above the listing of builtins and the empty data document, a function of the module. |
| `RegoArena.BaseShape` | crates/burrego/src/evaluator.rs:121-176 | That memory in cells: the initial memory, what the listing allocates, its text, and the empty object with its value. |
| `RegoArena.PullNames` | crates/burrego/src/policy.rs:162-216 | A listing is what the decoder makes of the text that the guest dumped for it; it fails for a text that is not a dictionary, or a trap. |
| `RegoArena.Evaluator.FromModule` | crates/burrego/src/evaluator.rs:60-119 | The later listings of builtins and entrypoints leave the memory below the checkpoint intact; the entrypoints are the numbers listed, and every listed builtin is supported. |
| `RegoArena.HandedShape` | crates/burrego/src/policy.rs:255-281 | What an evaluation of a request is handed: the memory below the first checkpoint, data, input and context, adjacent and disjoint, with the addresses of this call's values; the heap pointer is the sum of the sizes of these parts. |

## Left out

- X.509, PEM, ECDSA and TLS: replaced by records; times are whole seconds.
- The conflict retry of `updateSecretWithRetry`: while a pass runs, it is the only writer of Secrets that exist.
- RotationProof.NoTrustGapInAnyRun: needs safe copies of the Secret, because without them the property is false (StaleReadOpensGap, RegenerationOpensGap, CreateSafeExact).
- RotationProof.TrustBeforeSigning: speaks of the cert controller's own signatures. The PolicyServer reconciler and the init mode sign without waiting for bundles: certificates that are missing, and, in the PolicyServer reconciler, existing ones whose Secret has no or an outdated format version. The format version is not part of the model: such a regeneration may happen at any time.
- PolicyLifecycleProof.TeardownInAnyRun: needs that no creation was missed before the release, because without that the property is false (StaleServerRead, MissedExact), and that `mutating` changes only when that is safe (FlipsAreSafeIn), because without that the invariant it rests on is (SafeFlipExact).
- CertReconciler.Cluster.Reconcile: the clock stands still during one pass; in `RotationProtocol.dfy` it moves between any two calls.
- CertReconciler.Cluster.EnsureCARoot: another replica's root is valid from the same instant, since the clock stands still.
- PolicyLifecycleProof.NoOrphanInAnyRun: other tools do not strip Kubewarden's finalizer and do not create webhook configurations under unique names.
- PolicyReconcile.Cluster.ReconcileServer: only the configuration and the existence of the Deployment; certificate Secret, PodDisruptionBudget, Service and status conditions are not part of it.
- PolicyReconcile.Cluster.Reconcile: pods and ReplicaSets are one fact per server.
- Cleanup.Cluster.Run: owner references and garbage collection are not modelled, and nobody else writes.
- RegoArena.PullJson: the decoder is a verdict on a text; the value it gives is not modelled.
- RegoArena.Evaluator.FromModule: a listing with a value that is not a 64-bit number panics in the original and is no dictionary here; the table that StackHelper builds from the first listing is not part of the model.
- WasmScanner.ScannerExact: whether a word can begin such data is stated as the existence of a continuation, not as a procedure that finds one.
- RegoArena.ReadString: addresses are natural numbers; an address at or above 2 GiB, which panics in the conversion from i32, is not modelled, nor are block headers and alignment of the guest's allocator.
- PolicyServerConfig.ConfigRoundTrip: works on JSON trees, not on their text form.
- PolicyNames.LegacyCollision: the empty legacy name of an unknown policy type does not occur, since there are four kinds.
- AllowList.SortCompact: orders by code points; sorting in place is modelled on a list.
- The removal of webhook configurations under legacy names, which would repeat the removal under unique names.
- Deployment, Service and PodDisruptionBudget assembly, CEL, generated code, kwctl commands, defaults applier, metrics: long copying or calls into libraries, with no hard property.
