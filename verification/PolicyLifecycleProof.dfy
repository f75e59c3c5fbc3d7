/** Safety of the policy life cycle over every run: no orphaned webhook configuration, and a PolicyServer torn down
    last. */
module PolicyLifecycleProof {
  import opened Options
  import opened PolicyLifecycle

  // ---- one policy name ----

  /** A webhook configuration only exists next to its policy, which holds the finalizer. */
  ghost predicate NoOrphan(l: Local) {
    && (l.validating.Some? ==> l.policy.Some? && Kubewarden in l.policy.value.finalizers && !l.policy.value.mutating)
    && (l.mutating.Some? ==> l.policy.Some? && Kubewarden in l.policy.value.finalizers && l.policy.value.mutating)
  }

  /** The finalizer keeps a deleted policy in place. */
  lemma FinalizerHolds(p: Policy)
    requires Kubewarden in p.finalizers
    ensures Stored(p) == Some(p)
  {
  }

  /** The stored policy is what the reconcile took it for, but for its version and deletion. */
  ghost predicate SamePolicy(l: Local, copy: Policy) {
    && l.policy.Some? && l.policy.value.uid == copy.uid && Kubewarden in l.policy.value.finalizers
    && l.policy.value.mutating == copy.mutating && l.policy.value.server == copy.server
  }

  ghost predicate PassInv(l: Local, pass: Pass) {
    && (Current(l, pass.copy) ==> l.policy.value == pass.copy)
    && (pass.CanWrite() ==> SamePolicy(l, pass.copy))
    && match pass.phase
       case Finalized => Kubewarden in pass.copy.finalizers
       case HookRead(seen) => seen.Some? && l.HookOf(pass.copy.mutating).Some? ==> SamePolicy(l, pass.copy)
       case HookFound(uid) => l.HookOf(pass.copy.mutating).Some? ==> l.HookOf(pass.copy.mutating).value.uid == uid
       case HookGone => l.HookOf(pass.copy.mutating).None?
       case _ => true
  }

  /** All numbers in use are below `now`. */
  ghost predicate Numbered(l: Local, now: nat) {
    && (l.policy.Some? ==> l.policy.value.uid < now && l.policy.value.version < now)
    && (l.pass.Some? ==> l.pass.value.copy.uid < now && l.pass.value.copy.version < now)
  }

  ghost predicate LocalInv(l: Local, now: nat) {
    Numbered(l, now) && NoOrphan(l) && (l.pass.Some? ==> PassInv(l, l.pass.value))
  }

  predicate ByOthers(step: PolicyStep) {
    step.Create? || step.Update? || step.FlipMutating? || step.SetOther? || step.Delete? || step.TouchHook? ||
      step.DropHook?
  }

  /** The finalizers a user or another tool can write never lose Kubewarden's. */
  lemma OthersKeepFinalizer(l: Local, step: PolicyStep, now: nat)
    requires LocalEnabled(l, step) && ByOthers(step)
    requires l.policy.Some? && Kubewarden in l.policy.value.finalizers
    ensures var after := DoLocal(l, step, now);
            && after.policy.Some? && Kubewarden in after.policy.value.finalizers
            && after.policy.value.uid == l.policy.value.uid && after.policy.value.server == l.policy.value.server
            && (step.FlipMutating? || after.policy.value.mutating == l.policy.value.mutating)
  {
    var p := l.policy.value;
    FinalizerHolds(p.(version := now, deleting := true));
    FinalizerHolds(p.(version := now, finalizers := p.finalizers + {Other}));
    FinalizerHolds(p.(version := now, finalizers := p.finalizers - {Other}));
  }

  lemma StepByOthers(l: Local, step: PolicyStep, now: nat)
    requires LocalInv(l, now) && LocalEnabled(l, step) && ByOthers(step)
    requires step.FlipMutating? ==> SafeFlip(l)
    ensures LocalInv(DoLocal(l, step, now), now + 1)
  {
    if l.policy.Some? && Kubewarden in l.policy.value.finalizers { OthersKeepFinalizer(l, step, now); }
    assert NoOrphan(DoLocal(l, step, now));
  }

  lemma StepOfReconcile(l: Local, step: PolicyStep, now: nat)
    requires LocalInv(l, now) && LocalEnabled(l, step) && !ByOthers(step)
    ensures LocalInv(DoLocal(l, step, now), now + 1)
  {
  }

  /** Every call, by whomever, keeps the invariant, as long as `spec.mutating` only changes when that is safe. */
  lemma LocalStep(l: Local, step: PolicyStep, now: nat)
    requires LocalInv(l, now) && LocalEnabled(l, step)
    requires step.FlipMutating? ==> SafeFlip(l)
    ensures LocalInv(DoLocal(l, step, now), now + 1)
  {
    hide LocalInv, LocalEnabled, DoLocal;
    if ByOthers(step) { StepByOthers(l, step, now); } else { StepOfReconcile(l, step, now); }
  }

  lemma LaterInv(l: Local, now: nat)
    requires LocalInv(l, now)
    ensures LocalInv(l, now + 1)
  {
    hide NoOrphan, PassInv;
  }

  // ---- webhook configurations of a PolicyServer ----

  ghost predicate BoundHook(l: Local, m: bool, name: ServerName) {
    BoundTo(l, name) && l.HookOf(m).Some?
  }

  ghost predicate NoBoundHook(s: State, name: ServerName) {
    forall id, m :: !BoundHook(At(s, id), m, name)
  }

  /** A webhook configuration bound to a server appears only when a reconcile creates it for that server. */
  lemma HooksAppear(l: Local, step: PolicyStep, now: nat, m: bool, name: ServerName)
    requires LocalInv(l, now) && LocalEnabled(l, step)
    requires BoundHook(DoLocal(l, step, now), m, name) && !BoundHook(l, m, name)
    ensures step.WriteHook? && Creates(l) && l.pass.value.copy.server == name && l.pass.value.copy.mutating == m
  {
    if l.policy.Some? { FinalizerHolds(l.policy.value.(finalizers := {Kubewarden})); }
  }

  /** And it does appear then. */
  lemma CreationAppears(l: Local, now: nat)
    requires LocalInv(l, now) && Creates(l)
    ensures LocalEnabled(l, WriteHook)
    ensures BoundHook(DoLocal(l, WriteHook, now), l.pass.value.copy.mutating, l.pass.value.copy.server)
  {
  }

  ghost predicate LocalsInv(s: State) {
    forall id :: LocalInv(At(s, id), s.now)
  }

  lemma NewHook(s: State, id: Id, step: PolicyStep, k: Id, m: bool, name: ServerName)
    requires LocalsInv(s) && Enabled(s, OfPolicy(id, step))
    requires BoundHook(At(Do(s, OfPolicy(id, step)), k), m, name) && !BoundHook(At(s, k), m, name)
    ensures k == id && CreatesFor(s, OfPolicy(id, step), name)
    ensures At(s, id).pass.Some? && At(s, id).pass.value.copy.mutating == m
  {
    hide LocalInv, DoLocal, LocalEnabled, BoundHook;
    var after := Do(s, OfPolicy(id, step));
    assert LocalInv(At(s, id), s.now);
    assert k != id ==> At(after, k) == At(s, k);
    HooksAppear(At(s, id), step, s.now, m, name);
  }

  // ---- PolicyServers ----

  ghost predicate ServerCopyInv(v: ServerLocal, copy: Server, now: nat) {
    && copy.uid < now && copy.version < now
    && (CurrentServer(v, copy) ==> v.server.value == copy)
  }

  /** What a deletion reconcile has yet to look at covers every webhook configuration that is left. */
  ghost predicate SeesAll(s: State, name: ServerName, phase: ServerPhase) {
    forall id, m :: BoundHook(At(s, id), m, name) ==> phase.StillSees(id, m)
  }

  ghost predicate CheckInv(s: State, name: ServerName, v: ServerLocal, pass: ServerPass) {
    && pass.copy.deleting && !pass.copy.cleanedUp
    && (pass.phase.Checking? && pass.phase.half ==> pass.phase.todo != [])
    && (pass.phase.Listing? ==> pass.phase.kinds != [])
    && (CurrentServer(v, pass.copy) && Kubewarden in v.server.value.finalizers &&
        (pass.phase.Checking? ==> !pass.phase.found) ==>
          SeesAll(s, name, pass.phase))
  }

  ghost predicate ServerInv(s: State, name: ServerName) {
    var v := ServerAt(s, name);
    && (v.server.Some? ==> v.server.value.uid < s.now && v.server.value.version < s.now)
    && (v.server.Some? && v.server.value.cleanedUp ==>
          v.server.value.deleting && (Kubewarden in v.server.value.finalizers ==> NoBoundHook(s, name)))
    && (v.pass.Some? ==> ServerCopyInv(v, v.pass.value.copy, s.now))
    && (v.pass.Some? && !v.pass.value.phase.ServerStarted? ==> CheckInv(s, name, v, v.pass.value))
  }

  /** A creation that the deletion of its server will still notice does no harm. */
  lemma PolicyStepServer(s: State, id: Id, step: PolicyStep, name: ServerName)
    requires LocalsInv(s) && ServerInv(s, name) && Enabled(s, OfPolicy(id, step))
    requires !MissedWrite(s, OfPolicy(id, step), name)
    ensures ServerInv(Do(s, OfPolicy(id, step)), name)
  {
    hide LocalsInv, At, BoundHook, Enabled, CreatesFor;
    var after := Do(s, OfPolicy(id, step));
    var v := ServerAt(s, name);
    assert ServerAt(after, name) == v && after.now == s.now + 1;
    forall k, m | BoundHook(At(after, k), m, name) && !BoundHook(At(s, k), m, name)
      ensures k == id && CreatesFor(s, OfPolicy(id, step), name) && At(s, id).pass.Some? &&
              At(s, id).pass.value.copy.mutating == m
    {
      NewHook(s, id, step, k, m, name);
    }
  }

  lemma ServerStepOther(s: State, name: ServerName, step: ServerStep, other: ServerName)
    requires ServerInv(s, other) && Enabled(s, OfServer(name, step)) && other != name
    ensures ServerInv(Do(s, OfServer(name, step)), other)
  {
    hide DoServer, ServerEnabled, NoBoundHook, SeesAll;
    var after := Do(s, OfServer(name, step));
    SameHooks(s, after, other);
    assert ServerAt(after, other) == ServerAt(s, other);
  }

  lemma SameHooks(s: State, after: State, name: ServerName)
    requires after.locals == s.locals
    ensures NoBoundHook(after, name) == NoBoundHook(s, name)
    ensures forall phase :: SeesAll(after, name, phase) == SeesAll(s, name, phase)
  {
    hide BoundHook;
    assert forall id :: At(after, id) == At(s, id);
  }

  lemma ListSees(s: State, name: ServerName, phase: ServerPhase, ids: seq<Id>)
    requires SeesAll(s, name, phase) && KindsLeft(phase) != []
    requires forall id :: id in ids <==> BoundTo(At(s, id), name) && id.kind == KindsLeft(phase)[0]
    ensures SeesAll(s, name, AfterList(phase, ids))
  {
    hide At;
    var kinds := KindsLeft(phase);
    assert forall k :: k in kinds <==> k == kinds[0] || k in kinds[1..];
    forall id, m | BoundHook(At(s, id), m, name) ensures AfterList(phase, ids).StillSees(id, m) {
      EveryKind(id);
      assert phase.StillSees(id, m);
    }
  }

  lemma EveryKind(id: Id)
    ensures id.kind in ALL_KINDS
  {
    var i := match id.kind
      case ClusterPolicies => 0
      case NamespacedPolicies => 1
      case NamespacedGroups => 2
      case ClusterGroups => 3;
    assert ALL_KINDS[i] == id.kind;
  }

  lemma StartedSees(s: State, name: ServerName)
    ensures SeesAll(s, name, ServerStarted)
  {
  }

  lemma CheckSees(s: State, name: ServerName, todo: seq<Id>, half: bool)
    requires SeesAll(s, name, Checking(todo, half, false)) && todo != []
    ensures !half && At(s, todo[0]).validating.None? ==> SeesAll(s, name, Checking(todo, true, false))
    ensures half && At(s, todo[0]).mutating.None? ==> SeesAll(s, name, Checking(todo[1..], false, false))
  {
    hide At;
    assert forall id :: id in todo <==> id == todo[0] || id in todo[1..];
    forall id, m | BoundHook(At(s, id), m, name)
      ensures !half && At(s, todo[0]).validating.None? ==> Checking(todo, true, false).StillSees(id, m)
      ensures half && At(s, todo[0]).mutating.None? ==> Checking(todo[1..], false, false).StillSees(id, m)
    {
      assert Checking(todo, half, false).StillSees(id, m);
    }
  }

  lemma NothingLeft(s: State, name: ServerName, half: bool)
    requires SeesAll(s, name, Checking([], half, false))
    ensures NoBoundHook(s, name)
  {
    hide At;
    assert forall id, m :: !Checking([], half, false).StillSees(id, m);
  }

  /** A deletion reconcile reports success only when nothing is left, and that report stays true. */
  lemma ServerStepOwn(s: State, name: ServerName, step: ServerStep)
    requires ServerInv(s, name) && Enabled(s, OfServer(name, step))
    ensures ServerInv(Do(s, OfServer(name, step)), name)
  {
    hide NoBoundHook, SeesAll, At;
    var after := Do(s, OfServer(name, step));
    var v := ServerAt(s, name);
    SameHooks(s, after, name);
    StartedSees(s, name);
    if v.pass.Some? && SeesAll(s, name, v.pass.value.phase) {
      var phase := v.pass.value.phase;
      if step.ListKind? { ListSees(s, name, phase, step.ids); }
      if phase.Checking? && !phase.found {
        if phase.todo != [] { CheckSees(s, name, phase.todo, phase.half); } else { NothingLeft(s, name, phase.half); }
      }
    }
  }

  // ---- runs ----

  lemma LocalsStep(s: State, step: Step)
    requires LocalsInv(s) && Enabled(s, step) && FlipsAreSafe(s, step)
    ensures LocalsInv(Do(s, step))
  {
    hide LocalInv, DoLocal, LocalEnabled, DoServer, ServerEnabled;
    var after := Do(s, step);
    forall id ensures LocalInv(At(after, id), after.now) {
      if step.OfPolicy? && step.id == id {
        LocalStep(At(s, id), step.policyStep, s.now);
      } else {
        assert At(after, id) == At(s, id);
        LaterInv(At(s, id), s.now);
      }
    }
  }

  lemma ServerInvStep(s: State, step: Step, name: ServerName)
    requires LocalsInv(s) && ServerInv(s, name) && Enabled(s, step) && !MissedWrite(s, step, name)
    ensures ServerInv(Do(s, step), name)
  {
    hide LocalsInv, ServerInv, Enabled, Do, MissedWrite;
    match step
    case OfPolicy(id, policyStep) => PolicyStepServer(s, id, policyStep, name);
    case OfServer(own, serverStep) =>
      if own == name { ServerStepOwn(s, name, serverStep); } else { ServerStepOther(s, own, serverStep, name); }
  }

  lemma InitialInv(name: ServerName)
    ensures LocalsInv(INITIAL) && ServerInv(INITIAL, name)
  {
  }

  lemma {:induction false} RunLocals(run: seq<State>, steps: seq<Step>, i: nat)
    requires IsRun(run, steps) && FlipsAreSafeIn(run, steps) && i <= |steps|
    ensures LocalsInv(run[i])
  {
    hide LocalsInv, Enabled, Do, FlipsAreSafe;
    InitialInv(0);
    if i > 0 {
      RunLocals(run, steps, i - 1);
      assert run[i] == Do(run[i - 1], steps[i - 1]);
      LocalsStep(run[i - 1], steps[i - 1]);
    }
  }

  lemma {:induction false} RunServer(run: seq<State>, steps: seq<Step>, i: nat, name: ServerName)
    requires IsRun(run, steps) && FlipsAreSafeIn(run, steps) && i <= |steps|
    requires forall k :: 0 <= k < i ==> !MissedWrite(run[k], steps[k], name)
    ensures ServerInv(run[i], name)
  {
    hide LocalsInv, ServerInv, Enabled, Do, MissedWrite, FlipsAreSafeIn;
    InitialInv(name);
    if i > 0 {
      RunServer(run, steps, i - 1, name);
      RunLocals(run, steps, i - 1);
      assert run[i] == Do(run[i - 1], steps[i - 1]);
      ServerInvStep(run[i - 1], steps[i - 1], name);
    }
  }

  /**
    In every state of every run, whatever crashed or was interleaved, a webhook configuration under a policy's unique
    name implies that the policy is still there, has that kind and carries the finalizer.
   */
  lemma NoOrphanInAnyRun(run: seq<State>, steps: seq<Step>, i: nat, id: Id)
    requires IsRun(run, steps) && FlipsAreSafeIn(run, steps) && i <= |steps|
    ensures NoOrphan(At(run[i], id))
  {
    hide IsRun, FlipsAreSafeIn;
    assert |run| == |steps| + 1 by { RunLength(run, steps); }
    RunLocals(run, steps, i);
    assert LocalInv(At(run[i], id), run[i].now);
  }

  lemma RunLength(run: seq<State>, steps: seq<Step>)
    requires IsRun(run, steps)
    ensures |run| == |steps| + 1
  {
  }

  /** The finalizer of a PolicyServer goes in this step. */
  ghost predicate Releases(s: State, step: Step, name: ServerName) {
    && Enabled(s, step)
    && ServerAt(s, name).server.Some? && Kubewarden in ServerAt(s, name).server.value.finalizers
    && var after := ServerAt(Do(s, step), name).server;
       after.None? || Kubewarden !in after.value.finalizers
  }

  /** The finalizer leaves in no other step than its removal, and then nothing is bound to the server. */
  lemma ReleaseNeedsCleanup(s: State, step: Step, name: ServerName)
    requires ServerInv(s, name) && Releases(s, step, name)
    ensures step == OfServer(name, ReleaseServer) && NoBoundHook(s, name) && !LiveServer(s, name)
  {
    hide NoBoundHook, SeesAll;
    if step.OfServer? && step.name == name && !step.serverStep.ReleaseServer? {
      ServerFinalizerHolds(s, name, step.serverStep);
    }
  }

  lemma ServerFinalizerHolds(s: State, name: ServerName, step: ServerStep)
    requires ServerEnabled(s, name, step) && !step.ReleaseServer?
    requires ServerAt(s, name).server.Some? && Kubewarden in ServerAt(s, name).server.value.finalizers
    ensures DoServer(s, name, step).server.Some? && Kubewarden in DoServer(s, name, step).server.value.finalizers
  {
    assert ServerAt(s, name).server.value.finalizers != {};
  }

  /** The server is missing or being deleted, and no webhook configuration is bound to it. */
  ghost predicate Quiet(s: State, name: ServerName) {
    !LiveServer(s, name) && NoBoundHook(s, name)
  }

  /** The exact condition on one step: it keeps the quiet if and only if it is not a creation for this server. */
  lemma QuietStep(s: State, step: Step, name: ServerName)
    requires LocalsInv(s) && Enabled(s, step) && Quiet(s, name) && step != OfServer(name, CreateServer)
    ensures Quiet(Do(s, step), name) <==> !LateWrite(s, step, name)
  {
    hide LocalInv, BoundHook, LocalEnabled, DoLocal;
    var after := Do(s, step);
    if step.OfPolicy? {
      forall k, m | BoundHook(At(after, k), m, name) ensures CreatesFor(s, step, name) {
        NewHook(s, step.id, step.policyStep, k, m, name);
      }
      if CreatesFor(s, step, name) {
        assert LocalInv(At(s, step.id), s.now);
        CreationAppears(At(s, step.id), s.now);
        assert BoundHook(At(after, step.id), At(s, step.id).pass.value.copy.mutating, name);
      }
    } else {
      assert forall id :: At(after, id) == At(s, id);
    }
  }

  /** For the write itself: quiet stays if and only if the write is for another server, or refused. */
  lemma QuietWrite(s: State, id: Id, name: ServerName)
    requires LocalsInv(s) && Enabled(s, OfPolicy(id, WriteHook)) && Quiet(s, name)
    ensures var pass := At(s, id).pass.value;
            Quiet(Do(s, OfPolicy(id, WriteHook)), name) <==>
              pass.copy.server != name || At(s, id).HookOf(pass.copy.mutating) != pass.phase.seen
  {
    hide LocalsInv;
    QuietStep(s, OfPolicy(id, WriteHook), name);
    var l := At(s, id);
    assert LocalInv(l, s.now) by { InvAt(s, id); }
    var pass := l.pass.value;
    if pass.phase.seen.Some? && l.HookOf(pass.copy.mutating) == pass.phase.seen {
      assert !BoundHook(l, pass.copy.mutating, name);
    }
  }

  lemma InvAt(s: State, id: Id)
    requires LocalsInv(s)
    ensures LocalInv(At(s, id), s.now)
  {
  }

  ghost predicate QuietFrom(run: seq<State>, i: nat, j: nat, name: ServerName)
    requires j < |run|
  {
    forall k {:trigger run[k]} :: i <= k <= j ==> Quiet(run[k], name)
  }

  lemma {:induction false} QuietRun(run: seq<State>, steps: seq<Step>, i: nat, j: nat, name: ServerName)
    requires IsRun(run, steps) && FlipsAreSafeIn(run, steps) && i <= j <= |steps| && Quiet(run[i], name)
    requires forall k :: i <= k < j ==> steps[k] != OfServer(name, CreateServer)
    ensures QuietFrom(run, i, j, name) <==> forall k :: i <= k < j ==> !LateWrite(run[k], steps[k], name)
    decreases j
  {
    hide LocalsInv, Enabled, Do, LateWrite, Quiet, FlipsAreSafeIn;
    if i < j {
      QuietRun(run, steps, i, j - 1, name);
      RunLocals(run, steps, j - 1);
      assert run[j] == Do(run[j - 1], steps[j - 1]);
      if Quiet(run[j - 1], name) { QuietStep(run[j - 1], steps[j - 1], name); }
      assert QuietFrom(run, i, j, name) <==> QuietFrom(run, i, j - 1, name) && Quiet(run[j], name);
    }
  }

  /**
    The finalizer of a PolicyServer goes only when no policy bound to it has a webhook configuration, provided that none
    was created that its deletion did not notice. From then on none appears until somebody creates a PolicyServer of
    that name again, if and only if no reconcile creates one for the server that is going.
   */
  lemma TeardownInAnyRun(run: seq<State>, steps: seq<Step>, i: nat, j: nat, name: ServerName)
    requires IsRun(run, steps) && FlipsAreSafeIn(run, steps) && i <= j <= |steps| && i < |steps|
    requires forall k :: 0 <= k < i ==> !MissedWrite(run[k], steps[k], name)
    requires Releases(run[i], steps[i], name)
    requires forall k :: i <= k < j ==> steps[k] != OfServer(name, CreateServer)
    ensures NoBoundHook(run[i], name)
    ensures QuietFrom(run, i, j, name) <==> forall k :: i <= k < j ==> !LateWrite(run[k], steps[k], name)
  {
    hide IsRun, FlipsAreSafeIn, MissedWrite, LateWrite, ServerInv, Releases, QuietFrom, LiveServer, NoBoundHook;
    RunLength(run, steps);
    RunServer(run, steps, i, name);
    ReleaseNeedsCleanup(run[i], steps[i], name);
    QuietRun(run, steps, i, j, name);
  }

  /** In particular both promises hold when every webhook configuration is created while its server is live. */
  lemma LiveWritesAreSafe(s: State, step: Step, name: ServerName)
    requires CreatesFor(s, step, name) ==> LiveServer(s, name)
    ensures !MissedWrite(s, step, name) && !LateWrite(s, step, name)
  {
  }
}
