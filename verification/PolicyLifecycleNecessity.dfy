/**
  The conditions of the life-cycle theorems are exact: what happens when `spec.mutating` changes at an unsafe moment,
  and when a webhook configuration is created that the deletion of its PolicyServer does not notice.
 */
module PolicyLifecycleNecessity {
  import opened Options
  import opened Collections
  import opened PolicyLifecycle
  import opened PolicyLifecycleProof

  // ---- changing the flag ----

  /** Steps on one policy name; None when one of them is not possible, or is itself an unsafe change of the flag. */
  ghost function LocalAfter(l: Local, steps: seq<PolicyStep>, now: nat): Option<Local>
    decreases |steps|
  {
    if steps == [] then Some(l)
    else if LocalEnabled(l, steps[0]) && (steps[0].FlipMutating? ==> SafeFlip(l)) then
      LocalAfter(DoLocal(l, steps[0], now), steps[1..], now + 1)
    else None
  }

  lemma FirstLocal(l: Local, step: PolicyStep, rest: seq<PolicyStep>, now: nat)
    requires LocalEnabled(l, step) && !step.FlipMutating?
    ensures LocalAfter(l, [step] + rest, now) == LocalAfter(DoLocal(l, step, now), rest, now + 1)
  {
    assert ([step] + rest)[1..] == rest;
  }

  /** A policy that is gone while one of its webhook configurations still intercepts requests. */
  predicate Orphaned(l: Local) {
    l.policy.None? && l.HasHook()
  }

  ghost predicate NotOrphanedAfter(l: Local, steps: seq<PolicyStep>, now: nat) {
    LocalAfter(l, steps, now).Some? ==> !Orphaned(LocalAfter(l, steps, now).value)
  }

  ghost predicate NeverOrphaned(l: Local, now: nat) {
    forall steps :: NotOrphanedAfter(l, steps, now)
  }

  lemma {:induction false} InvStays(l: Local, steps: seq<PolicyStep>, now: nat)
    requires LocalInv(l, now)
    ensures NotOrphanedAfter(l, steps, now)
    decreases |steps|
  {
    if LocalAfter(l, steps, now).Some? && steps != [] {
      hide LocalInv, LocalEnabled, DoLocal;
      LocalStep(l, steps[0], now);
      InvStays(DoLocal(l, steps[0], now), steps[1..], now + 1);
    }
  }

  const DELETION: seq<PolicyStep> := [Delete, SetOther(false), Begin, Remove, FindHook, Release]

  /** A deletion and one undisturbed reconcile, with other finalizers dropped on the way. */
  lemma DeletionRuns(l: Local, now: nat)
    requires l.policy.Some? && l.pass.None? && Kubewarden in l.policy.value.finalizers
    requires l.HookOf(l.policy.value.mutating).None?
    ensures LocalAfter(l, DELETION, now) == Some(l.(policy := None))
  {
    hide LocalAfter;
    var p := l.policy.value.(version := now, deleting := true);
    var q := p.(version := now + 1, finalizers := p.finalizers - {Other});
    FinalizerHolds(p);
    FinalizerHolds(q);
    forall f | f in q.finalizers ensures f in {Kubewarden, Pre114} {
      assert f == Kubewarden || f == Pre114 || f == Other;
    }
    assert q.finalizers - {Kubewarden, Pre114} == {};
    var l1, l2 := l.(policy := Some(p)), l.(policy := Some(q));
    var l3 := l2.(pass := Some(Pass(q, Started)));
    var l4 := l2.(pass := Some(Pass(q, Removing)));
    var l5 := l2.(pass := Some(Pass(q, HookGone)));
    LocalNothing(l.(policy := None), now + 6);
    FirstLocal(l5, Release, [], now + 5);
    FirstLocal(l4, FindHook, [Release] + [], now + 4);
    FirstLocal(l3, Remove, [FindHook] + ([Release] + []), now + 3);
    FirstLocal(l2, Begin, [Remove] + ([FindHook] + ([Release] + [])), now + 2);
    FirstLocal(l1, SetOther(false), [Begin] + ([Remove] + ([FindHook] + ([Release] + []))), now + 1);
    FirstLocal(l, Delete, [SetOther(false)] + ([Begin] + ([Remove] + ([FindHook] + ([Release] + [])))), now);
    assert DELETION == [Delete] + ([SetOther(false)] + ([Begin] + ([Remove] + ([FindHook] + ([Release] + [])))));
  }

  lemma LocalNothing(l: Local, now: nat)
    ensures LocalAfter(l, [], now) == Some(l)
  {
  }

  /** A webhook configuration of the other kind than the policy now has, and no reconcile: deleting the policy orphans
      it. */
  lemma WrongKindOrphans(l: Local, now: nat) returns (steps: seq<PolicyStep>)
    requires l.policy.Some? && Kubewarden in l.policy.value.finalizers
    requires l.HookOf(l.policy.value.mutating).None? && l.HookOf(!l.policy.value.mutating).Some?
    ensures LocalAfter(l, steps, now).Some? && Orphaned(LocalAfter(l, steps, now).value)
  {
    hide LocalAfter;
    if l.pass.Some? {
      DeletionRuns(l.(pass := None), now + 1);
      FirstLocal(l, Crash, DELETION, now);
      steps := [Crash] + DELETION;
    } else {
      DeletionRuns(l, now);
      steps := DELETION;
    }
  }

  /** From every state with a webhook configuration, a change of the flag can orphan it. */
  lemma FlipOrphans(l: Local, now: nat) returns (steps: seq<PolicyStep>)
    requires l.policy.Some? && NoOrphan(l) && l.HasHook()
    ensures var flipped := DoLocal(l, FlipMutating, now);
            LocalAfter(flipped, steps, now + 1).Some? && Orphaned(LocalAfter(flipped, steps, now + 1).value)
  {
    hide LocalAfter;
    steps := WrongKindOrphans(DoLocal(l, FlipMutating, now), now + 1);
  }

  /** A reconcile that can still create a webhook configuration gets to create one of the kind the policy had. */
  lemma {:induction false} CreatesOldKind(l: Local, now: nat) returns (steps: seq<PolicyStep>, t: Local)
    requires l.policy.Some? && l.pass.Some? && l.pass.value.CanWrite() && !l.HasHook()
    requires l.pass.value.phase.Started? || l.pass.value.phase.Finalized? || l.pass.value.phase.HookRead?
    ensures forall rest :: LocalAfter(l, steps + rest, now) == LocalAfter(t, rest, now + |steps|)
    ensures t.policy == l.policy && t.pass.None?
    ensures t.HookOf(l.pass.value.copy.mutating).Some? && t.HookOf(!l.pass.value.copy.mutating).None?
    decreases if l.pass.value.phase.Started? then 2 else if l.pass.value.phase.Finalized? then 1 else 0
  {
    hide LocalAfter;
    var phase := l.pass.value.phase;
    var step := if phase.Started? then AddFinalizer else if phase.Finalized? then ReadHook else WriteHook;
    var next := DoLocal(l, step, now);
    var more: seq<PolicyStep> := [];
    t := next;
    if !phase.HookRead? {
      more, t := CreatesOldKind(next, now + 1);
    }
    steps := [step] + more;
    forall rest ensures LocalAfter(l, steps + rest, now) == LocalAfter(t, rest, now + |steps|) {
      assert steps + rest == [step] + (more + rest);
      FirstLocal(l, step, more + rest, now);
      assert phase.HookRead? ==> more + rest == rest;
    }
  }

  /** The same without any webhook configuration yet, when the change comes while a reconcile may still create one. */
  lemma FlipDuringReconcileOrphans(l: Local, now: nat) returns (steps: seq<PolicyStep>)
    requires LocalInv(l, now) && l.policy.Some? && !l.HasHook() && l.pass.Some? && l.pass.value.CanWrite()
    ensures var flipped := DoLocal(l, FlipMutating, now);
            LocalAfter(flipped, steps, now + 1).Some? && Orphaned(LocalAfter(flipped, steps, now + 1).value)
  {
    hide LocalAfter;
    var flipped := DoLocal(l, FlipMutating, now);
    var first, t := CreatesOldKind(flipped, now + 1);
    var second := WrongKindOrphans(t, now + 1 + |first|);
    steps := first + second;
  }

  /**
    For every policy in every state that the invariant allows: changing the flag is safe if and only if no continuation,
    in which later changes are safe, leaves a webhook configuration without its policy.
   */
  lemma SafeFlipExact(l: Local, now: nat)
    requires LocalInv(l, now) && l.policy.Some?
    ensures SafeFlip(l) <==> NeverOrphaned(DoLocal(l, FlipMutating, now), now + 1)
  {
    hide LocalAfter, LocalInv;
    var flipped := DoLocal(l, FlipMutating, now);
    if SafeFlip(l) {
      LocalStep(l, FlipMutating, now);
      var later := now + 1;
      forall steps ensures NotOrphanedAfter(flipped, steps, later) {
        InvStays(flipped, steps, later);
      }
    } else if l.HasHook() {
      assert NoOrphan(l) by { InvNoOrphan(l, now); }
      var steps := FlipOrphans(l, now);
      assert !NotOrphanedAfter(flipped, steps, now + 1);
    } else {
      var steps := FlipDuringReconcileOrphans(l, now);
      assert !NotOrphanedAfter(flipped, steps, now + 1);
    }
  }

  lemma InvNoOrphan(l: Local, now: nat)
    requires LocalInv(l, now)
    ensures NoOrphan(l)
  {
  }

  // ---- a creation that the deletion of the server does not notice ----

  /** Steps of the whole system; None when one is not possible, changes a flag unsafely or is itself missed. */
  ghost function AfterAll(s: State, steps: seq<Step>, name: ServerName): Option<State>
    decreases |steps|
  {
    if steps == [] then Some(s)
    else if Enabled(s, steps[0]) && FlipsAreSafe(s, steps[0]) && !MissedWrite(s, steps[0], name) then
      AfterAll(Do(s, steps[0]), steps[1..], name)
    else None
  }

  /** Neither a change of the flag nor the creation of a webhook configuration. */
  predicate Plain(step: Step) {
    step.OfPolicy? ==> !step.policyStep.FlipMutating? && !step.policyStep.WriteHook?
  }

  lemma First(s: State, step: Step, rest: seq<Step>, name: ServerName)
    requires Enabled(s, step) && Plain(step)
    ensures AfterAll(s, [step] + rest, name) == AfterAll(Do(s, step), rest, name)
  {
    hide Enabled, Do;
    assert ([step] + rest)[1..] == rest;
  }

  lemma {:induction false} Chain(s: State, first: seq<Step>, t: State, second: seq<Step>, name: ServerName)
    requires AfterAll(s, first, name) == Some(t)
    ensures AfterAll(s, first + second, name) == AfterAll(t, second, name)
    decreases |first|
  {
    hide Enabled, Do, FlipsAreSafe, MissedWrite;
    if first == [] {
      assert first + second == second;
    } else {
      Chain(Do(s, first[0]), first[1..], t, second, name);
      assert (first + second)[1..] == first[1..] + second;
    }
  }

  lemma One(s: State, step: Step, name: ServerName)
    requires Enabled(s, step) && Plain(step)
    ensures AfterAll(s, [step], name) == Some(Do(s, step))
  {
    hide Enabled, Do;
    First(s, step, [], name);
    assert [step] + [] == [step];
  }

  /** Some webhook configurations may be gone; everything else is the same. */
  ghost predicate Thinned(l: Local, l': Local) {
    && l'.policy == l.policy && l'.pass == l.pass
    && forall m :: l'.HookOf(m) == l.HookOf(m) || l'.HookOf(m).None?
  }

  ghost predicate AllThinned(s: State, t: State) {
    forall k :: Thinned(At(s, k), At(t, k))
  }

  /** What a check has passed already is as it was. */
  ghost predicate PassedKept(s: State, t: State, phase: ServerPhase) {
    forall k, m :: !phase.StillSees(k, m) ==> At(t, k).HookOf(m) == At(s, k).HookOf(m)
  }

  ghost function InPhase(v: ServerLocal, phase: ServerPhase): ServerLocal
    requires v.pass.Some?
  {
    v.(pass := Some(v.pass.value.(phase := phase)))
  }

  /** Drops one webhook configuration, if it is there. */
  lemma DropIfThere(s: State, id: Id, m: bool, name: ServerName) returns (steps: seq<Step>, t: State)
    ensures AfterAll(s, steps, name) == Some(t) && t.servers == s.servers
    ensures At(t, id).HookOf(m).None? && At(t, id).HookOf(!m) == At(s, id).HookOf(!m)
    ensures At(t, id).policy == At(s, id).policy && At(t, id).pass == At(s, id).pass
    ensures forall k :: k != id ==> At(t, k) == At(s, k)
  {
    hide AfterAll;
    if At(s, id).HookOf(m).Some? {
      One(s, OfPolicy(id, DropHook(m)), name);
      steps, t := [OfPolicy(id, DropHook(m))], Do(s, OfPolicy(id, DropHook(m)));
    } else {
      Nothing(s, name);
      steps, t := [], s;
    }
  }

  lemma Nothing(s: State, name: ServerName)
    ensures AfterAll(s, [], name) == Some(s)
  {
  }

  /** One check that finds nothing, because what it would find is dropped first. */
  lemma CheckOne(s: State, name: ServerName) returns (steps: seq<Step>, t: State)
    requires var v := ServerAt(s, name);
             v.pass.Some? && v.pass.value.phase.Checking? && !v.pass.value.phase.found && v.pass.value.phase.todo != []
    ensures AfterAll(s, steps, name) == Some(t) && AllThinned(s, t) &&
            PassedKept(s, t, ServerAt(s, name).pass.value.phase)
    ensures var v := ServerAt(s, name); var phase := v.pass.value.phase;
            ServerAt(t, name) ==
            InPhase(v, if phase.half then Checking(phase.todo[1..], false, false)
                       else Checking(phase.todo, true, false))
  {
    hide AfterAll;
    var v := ServerAt(s, name);
    var phase := v.pass.value.phase;
    var first, mid := DropIfThere(s, phase.todo[0], phase.half, name);
    var step := OfServer(name, if phase.half then CheckMutating else CheckValidating);
    assert ServerAt(mid, name) == v;
    t := Do(mid, step);
    assert forall k :: At(t, k) == At(mid, k);
    One(mid, step, name);
    Chain(s, first, mid, [step], name);
    steps := first + [step];
  }

  lemma {:induction false} FinishCheck(s: State, name: ServerName) returns (steps: seq<Step>, t: State)
    requires var v := ServerAt(s, name);
             && v.pass.Some? && v.pass.value.phase.Checking? && !v.pass.value.phase.found
             && (v.pass.value.phase.half ==> v.pass.value.phase.todo != [])
    ensures AfterAll(s, steps, name) == Some(t) && AllThinned(s, t) &&
            PassedKept(s, t, ServerAt(s, name).pass.value.phase)
    ensures ServerAt(t, name) == InPhase(ServerAt(s, name), Checking([], false, false))
    decreases |ServerAt(s, name).pass.value.phase.todo|, !ServerAt(s, name).pass.value.phase.half
  {
    hide AfterAll, At;
    var phase := ServerAt(s, name).pass.value.phase;
    if phase.todo == [] {
      Nothing(s, name);
      steps, t := [], s;
    } else {
      var first, mid := CheckOne(s, name);
      var rest;
      rest, t := FinishCheck(mid, name);
      Chain(s, first, mid, rest, name);
      steps := first + rest;
      assert forall k, m :: !phase.StillSees(k, m) ==> !ServerAt(mid, name).pass.value.phase.StillSees(k, m);
    }
  }

  lemma {:induction false} FinishList(s: State, name: ServerName) returns (steps: seq<Step>, t: State, todo: seq<Id>)
    requires var v := ServerAt(s, name);
             && v.pass.Some? && v.pass.value.copy.deleting && !v.pass.value.copy.cleanedUp
             && KindsLeft(v.pass.value.phase) != []
    ensures AfterAll(s, steps, name) == Some(t) && t.locals == s.locals
    ensures ServerAt(t, name) == InPhase(ServerAt(s, name), Checking(todo, false, false))
    ensures forall k, m :: !ServerAt(s, name).pass.value.phase.StillSees(k, m) ==> k !in todo
    decreases |KindsLeft(ServerAt(s, name).pass.value.phase)|
  {
    hide AfterAll;
    var v := ServerAt(s, name);
    var phase := v.pass.value.phase;
    var kind := KindsLeft(phase)[0];
    var ids := ListOf(set id | id in s.locals && BoundTo(At(s, id), name) && id.kind == kind);
    assert forall id :: BoundTo(At(s, id), name) ==> id in s.locals;
    var step := OfServer(name, ListKind(ids));
    var mid := Do(s, step);
    var next := AfterList(phase, ids);
    assert ServerAt(mid, name) == InPhase(v, next);
    One(s, step, name);
    assert forall k, m :: !phase.StillSees(k, m) ==> !next.StillSees(k, m) && k !in ids by {
      forall k, m | !phase.StillSees(k, m) ensures !next.StillSees(k, m) && k !in ids { EveryKind(k); }
    }
    if next.Checking? {
      steps, t, todo := [step], mid, next.todo;
      assert forall k, m :: !next.StillSees(k, m) <==> k !in todo;
    } else {
      var rest;
      rest, t, todo := FinishList(mid, name);
      Chain(s, [step], mid, rest, name);
      steps := [step] + rest;
    }
  }

  /** The server is about to lose its finalizer. */
  ghost predicate Releasable(s: State, name: ServerName) {
    Releases(s, OfServer(name, ReleaseServer), name)
  }

  /** A deletion reconcile that is up to date gets to release the server, without a look at what it has passed. */
  lemma FinishDeletion(s: State, name: ServerName) returns (steps: seq<Step>, t: State)
    requires var v := ServerAt(s, name);
             && v.server.Some? && v.server.value.deleting && Kubewarden in v.server.value.finalizers
             && v.pass.Some? && v.pass.value.copy == v.server.value && !v.server.value.cleanedUp
             && (KindsLeft(v.pass.value.phase) == [] ==>
                   && v.pass.value.phase.Checking? && !v.pass.value.phase.found
                   && (v.pass.value.phase.half ==> v.pass.value.phase.todo != []))
    ensures AfterAll(s, steps, name) == Some(t) && AllThinned(s, t) &&
            PassedKept(s, t, ServerAt(s, name).pass.value.phase)
    ensures Releasable(t, name) && !LiveServer(t, name)
  {
    hide AfterAll, At, DoServer, ServerEnabled, Releases;
    var v := ServerAt(s, name);
    var phase := v.pass.value.phase;
    var first, mid := [], s;
    Nothing(s, name);
    assert AllThinned(s, s);
    if KindsLeft(phase) != [] {
      var todo;
      first, mid, todo := FinishList(s, name);
      SameLocals(s, mid);
    }
    var second, checked := FinishCheck(mid, name);
    Chain(s, first, mid, second, name);
    var third;
    third, t := Report(checked, name);
    Chain(s, first + second, checked, third, name);
    steps := (first + second) + third;
    SameLocals(checked, t);
    assert forall k, m :: !phase.StillSees(k, m) ==> !ServerAt(mid, name).pass.value.phase.StillSees(k, m);
  }

  lemma SameLocals(s: State, t: State)
    requires t.locals == s.locals
    ensures forall k :: At(t, k) == At(s, k)
  {
  }

  lemma Report(s: State, name: ServerName) returns (steps: seq<Step>, t: State)
    requires var v := ServerAt(s, name);
             && v.server.Some? && v.server.value.deleting && Kubewarden in v.server.value.finalizers
             && v.pass == Some(ServerPass(v.server.value, Checking([], false, false)))
    ensures AfterAll(s, steps, name) == Some(t) && t.locals == s.locals && Releasable(t, name) && !LiveServer(t, name)
  {
    hide AfterAll;
    assert ServerAt(s, name).server.value.finalizers != {};
    var mid := Do(s, OfServer(name, WriteCleanedUp));
    One(s, OfServer(name, WriteCleanedUp), name);
    var rest;
    rest, t := BeginRelease(mid, name);
    Chain(s, [OfServer(name, WriteCleanedUp)], mid, rest, name);
    steps := [OfServer(name, WriteCleanedUp)] + rest;
  }

  /** A server that is reported cleaned up can be released, whatever its reconcile was doing. */
  lemma BeginRelease(s: State, name: ServerName) returns (steps: seq<Step>, t: State)
    requires var v := ServerAt(s, name);
             && v.server.Some? && v.server.value.deleting && Kubewarden in v.server.value.finalizers
             && v.server.value.cleanedUp
    ensures AfterAll(s, steps, name) == Some(t) && t.locals == s.locals && Releasable(t, name) && !LiveServer(t, name)
  {
    hide AfterAll;
    var first, mid := [], s;
    Nothing(s, name);
    if ServerAt(s, name).pass.Some? {
      One(s, OfServer(name, CrashServer), name);
      first, mid := [OfServer(name, CrashServer)], Do(s, OfServer(name, CrashServer));
    }
    t := Do(mid, OfServer(name, BeginServer));
    One(mid, OfServer(name, BeginServer), name);
    Chain(s, first, mid, [OfServer(name, BeginServer)], name);
    steps := first + [OfServer(name, BeginServer)];
  }

  /** What is created unnoticed is still there when the server is released. */
  lemma MissedLeaks(s: State, step: Step, name: ServerName) returns (steps: seq<Step>, t: State)
    requires LocalsInv(s) && ServerInv(s, name) && Enabled(s, step) && MissedWrite(s, step, name)
    ensures AfterAll(Do(s, step), steps, name) == Some(t) && Releasable(t, name) && !NoBoundHook(t, name)
  {
    hide AfterAll, LocalInv, DoLocal, LocalEnabled, SeesAll, Releasable, NoBoundHook;
    var id := step.id;
    var l := At(s, id);
    var m := l.pass.value.copy.mutating;
    assert LocalInv(l, s.now);
    CreationAppears(l, s.now);
    var s' := Do(s, step);
    assert BoundHook(At(s', id), m, name);
    var v := ServerAt(s, name);
    assert ServerAt(s', name) == v;
    if v.server.value.cleanedUp {
      steps, t := BeginRelease(s', name);
      SameLocals(s', t);
    } else {
      steps, t := FinishDeletion(s', name);
      assert Thinned(At(s', id), At(t, id)) && At(t, id).HookOf(m) == At(s', id).HookOf(m);
    }
    assert BoundHook(At(t, id), m, name);
    HasBound(t, id, m, name);
  }

  lemma HasBound(s: State, id: Id, m: bool, name: ServerName)
    requires BoundHook(At(s, id), m, name)
    ensures !NoBoundHook(s, name)
  {
  }

  ghost predicate CleanAfter(s: State, steps: seq<Step>, name: ServerName) {
    AfterAll(s, steps, name).Some? && Releasable(AfterAll(s, steps, name).value, name) ==>
      NoBoundHook(AfterAll(s, steps, name).value, name)
  }

  lemma {:induction false} CleanStays(s: State, steps: seq<Step>, name: ServerName)
    requires LocalsInv(s) && ServerInv(s, name)
    ensures CleanAfter(s, steps, name)
    decreases |steps|
  {
    hide LocalsInv, ServerInv, Enabled, Do, FlipsAreSafe, MissedWrite, NoBoundHook, Releases;
    if AfterAll(s, steps, name).Some? {
      if steps == [] {
        if Releasable(s, name) { ReleaseNeedsCleanup(s, OfServer(name, ReleaseServer), name); }
      } else {
        LocalsStep(s, steps[0]);
        ServerInvStep(s, steps[0], name);
        CleanStays(Do(s, steps[0]), steps[1..], name);
      }
    }
  }

  /**
    For every state that the invariants allow and every step: the step is not a missed creation if and only if, in every
    continuation without further ones, the server is released only when nothing is bound to it.
   */
  lemma MissedExact(s: State, step: Step, name: ServerName)
    requires LocalsInv(s) && ServerInv(s, name) && Enabled(s, step) && FlipsAreSafe(s, step)
    ensures !MissedWrite(s, step, name) <==> forall steps :: CleanAfter(Do(s, step), steps, name)
  {
    hide LocalsInv, ServerInv, Enabled, Do, FlipsAreSafe, MissedWrite, NoBoundHook, Releasable, AfterAll;
    if MissedWrite(s, step, name) {
      var steps, t := MissedLeaks(s, step, name);
      assert !CleanAfter(Do(s, step), steps, name);
    } else {
      LocalsStep(s, step);
      ServerInvStep(s, step, name);
      forall steps ensures CleanAfter(Do(s, step), steps, name) { CleanStays(Do(s, step), steps, name); }
    }
  }

  // ---- a PolicyServer that is gone before the webhook configuration comes ----

  /**
    Whatever other policies and servers there are: if a reconcile is about to create a webhook configuration for a live
    server, the server can be deleted and released meanwhile, and the webhook configuration appears afterwards.
   */
  lemma StaleServerRead(s: State, id: Id, name: ServerName) returns (steps: seq<Step>, t: State)
    requires LocalsInv(s) && ServerInv(s, name) && CreatesFor(s, OfPolicy(id, WriteHook), name) && LiveServer(s, name)
    requires Kubewarden in ServerAt(s, name).server.value.finalizers
    ensures AfterAll(s, steps, name) == Some(t) && Releasable(t, name) && At(t, id) == At(s, id)
    ensures var released := Do(t, OfServer(name, ReleaseServer));
            && LateWrite(released, OfPolicy(id, WriteHook), name)
            && !LiveServer(Do(released, OfPolicy(id, WriteHook)), name)
            && !NoBoundHook(Do(released, OfPolicy(id, WriteHook)), name)
  {
    hide AfterAll, LocalInv, DoLocal, LocalEnabled, SeesAll, NoBoundHook, PassedKept;
    var first, mid := BeginDeletion(s, name);
    var second;
    second, t := FinishDeletion(mid, name);
    Chain(s, first, mid, second, name);
    steps := first + second;
    SameLocals(s, mid);
    assert LocalInv(At(s, id), s.now);
    NoHookAtAll(At(s, id), s.now);
    assert Thinned(At(mid, id), At(t, id));
    assert At(t, id).HookOf(true).None? && At(t, id).HookOf(false).None?;
    var released := Do(t, OfServer(name, ReleaseServer));
    assert At(released, id) == At(s, id);
    StillCreates(released, id, s.now);
    HasBound(Do(released, OfPolicy(id, WriteHook)), id, At(s, id).pass.value.copy.mutating, name);
  }

  lemma NoHookAtAll(l: Local, now: nat)
    requires LocalInv(l, now) && Creates(l)
    ensures !l.HasHook()
  {
  }

  lemma StillCreates(s: State, id: Id, now: nat)
    requires LocalInv(At(s, id), now) && Creates(At(s, id))
    ensures Enabled(s, OfPolicy(id, WriteHook))
    ensures BoundHook(At(Do(s, OfPolicy(id, WriteHook)), id), At(s, id).pass.value.copy.mutating,
                      At(s, id).pass.value.copy.server)
  {
  }

  /** The server is deleted and its reconcile begins. */
  lemma BeginDeletion(s: State, name: ServerName) returns (steps: seq<Step>, t: State)
    requires LiveServer(s, name) && Kubewarden in ServerAt(s, name).server.value.finalizers &&
             !ServerAt(s, name).server.value.cleanedUp
    ensures AfterAll(s, steps, name) == Some(t) && t.locals == s.locals
    ensures var v := ServerAt(t, name);
            && v.server.Some? && v.server.value.deleting && Kubewarden in v.server.value.finalizers
            && !v.server.value.cleanedUp
            && v.pass == Some(ServerPass(v.server.value, ServerStarted))
  {
    hide AfterAll;
    assert ServerAt(s, name).server.value.finalizers != {};
    var first, mid := [], s;
    Nothing(s, name);
    if ServerAt(s, name).pass.Some? {
      One(s, OfServer(name, CrashServer), name);
      first, mid := [OfServer(name, CrashServer)], Do(s, OfServer(name, CrashServer));
    }
    var deleted := Do(mid, OfServer(name, DeleteServer));
    One(mid, OfServer(name, DeleteServer), name);
    Chain(s, first, mid, [OfServer(name, DeleteServer)], name);
    t := Do(deleted, OfServer(name, BeginServer));
    One(deleted, OfServer(name, BeginServer), name);
    Chain(s, first + [OfServer(name, DeleteServer)], deleted, [OfServer(name, BeginServer)], name);
    steps := (first + [OfServer(name, DeleteServer)]) + [OfServer(name, BeginServer)];
  }

  // ---- and such a situation comes up ----

  const POLICY: Id := Id(ClusterPolicies, 0)

  lemma Via(s: State, step: Step, t: State, rest: seq<Step>, end: State)
    requires Enabled(s, step) && Plain(step) && t == Do(s, step) && AfterAll(t, rest, 0) == Some(end)
    ensures AfterAll(s, [step] + rest, 0) == Some(end)
  {
    hide Enabled, Do, AfterAll;
    First(s, step, rest, 0);
  }

  lemma ServerReady(s4: State, v2: Server) returns (steps: seq<Step>)
    requires v2 == Server(0, 2, false, {Kubewarden}, false)
    requires s4 == State(4, map[], map[0 := ServerLocal(Some(v2), None)])
    ensures AfterAll(INITIAL, steps, 0) == Some(s4)
  {
    hide AfterAll;
    var v0 := Server(0, 0, false, {}, false);
    var s1 := State(1, map[], map[0 := ServerLocal(Some(v0), None)]);
    var s2 := State(2, map[], map[0 := ServerLocal(Some(v0), Some(ServerPass(v0, ServerStarted)))]);
    var s3 := State(3, map[], map[0 := ServerLocal(Some(v2), Some(ServerPass(v2, ServerStarted)))]);
    assert {} + {Kubewarden} == {Kubewarden};
    Nothing(s4, 0);
    Via(s3, OfServer(0, CrashServer), s4, [], s4);
    var r3 := [OfServer(0, CrashServer)] + [];
    Via(s2, OfServer(0, FinalizeServer), s3, r3, s4);
    var r2 := [OfServer(0, FinalizeServer)] + r3;
    Via(s1, OfServer(0, BeginServer), s2, r2, s4);
    var r1 := [OfServer(0, BeginServer)] + r2;
    Via(INITIAL, OfServer(0, CreateServer), s1, r1, s4);
    steps := [OfServer(0, CreateServer)] + r1;
  }

  lemma PolicyReady(s4: State, s8: State, p6: Policy) returns (steps: seq<Step>)
    requires s4.now == 4 && s4.locals == map[]
    requires p6 == Policy(4, 6, 0, false, {Kubewarden}, false)
    requires s8 == State(8, map[POLICY := Local(Some(p6), None, None, Some(Pass(p6, HookRead(None))))], s4.servers)
    ensures AfterAll(s4, steps, 0) == Some(s8)
  {
    hide AfterAll;
    var p4 := Policy(4, 4, 0, false, {}, false);
    var s5 := State(5, map[POLICY := Local(Some(p4), None, None, None)], s4.servers);
    var s6 := State(6, map[POLICY := Local(Some(p4), None, None, Some(Pass(p4, Started)))], s4.servers);
    var s7 := State(7, map[POLICY := Local(Some(p6), None, None, Some(Pass(p6, Finalized)))], s4.servers);
    assert {} + {Kubewarden} == {Kubewarden};
    Nothing(s8, 0);
    Via(s7, OfPolicy(POLICY, ReadHook), s8, [], s8);
    var r7 := [OfPolicy(POLICY, ReadHook)] + [];
    Via(s6, OfPolicy(POLICY, AddFinalizer), s7, r7, s8);
    var r6 := [OfPolicy(POLICY, AddFinalizer)] + r7;
    Via(s5, OfPolicy(POLICY, Begin), s6, r6, s8);
    var r5 := [OfPolicy(POLICY, Begin)] + r6;
    Via(s4, OfPolicy(POLICY, Create(0, false)), s5, r5, s8);
    steps := [OfPolicy(POLICY, Create(0, false))] + r5;
  }

  /** A server and a policy are created and reconciled; now the policy's webhook configuration is about to be
      created. */
  lemma AboutToCreateIsReachable() returns (steps: seq<Step>, s: State)
    ensures AfterAll(INITIAL, steps, 0) == Some(s)
    ensures CreatesFor(s, OfPolicy(POLICY, WriteHook), 0) && LiveServer(s, 0)
    ensures Kubewarden in ServerAt(s, 0).server.value.finalizers
  {
    hide AfterAll;
    var v2 := Server(0, 2, false, {Kubewarden}, false);
    var s4 := State(4, map[], map[0 := ServerLocal(Some(v2), None)]);
    var p6 := Policy(4, 6, 0, false, {Kubewarden}, false);
    s := State(8, map[POLICY := Local(Some(p6), None, None, Some(Pass(p6, HookRead(None))))], s4.servers);
    var first := ServerReady(s4, v2);
    var second := PolicyReady(s4, s, p6);
    Chain(INITIAL, first, s4, second, 0);
    steps := first + second;
  }
}
