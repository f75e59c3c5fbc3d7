/**
  What undisturbed reconciles achieve: a policy gets its webhook configuration, a policy that is being deleted goes with
  it, and a PolicyServer that is being deleted goes once nothing is bound to it. Together with the safety over every run
  this says that the reconcilers do their work, and not just no harm.
 */
module PolicyLifecycleProgress {
  import opened Options
  import opened Collections
  import opened PolicyLifecycle
  import opened PolicyLifecycleProof

  // ---- one reconcile of a policy ----

  /** Steps of the reconcile, one after the other; None when one of them is not possible. */
  ghost function Reconciled(l: Local, steps: seq<PolicyStep>, now: nat): Option<Local>
    decreases |steps|
  {
    if steps == [] then Some(l)
    else if LocalEnabled(l, steps[0]) && !ByOthers(steps[0]) then
      Reconciled(DoLocal(l, steps[0], now), steps[1..], now + 1)
    else None
  }

  lemma Next(l: Local, step: PolicyStep, l': Local, rest: seq<PolicyStep>, now: nat)
    requires LocalEnabled(l, step) && !ByOthers(step) && l' == DoLocal(l, step, now)
    ensures Reconciled(l, [step] + rest, now) == Reconciled(l', rest, now + 1)
  {
    assert ([step] + rest)[1..] == rest;
  }

  lemma Last(l: Local, now: nat)
    ensures Reconciled(l, [], now) == Some(l)
  {
  }

  const ACTIVATION: seq<PolicyStep> := [Begin] + ([AddFinalizer] + ([ReadHook] + ([WriteHook] + [])))

  /** A policy that stays gets the webhook configuration of its kind, with the finalizer in place, and is otherwise as
      it was; one that it had is refreshed, and not replaced. */
  lemma UndisturbedActivation(l: Local, now: nat) returns (t: Local)
    requires l.policy.Some? && !l.policy.value.deleting && l.pass.None?
    ensures Reconciled(l, ACTIVATION, now) == Some(t)
    ensures t.policy.Some? && t.pass.None? && Kubewarden in t.policy.value.finalizers
    ensures t.policy.value.finalizers == l.policy.value.finalizers + {Kubewarden}
    ensures t.policy.value ==
            l.policy.value.(finalizers := t.policy.value.finalizers, version := t.policy.value.version)
    ensures var m := l.policy.value.mutating;
            && t.HookOf(m).Some? && t.HookOf(!m) == l.HookOf(!m)
            && (l.HookOf(m).Some? ==> t.HookOf(m).value.uid == l.HookOf(m).value.uid)
  {
    hide Reconciled;
    var p, m := l.policy.value, l.policy.value.mutating;
    var q := if Kubewarden in p.finalizers then p
             else p.(version := now + 1, finalizers := p.finalizers + {Kubewarden});
    assert Kubewarden in p.finalizers ==> p.finalizers + {Kubewarden} == p.finalizers;
    var l1 := l.(pass := Some(Pass(p, Started)));
    var l2 := l.(policy := Some(q), pass := Some(Pass(q, Finalized)));
    var l3 := l.(policy := Some(q), pass := Some(Pass(q, HookRead(l.HookOf(m)))));
    t := DoLocal(l3, WriteHook, now + 3);
    Last(t, now + 4);
    Next(l3, WriteHook, t, [], now + 3);
    Next(l2, ReadHook, l3, [WriteHook] + [], now + 2);
    Next(l1, AddFinalizer, l2, [ReadHook] + ([WriteHook] + []), now + 1);
    Next(l, Begin, l1, [AddFinalizer] + ([ReadHook] + ([WriteHook] + [])), now);
  }

  /** The release of a policy, if it is not refused, leaves neither of Kubewarden's finalizers. */
  lemma ReleaseLeavesNeither(l: Local, now: nat)
    requires LocalEnabled(l, Release) && Current(l, l.pass.value.copy) && l.policy.value == l.pass.value.copy
    requires l.policy.value.finalizers != {}
    ensures var after := DoLocal(l, Release, now);
            && (after.policy.None? <==> l.policy.value.deleting && Other !in l.policy.value.finalizers)
            && (after.policy.Some? ==> forall f :: f in after.policy.value.finalizers ==> f == Other)
  {
    var p := l.policy.value;
    var left := p.finalizers - {Kubewarden, Pre114};
    assert forall f :: f in left ==> f == Other;
    assert left == if Other in p.finalizers then {Other} else {};
    if p.finalizers !! {Kubewarden, Pre114} {
      assert forall f :: f in p.finalizers ==> f in left;
      var f :| f in p.finalizers;
    }
  }

  /** A webhook configuration that has changed since the reconcile read it is not overwritten. */
  lemma StaleWriteIsRefused(l: Local, now: nat)
    requires LocalEnabled(l, WriteHook) && l.HookOf(l.pass.value.copy.mutating) != l.pass.value.phase.seen
    ensures DoLocal(l, WriteHook, now) == l.(pass := None)
  {
  }

  /** A removal deletes the webhook configuration that it found, and spares one that was created since. */
  lemma DeletesWhatItFound(l: Local, now: nat)
    requires LocalEnabled(l, DeleteHook)
    ensures var m := l.pass.value.copy.mutating;
            var after := DoLocal(l, DeleteHook, now);
            && after.policy == l.policy && after.HookOf(!m) == l.HookOf(!m)
            && forall uid, version :: l.HookOf(m) == Some(Hook(uid, version)) ==>
                 after.HookOf(m) == if uid == l.pass.value.phase.uid then None else l.HookOf(m)
  {
  }

  /** A removal takes the webhook configuration of a policy away, and then both finalizers. A policy that is being
      deleted goes with them; only the finalizer of another tool holds it back. */
  lemma UndisturbedRemoval(l: Local, now: nat) returns (steps: seq<PolicyStep>, t: Local)
    requires LocalInv(l, now) && l.policy.Some? && l.pass.None? && l.policy.value.finalizers != {}
    ensures Reconciled(l, steps, now) == Some(t) && !t.HasHook()
    ensures t.policy.None? <==> l.policy.value.deleting && Other !in l.policy.value.finalizers
    ensures t.policy.Some? ==> forall f :: f in t.policy.value.finalizers ==> f == Other
  {
    hide Reconciled;
    var p, m := l.policy.value, l.policy.value.mutating;
    assert l.HookOf(!m).None?;
    var l1 := l.(pass := Some(Pass(p, Started)));
    var l2 := l.(pass := Some(Pass(p, Removing)));
    var l3 := DoLocal(l2, FindHook, now + 2);
    var found := l.HookOf(m).Some?;
    var l4 := if found then DoLocal(l3, DeleteHook, now + 3) else l3;
    var later := if found then now + 4 else now + 3;
    assert l4.HookOf(true).None? && l4.HookOf(false).None? && l4.pass == Some(Pass(p, HookGone)) &&
           l4.policy == Some(p);
    t := DoLocal(l4, Release, later);
    ReleaseLeavesNeither(l4, later);
    Last(t, later + 1);
    Next(l4, Release, t, [], later);
    steps := [Release] + [];
    if found {
      Next(l3, DeleteHook, l4, steps, now + 3);
      steps := [DeleteHook] + steps;
    }
    Next(l2, FindHook, l3, steps, now + 2);
    Next(l1, Remove, l2, [FindHook] + steps, now + 1);
    Next(l, Begin, l1, [Remove] + ([FindHook] + steps), now);
    steps := [Begin] + ([Remove] + ([FindHook] + steps));
  }

  // ---- the deletion of a PolicyServer ----

  /** Steps of the reconcile of one PolicyServer; None when one of them is not possible. */
  ghost function ServerReconciled(s: State, name: ServerName, steps: seq<ServerStep>): Option<State>
    decreases |steps|
  {
    if steps == [] then Some(s)
    else if ServerEnabled(s, name, steps[0]) then
      ServerReconciled(Do(s, OfServer(name, steps[0])), name, steps[1..])
    else None
  }

  /** The reconcile may go on from `s` to `t`. */
  ghost predicate Leads(s: State, name: ServerName, steps: seq<ServerStep>, t: State) {
    ServerReconciled(s, name, steps) == Some(t) && t.locals == s.locals
  }

  lemma Stays(s: State, name: ServerName)
    ensures Leads(s, name, [], s)
  {
  }

  lemma OneMore(s: State, name: ServerName, step: ServerStep, rest: seq<ServerStep>, t: State)
    requires ServerEnabled(s, name, step) && Leads(Do(s, OfServer(name, step)), name, rest, t)
    ensures Leads(s, name, [step] + rest, t)
  {
    hide ServerEnabled, DoServer;
    assert ([step] + rest)[1..] == rest;
  }

  /** A PolicyServer that stays gets the finalizer, whatever finalizers it has, and keeps them. */
  lemma UndisturbedFinalizer(s: State, name: ServerName) returns (t: State)
    requires LiveServer(s, name) && ServerAt(s, name).pass.None?
    ensures Leads(s, name, [BeginServer] + ([FinalizeServer] + []), t)
    ensures ServerAt(t, name).server.Some?
    ensures ServerAt(t, name).server.value.finalizers == ServerAt(s, name).server.value.finalizers + {Kubewarden}
  {
    hide ServerReconciled;
    var v := ServerAt(s, name).server.value;
    assert Kubewarden in v.finalizers ==> v.finalizers + {Kubewarden} == v.finalizers;
    var begun := Do(s, OfServer(name, BeginServer));
    t := Do(begun, OfServer(name, FinalizeServer));
    Stays(t, name);
    OneMore(begun, name, FinalizeServer, [], t);
    OneMore(s, name, BeginServer, [FinalizeServer] + [], t);
  }

  ghost predicate Deleting(v: ServerLocal) {
    v.server.Some? && v.server.value.deleting && v.server.value.finalizers != {}
  }

  /** The reconcile is up to date and in this phase. */
  ghost predicate Busy(s: State, name: ServerName, phase: ServerPhase) {
    Deleting(ServerAt(s, name)) && ServerAt(s, name).pass == Some(ServerPass(ServerAt(s, name).server.value, phase))
  }

  /** What a release leaves: no finalizer of Kubewarden's, and no server unless another tool holds it. */
  ghost predicate Released(before: Server, after: Option<Server>) {
    && (after.None? <==> Other !in before.finalizers)
    && (after.Some? ==> forall f :: f in after.value.finalizers ==> f == Other)
  }

  lemma ServerReleaseLeavesNeither(s: State, name: ServerName)
    requires ServerEnabled(s, name, ReleaseServer) && Deleting(ServerAt(s, name))
    requires CurrentServer(ServerAt(s, name), ServerAt(s, name).pass.value.copy)
    ensures Released(ServerAt(s, name).server.value, ServerAt(Do(s, OfServer(name, ReleaseServer)), name).server)
  {
    var v := ServerAt(s, name).server.value;
    var left := v.finalizers - {Kubewarden, Pre114};
    assert forall f :: f in left ==> f == Other;
    assert left == if Other in v.finalizers then {Other} else {};
  }

  lemma FinishRelease(s: State, name: ServerName) returns (steps: seq<ServerStep>, t: State)
    requires Deleting(ServerAt(s, name)) && ServerAt(s, name).server.value.cleanedUp && ServerAt(s, name).pass.None?
    ensures Leads(s, name, steps, t) && Released(ServerAt(s, name).server.value, ServerAt(t, name).server)
  {
    hide ServerReconciled, Released;
    var begun := Do(s, OfServer(name, BeginServer));
    t := Do(begun, OfServer(name, ReleaseServer));
    ServerReleaseLeavesNeither(begun, name);
    Stays(t, name);
    OneMore(begun, name, ReleaseServer, [], t);
    OneMore(s, name, BeginServer, [ReleaseServer] + [], t);
    steps := [BeginServer] + ([ReleaseServer] + []);
  }

  ghost predicate NothingLeft(s: State, todo: seq<Id>) {
    forall id :: id in todo ==> !At(s, id).HasHook()
  }

  lemma {:induction false} FinishChecks(s: State, name: ServerName, todo: seq<Id>, half: bool)
    returns (steps: seq<ServerStep>, t: State)
    requires Busy(s, name, Checking(todo, half, false)) && (half ==> todo != []) && NothingLeft(s, todo)
    ensures Leads(s, name, steps, t) && Released(ServerAt(s, name).server.value, ServerAt(t, name).server)
    decreases |todo|, !half
  {
    hide ServerReconciled, Released;
    if todo == [] {
      var written := Do(s, OfServer(name, WriteCleanedUp));
      steps, t := FinishRelease(written, name);
      SameFinalizers(ServerAt(s, name).server.value, ServerAt(written, name).server.value, ServerAt(t, name).server);
      OneMore(s, name, WriteCleanedUp, steps, t);
      steps := [WriteCleanedUp] + steps;
    } else {
      var step := if half then CheckMutating else CheckValidating;
      assert todo[0] in todo;
      assert forall id :: id in todo[1..] ==> id in todo;
      var next := Do(s, OfServer(name, step));
      assert forall id :: At(next, id) == At(s, id);
      if half { steps, t := FinishChecks(next, name, todo[1..], false); }
      else { steps, t := FinishChecks(next, name, todo, true); }
      OneMore(s, name, step, steps, t);
      steps := [step] + steps;
    }
  }

  lemma SameFinalizers(before: Server, written: Server, after: Option<Server>)
    requires written.finalizers == before.finalizers && Released(written, after)
    ensures Released(before, after)
  {
  }

  lemma {:induction false} FinishLists(s: State, name: ServerName, phase: ServerPhase)
    returns (steps: seq<ServerStep>, t: State)
    requires Busy(s, name, phase) && KindsLeft(phase) != [] && !ServerAt(s, name).server.value.cleanedUp
    requires NoBoundHook(s, name) && NothingLeft(s, Collected(phase))
    ensures Leads(s, name, steps, t) && Released(ServerAt(s, name).server.value, ServerAt(t, name).server)
    decreases |KindsLeft(phase)|
  {
    hide ServerReconciled, Released;
    var kind := KindsLeft(phase)[0];
    var ids := ListOf(set id | id in s.locals && BoundTo(At(s, id), name) && id.kind == kind);
    assert forall id :: BoundTo(At(s, id), name) ==> id in s.locals;
    NoneBound(s, name, ids);
    var next := Do(s, OfServer(name, ListKind(ids)));
    assert forall id :: At(next, id) == At(s, id);
    var listed := AfterList(phase, ids);
    assert NothingLeft(next, Collected(phase) + ids);
    if listed.Checking? { steps, t := FinishChecks(next, name, listed.todo, false); }
    else { steps, t := FinishLists(next, name, listed); }
    OneMore(s, name, ListKind(ids), steps, t);
    steps := [ListKind(ids)] + steps;
  }

  lemma NoneBound(s: State, name: ServerName, ids: seq<Id>)
    requires NoBoundHook(s, name) && forall id :: id in ids ==> BoundTo(At(s, id), name)
    ensures NothingLeft(s, ids)
  {
    forall id | id in ids ensures !At(s, id).HasHook() {
      assert !BoundHook(At(s, id), true, name) && !BoundHook(At(s, id), false, name);
    }
  }

  /** A PolicyServer that is being deleted, with no webhook configuration left that is bound to it, goes: its own
      reconciles alone get there, whatever policies there are. Only the finalizer of another tool holds it back. */
  lemma UndisturbedTeardown(s: State, name: ServerName) returns (steps: seq<ServerStep>, t: State)
    requires Deleting(ServerAt(s, name)) && ServerAt(s, name).pass.None? && NoBoundHook(s, name)
    ensures Leads(s, name, steps, t) && Released(ServerAt(s, name).server.value, ServerAt(t, name).server)
  {
    hide ServerReconciled, Released;
    if ServerAt(s, name).server.value.cleanedUp {
      steps, t := FinishRelease(s, name);
    } else {
      var begun := Do(s, OfServer(name, BeginServer));
      assert forall id :: At(begun, id) == At(s, id);
      steps, t := FinishLists(begun, name, ServerStarted);
      OneMore(s, name, BeginServer, steps, t);
      steps := [BeginServer] + steps;
    }
  }
}
