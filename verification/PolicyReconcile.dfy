/**
  One reconcile of a policy and one of a PolicyServer, with the in-memory copies they work on. A policy's status and
  what the API server and the policy server do with it agree after every reconcile without errors.
 */
module PolicyReconcile {
  import opened Options
  import opened Collections
  import opened PolicyLifecycle

  datatype Mode = Protect | Monitor | Unknown

  datatype PolicyPhase = Unset | Unscheduled | Scheduled | Pending | Active | Rejected

  /** `active`, `reachable` and `upToDate` are the conditions PolicyActive, PolicyUniquelyReachable and
      PolicyServerConfigurationUpToDate. */
  datatype Status = Status(phase: PolicyPhase, active: bool, reachable: bool, upToDate: bool, mode: Mode)

  /** What `policies.yml` says, if it parses. */
  datatype Config = Readable(entries: map<Id, Mode>) | Unreadable

  datatype Object = Object(
    server: Option<ServerName>, namespaced: bool, mutating: bool, mode: Mode,
    finalizers: set<Finalizer>, deleting: bool, status: Status)

  /**
    `allowed` holds the namespaced policies that the allow list admits, `current` the servers whose Deployment carries
    the version of the configuration, `ready` those whose pods all serve it.
   */
  datatype World = World(
    policies: map<Id, Object>,
    hooks: set<(Id, bool)>,
    servers: map<ServerName, bool>,
    deployments: set<ServerName>,
    configs: map<ServerName, Config>,
    caSecret: bool,
    allowed: set<Id>,
    current: set<ServerName>,
    ready: set<ServerName>)

  predicate Admitted(w: World, id: Id, o: Object) {
    !o.namespaced || id in w.allowed
  }

  /** The server exists and is not being deleted. */
  predicate Available(w: World, o: Object) {
    o.server.Some? && o.server.value in w.servers && !w.servers[o.server.value]
  }

  /** isPolicyInConfigMap. */
  predicate Configures(w: World, name: ServerName, id: Id) {
    name in w.configs && w.configs[name].Readable? && id in w.configs[name].entries
  }

  predicate UniquelyReachable(w: World, id: Id, name: ServerName) {
    Configures(w, name, id) && name in w.ready
  }

  /** The allow list lets the policy be. */
  ghost predicate Tolerated(w: World, id: Id) {
    id in w.policies && (w.policies[id].namespaced ==> id in w.allowed)
  }

  ghost predicate LiveServer(w: World, id: Id) {
    && id in w.policies && w.policies[id].server.Some?
    && w.policies[id].server.value in w.servers && !w.servers[w.policies[id].server.value]
  }

  /**
    When a policy may get its webhook configuration, from the objects of the cluster: it is not being deleted, the allow
    list lets it be, its server is live and deployed, the configuration of the server holds the policy, and all pods of
    the server serve that configuration.
   */
  ghost predicate Servable(w: World, id: Id) {
    && Tolerated(w, id) && !w.policies[id].deleting && LiveServer(w, id)
    && var name := w.policies[id].server.value;
       && name in w.deployments && name in w.ready
       && name in w.configs && w.configs[name].Readable? && id in w.configs[name].entries
  }

  lemma ServableIs(w: World, id: Id)
    requires id in w.policies
    ensures var o := w.policies[id];
            Servable(w, id) <==>
              && !o.deleting && Admitted(w, id, o) && o.server.Some? && Available(w, o)
              && o.server.value in w.deployments && UniquelyReachable(w, id, o.server.value)
  {
  }

  /** A webhook configuration that a reconcile adds is that of its own policy, which may have it. */
  ghost predicate NewHooks(before: World, after: World, id: Id) {
    forall h :: h in after.hooks && h !in before.hooks ==>
                  id in before.policies && h == (id, before.policies[id].mutating) && Servable(before, id)
  }

  // ---- what a reconcile should do ----

  datatype Verdict = Gone | IsRejected | HasNoServer | ServerUnavailable | NoDeployment | NotReachable | Reached

  /** The decision of reconcilePolicy. `unread` says that a read of isPolicyUniquelyReachable failed, which counts as a
      no. */
  function VerdictOf(w: World, id: Id, o: Object, unread: bool): Verdict {
    if o.deleting then Gone
    else if !Admitted(w, id, o) then IsRejected
    else if o.server.None? then HasNoServer
    else if !Available(w, o) then ServerUnavailable
    else if o.server.value !in w.deployments then NoDeployment
    else if unread || !UniquelyReachable(w, id, o.server.value) then NotReachable
    else Reached
  }

  predicate HasOwnFinalizer(o: Object) {
    Kubewarden in o.finalizers || Pre114 in o.finalizers
  }

  /** The stored object after an update of its finalizers; the status is not touched by it. */
  function UpdatedPolicies(w: World, id: Id, finalizers: set<Finalizer>): map<Id, Object>
    requires id in w.policies
  {
    var o := w.policies[id];
    if o.deleting && finalizers == {} then w.policies - {id} else w.policies[id := o.(finalizers := finalizers)]
  }

  function Unhooked(w: World, id: Id): World
    requires id in w.policies
  {
    w.(hooks := w.hooks - {(id, w.policies[id].mutating)})
  }

  function Guarded(w: World, id: Id): World
    requires id in w.policies
  {
    w.(policies := w.policies[id := w.policies[id].(finalizers := w.policies[id].finalizers + {Kubewarden})])
  }

  function Hooked(w: World, id: Id): World
    requires id in w.policies
  {
    w.(hooks := w.hooks + {(id, w.policies[id].mutating)})
  }

  function Removed(w: World, id: Id): World
    requires id in w.policies
  {
    var o := w.policies[id];
    Unhooked(w, id).(
      policies := if HasOwnFinalizer(o) then UpdatedPolicies(w, id, o.finalizers - {Kubewarden, Pre114})
                  else w.policies)
  }

  /** The status that a removal leaves in memory: an update loads the stored one. */
  function AfterRemoval(o: Object): Status {
    if HasOwnFinalizer(o) then o.status else o.status.(active := false)
  }

  function Waiting(o: Object): Status {
    o.status.(active := false, phase := if o.status.phase == Active then Active else Pending)
  }

  /** What setPolicyModeStatus puts into the status: the mode the server runs the policy in, and whether it is up to
      date. */
  function Observed(w: World, id: Id, o: Object, status: Status): Status {
    if o.server.Some? && o.server.value in w.deployments && o.server.value in w.configs then
      var name := o.server.value;
      status.(mode := if Configures(w, name, id) then w.configs[name].entries[id] else Unknown,
              upToDate := name in w.current)
    else status
  }

  function WithStatus(w: World, id: Id, o: Object, status: Status): World
    requires id in w.policies
  {
    w.(policies := w.policies[id := w.policies[id].(status := Observed(w, id, o, status))])
  }

  /** What a reconcile makes of the webhook configuration and the finalizers. */
  function Shaped(w: World, id: Id, verdict: Verdict): World
    requires id in w.policies
  {
    match verdict
    case Gone => Removed(w, id)
    case IsRejected => Removed(w, id)
    case ServerUnavailable => Removed(w, id)
    case Reached => Hooked(Guarded(w, id), id)
    case _ => w
  }

  /** What it makes of the status. */
  function StatusFor(o: Object, verdict: Verdict): Status {
    match verdict
    case Gone => o.status
    case IsRejected => AfterRemoval(o).(phase := Rejected, active := false)
    case HasNoServer => o.status.(active := false, phase := Unscheduled)
    case ServerUnavailable => AfterRemoval(o).(phase := Scheduled)
    case NoDeployment => Waiting(o)
    case NotReachable => Waiting(o).(reachable := false)
    case Reached =>
      (if Kubewarden in o.finalizers then o.status.(reachable := true) else o.status).(phase := Active, active := true)
  }

  lemma ShapedKeeps(w: World, id: Id, verdict: Verdict)
    requires id in w.policies && !w.policies[id].deleting
    ensures id in Shaped(w, id, verdict).policies && SameSpec(w.policies[id], Shaped(w, id, verdict).policies[id])
  {
  }

  /** A deleted policy is only taken apart; every other one gets its status written. */
  function Expected(w: World, id: Id, unread: bool): World
    requires id in w.policies
  {
    var o := w.policies[id];
    var verdict := VerdictOf(w, id, o, unread);
    if o.deleting then Shaped(w, id, verdict)
    else
      ShapedKeeps(w, id, verdict);
      WithStatus(Shaped(w, id, verdict), id, o, StatusFor(o, verdict))
  }

  /** Every webhook configuration has its policy, of that kind and with the finalizer. */
  ghost predicate Safe(w: World) {
    forall h :: h in w.hooks ==>
      h.0 in w.policies && Kubewarden in w.policies[h.0].finalizers && w.policies[h.0].mutating == h.1
  }

  /** One policy, its status and its webhook configurations may differ, and what a policy is stays as it was. */
  ghost predicate OnlyTouches(before: World, after: World, id: Id) {
    && after == before.(policies := after.policies, hooks := after.hooks)
    && (forall k :: k != id ==> (k in after.policies <==> k in before.policies))
    && (forall k :: k != id && k in after.policies ==> after.policies[k] == before.policies[k])
    && (forall h :: h in after.hooks && h !in before.hooks ==> h.0 == id)
    && (forall h :: h in before.hooks && h !in after.hooks ==> h.0 == id)
    && (id in after.policies ==> id in before.policies && SameSpec(before.policies[id], after.policies[id]))
  }

  ghost predicate SameSpec(o: Object, p: Object) {
    p == o.(finalizers := p.finalizers, status := p.status)
  }

  ghost predicate Effect(before: World, after: World, id: Id) {
    OnlyTouches(before, after, id) && (Safe(before) ==> Safe(after))
  }

  lemma NoEffect(w: World, id: Id)
    ensures Effect(w, w, id)
  {
  }

  lemma EffectTrans(a: World, b: World, c: World, id: Id)
    requires Effect(a, b, id) && Effect(b, c, id)
    ensures Effect(a, c, id)
  {
    hide Safe;
  }

  lemma UnhookedEffect(w: World, id: Id)
    requires id in w.policies
    ensures Effect(w, Unhooked(w, id), id) && id in Unhooked(w, id).policies
  {
  }

  lemma RemovedEffect(w: World, id: Id)
    requires id in w.policies
    ensures Effect(w, Removed(w, id), id)
    ensures !w.policies[id].deleting ==> id in Removed(w, id).policies
  {
  }

  lemma GuardedEffect(w: World, id: Id)
    requires id in w.policies
    ensures Effect(w, Guarded(w, id), id)
  {
  }

  lemma HookedEffect(w: World, id: Id)
    requires id in w.policies && Kubewarden in w.policies[id].finalizers
    ensures Effect(w, Hooked(w, id), id)
  {
  }

  lemma ActivationEffect(w: World, id: Id)
    requires id in w.policies
    ensures Effect(w, Guarded(w, id), id) && Effect(w, Hooked(Guarded(w, id), id), id)
    ensures id in Guarded(w, id).policies && id in Hooked(Guarded(w, id), id).policies
  {
    hide Effect;
    GuardedEffect(w, id);
    HookedEffect(Guarded(w, id), id);
    EffectTrans(w, Guarded(w, id), Hooked(Guarded(w, id), id), id);
  }

  lemma WithStatusIs(w: World, id: Id, o: Object, p: Object)
    requires id in w.policies && SameSpec(o, p)
    ensures WithStatus(w, id, o, p.status) ==
            w.(policies := w.policies[id := w.policies[id].(status := Observed(w, id, p, p.status))])
  {
  }

  lemma StatusEffect(w: World, id: Id, status: Status)
    requires id in w.policies
    ensures Effect(w, w.(policies := w.policies[id := w.policies[id].(status := status)]), id)
  {
  }

  // ---- the reconcilers ----

  class Cluster {
    var w: World
    /** How many calls have failed. */
    var failures: nat

    method Call() returns (ok: bool)
      modifies this`failures
      ensures ok ==> failures == old(failures)
      ensures !ok ==> failures == old(failures) + 1
    {
      ok := *;
      if !ok { failures := failures + 1; }
    }

    /** Update: writes the finalizers and loads the stored status into the copy. */
    method Update(id: Id, copy: Object) returns (ok: bool, loaded: Object)
      requires id in w.policies
      modifies this
      ensures ok ==> w == old(w).(policies := UpdatedPolicies(old(w), id, copy.finalizers)) && failures == old(failures)
      ensures ok ==> loaded == copy.(status := old(w).policies[id].status)
      ensures !ok ==> w == old(w) && loaded == copy && failures > old(failures)
    {
      loaded := copy;
      ok := Call();
      if !ok { return; }
      loaded := copy.(status := w.policies[id].status);
      w := w.(policies := UpdatedPolicies(w, id, copy.finalizers));
    }

    method RemoveWebhooksAndFinalizers(id: Id, copy: Object) returns (ok: bool, loaded: Object)
      requires id in w.policies && w.policies[id].finalizers == copy.finalizers &&
               w.policies[id].mutating == copy.mutating
      modifies this
      ensures ok ==> w == Removed(old(w), id) && failures == old(failures)
      ensures ok ==> loaded.status == if HasOwnFinalizer(copy) then old(w).policies[id].status else copy.status
      ensures !ok ==> loaded == copy && failures > old(failures) && (w == old(w) || w == Unhooked(old(w), id))
    {
      loaded := copy;
      ok := Call();
      if !ok { return; }
      w := w.(hooks := w.hooks - {(id, copy.mutating)});
      ok := Call();
      if !ok || !HasOwnFinalizer(copy) { return; }
      var stripped := copy.(finalizers := copy.finalizers - {Kubewarden, Pre114});
      ok, loaded := Update(id, stripped);
      if !ok { loaded := copy; }
    }

    /** The finalizer first, so that the webhook configuration cannot outlive the policy; then the webhook
        configuration. */
    method Activate(id: Id, copy: Object) returns (ok: bool, loaded: Object)
      requires id in w.policies && !w.policies[id].deleting
      requires w.policies[id].finalizers == copy.finalizers && w.policies[id].mutating == copy.mutating
      modifies this
      ensures ok ==>
                && w == Hooked(Guarded(old(w), id), id) && failures == old(failures)
                && loaded.status == (if Kubewarden in copy.finalizers then copy.status
                                     else old(w).policies[id].status).(phase := Active, active := true)
      ensures !ok ==>
                && failures > old(failures)
                && (w == old(w) || w == Guarded(old(w), id) || w == Hooked(Guarded(old(w), id), id))
    {
      loaded := copy;
      if Kubewarden !in copy.finalizers {
        ok, loaded := Update(id, copy.(finalizers := copy.finalizers + {Kubewarden}));
        if !ok { return; }
      } else {
        assert copy.finalizers + {Kubewarden} == copy.finalizers;
        assert w.policies[id := w.policies[id]] == w.policies;
      }
      assert w == Guarded(old(w), id);
      ok := Call();
      if !ok { return; }
      w := w.(hooks := w.hooks + {(id, copy.mutating)});
      ok := Call();
      if !ok { return; }
      loaded := loaded.(status := loaded.status.(phase := Active, active := true));
    }

    /** setPolicyModeStatus: the mode that the PolicyServer's configuration gives the policy. */
    method SetModeStatus(id: Id, copy: Object) returns (ok: bool, loaded: Object)
      modifies this`failures
      ensures ok ==> loaded == copy.(status := Observed(w, id, copy, copy.status)) && failures == old(failures)
      ensures !ok ==> failures > old(failures)
    {
      loaded := copy;
      ok := Call();
      if !ok || copy.server.None? || copy.server.value !in w.deployments { return; }
      if copy.server.value !in w.configs {
        failures := failures + 1;
        return false, copy;
      }
      var name := copy.server.value;
      var mode := Unknown;
      match w.configs[name] {
        case Readable(entries) => if id in entries { mode := entries[id]; }
        case Unreadable =>
      }
      loaded := copy.(status := copy.status.(mode := mode, upToDate := name in w.current));
    }

    /** reconcilePolicy, on the copy that was read. */
    method ReconcilePolicy(id: Id, copy: Object) returns (ok: bool, verdict: Verdict, loaded: Object, unread: bool)
      requires id in w.policies && copy == w.policies[id] && !copy.deleting
      modifies this
      ensures Effect(old(w), w, id) && id in w.policies && NewHooks(old(w), w, id)
      ensures ok ==> verdict == VerdictOf(old(w), id, copy, unread)
      ensures ok ==> (unread <==> failures > old(failures)) && failures >= old(failures)
      ensures ok ==> SameSpec(copy, loaded) &&
                     w == Shaped(old(w), id, verdict) && loaded.status == StatusFor(copy, verdict)
      ensures !ok ==> failures > old(failures)
    {
      hide Effect, WithStatus, Removed, Unhooked, Hooked, Guarded, Admitted, Available, UniquelyReachable, NewHooks;
      NoEffect(w, id);
      UnhookedEffect(w, id);
      RemovedEffect(w, id);
      NoNewHooks(w, id);
      loaded := copy.(status := copy.status.(active := false));
      verdict, unread := IsRejected, false;
      if copy.namespaced {
        ok := Call();
        if !ok { return; }
      }
      if !Admitted(w, id, copy) {
        ok, loaded := RemoveWebhooksAndFinalizers(id, loaded);
        if !ok { return; }
        loaded := copy.(status := loaded.status.(phase := Rejected, active := false));
        return true, IsRejected, loaded, false;
      }
      if copy.server.None? {
        return true, HasNoServer, loaded.(status := loaded.status.(phase := Unscheduled)), false;
      }
      ok := Call();
      if !ok { return; }
      if !Available(w, copy) {
        ok, loaded := RemoveWebhooksAndFinalizers(id, loaded);
        if !ok { return; }
        loaded := copy.(status := loaded.status.(phase := Scheduled));
        return true, ServerUnavailable, loaded, false;
      }
      ok, verdict, loaded, unread := ReconcileServed(id, copy);
    }

    /** The reads of reconcilePolicy for an admitted policy whose server is available, and what they decide. */
    method DecideServed(id: Id, copy: Object) returns (ok: bool, verdict: Verdict, unread: bool)
      requires id in w.policies && copy == w.policies[id] && !copy.deleting
      requires Admitted(w, id, copy) && copy.server.Some? && Available(w, copy)
      modifies this`failures
      ensures ok ==> verdict == VerdictOf(w, id, copy, unread) && verdict in {NoDeployment, NotReachable, Reached}
      ensures ok ==> (unread <==> failures > old(failures)) && failures >= old(failures)
      ensures !ok ==> failures > old(failures)
    {
      hide Admitted, Available, UniquelyReachable;
      verdict, unread := NoDeployment, false;
      ok := Call();
      if !ok || copy.server.value !in w.deployments { return; }
      ok := Call();
      if !ok || !w.caSecret {
        failures := failures + 1;
        return false, verdict, false;
      }
      var read := Call();
      unread := !read;
      verdict := if unread || !UniquelyReachable(w, id, copy.server.value) then NotReachable else Reached;
    }

    /** The rest of reconcilePolicy, for an admitted policy whose server is available. */
    method ReconcileServed(id: Id, copy: Object) returns (ok: bool, verdict: Verdict, loaded: Object, unread: bool)
      requires id in w.policies && copy == w.policies[id] && !copy.deleting
      requires Admitted(w, id, copy) && copy.server.Some? && Available(w, copy)
      modifies this
      ensures Effect(old(w), w, id) && id in w.policies && NewHooks(old(w), w, id)
      ensures ok ==> verdict == VerdictOf(old(w), id, copy, unread)
      ensures ok ==> (unread <==> failures > old(failures)) && failures >= old(failures)
      ensures ok ==> SameSpec(copy, loaded) &&
                     w == Shaped(old(w), id, verdict) && loaded.status == StatusFor(copy, verdict)
      ensures !ok ==> failures > old(failures)
    {
      hide Effect, WithStatus, Removed, Unhooked, Hooked, Guarded, NewHooks, VerdictOf;
      NoEffect(w, id);
      ActivationEffect(w, id);
      NoNewHooks(w, id);
      OwnNewHook(w, id);
      ReachedIsServable(w, id);
      hide Servable, Admitted, Available;
      loaded := copy.(status := copy.status.(active := false));
      if loaded.status.phase != Active {
        loaded := loaded.(status := loaded.status.(phase := Pending));
      }
      ok, verdict, unread := DecideServed(id, copy);
      if !ok || verdict.NoDeployment? { return; }
      loaded := loaded.(status := loaded.status.(reachable := verdict.Reached?));
      if verdict.NotReachable? { return; }
      ok, loaded := Activate(id, loaded);
      loaded := copy.(status := loaded.status);
    }

    /** A reconcile of a policy that was read; the status is written even after an error. */
    method Reconcile(id: Id) returns (ok: bool, verdict: Verdict, unread: bool)
      requires id in w.policies
      modifies this
      ensures Effect(old(w), w, id)
      ensures ok ==> verdict == VerdictOf(old(w), id, old(w).policies[id], unread) && w == Expected(old(w), id, unread)
      // with or without errors, a webhook configuration appears only for a policy that may have it
      ensures NewHooks(old(w), w, id)
      // without errors, a policy that may have its webhook configuration has it, and is active
      ensures ok && !unread && Servable(old(w), id) ==>
                && (id, old(w).policies[id].mutating) in w.hooks
                && id in w.policies && w.policies[id].status.phase == Active && w.policies[id].status.active
      // without errors, a policy that must not have one loses it, and both finalizers
      ensures ok && Dismissed(old(w), id) ==>
                && (id, old(w).policies[id].mutating) !in w.hooks
                && (id in w.policies ==>
                      Kubewarden !in w.policies[id].finalizers && Pre114 !in w.policies[id].finalizers)
      ensures ok && unread ==> failures > old(failures)
      ensures !ok ==> failures > old(failures)
    {
      hide Effect, WithStatus, NewHooks, Servable, Dismissed;
      UnhookedEffect(w, id);
      RemovedEffect(w, id);
      NoEffect(w, id);
      NoNewHooks(w, id);
      if Servable(w, id) { ServableIsServed(w, id); }
      if Dismissed(w, id) {
        DismissedIsRemoved(w, id, false);
        DismissedIsRemoved(w, id, true);
      }
      var copy := w.policies[id];
      if copy.deleting {
        var loaded;
        ok, loaded := RemoveWebhooksAndFinalizers(id, copy);
        return ok, Gone, false;
      }
      var reconciled, loaded;
      reconciled, verdict, loaded, unread := ReconcilePolicy(id, copy);
      var moded;
      ok, moded := SetModeStatus(id, loaded);
      if !ok { return; }
      ok := Call();
      if !ok { return; }
      StatusEffect(w, id, moded.status);
      EffectTrans(old(w), w, w.(policies := w.policies[id := w.policies[id].(status := moded.status)]), id);
      if reconciled { WithStatusIs(w, id, copy, loaded); }
      SameNewHooks(old(w), w, w.(policies := w.policies[id := w.policies[id].(status := moded.status)]), id);
      w := w.(policies := w.policies[id := w.policies[id].(status := moded.status)]);
      ok := reconciled;
    }

    /** filterRejectedNamespacedPolicies and the configuration made of what is left. */
    method ReconcileServer(name: ServerName) returns (ok: bool)
      modifies this
      ensures ok ==> w == ServerExpected(old(w), name) && failures == old(failures)
      ensures ok ==> Configured(old(w), w, name)
      ensures !ok ==> w == old(w) && failures > old(failures)
    {
      hide Configured;
      ServerExpectedMeans(w, name);
      ok := Call();
      if !ok || name !in w.servers || w.servers[name] { return; }
      ok := Call();
      if !ok { return; }
      var bound: seq<Id> := Enumerate(set id: Id | id in w.policies && w.policies[id].server == Some(name));
      var config: map<Id, Mode> := map[];
      for i := 0 to |bound|
        invariant w == old(w)
        invariant forall id :: id in config <==> id in bound[..i] && id in w.policies && Admitted(w, id, w.policies[id])
        invariant forall id :: id in config ==> config[id] == w.policies[id].mode
      {
        var id := bound[i];
        assert id in bound;
        assert bound[..i + 1] == bound[..i] + [id];
        if Admitted(w, id, w.policies[id]) {
          config := config[id := w.policies[id].mode];
        }
      }
      assert bound[..|bound|] == bound;
      assert config == Entries(w, name);
      w := w.(configs := w.configs[name := Readable(config)], deployments := w.deployments + {name});
    }
  }

  // ---- what the reconcilers achieve ----

  /** The admitted policies bound to a PolicyServer, with their modes. */
  function Entries(w: World, name: ServerName): map<Id, Mode> {
    map id | id in w.policies && w.policies[id].server == Some(name) && Admitted(w, id, w.policies[id]) ::
      w.policies[id].mode
  }

  /** A live PolicyServer serves exactly the admitted policies bound to it. */
  function ServerExpected(w: World, name: ServerName): World {
    if name !in w.servers || w.servers[name] then w
    else
      w.(configs := w.configs[name := Readable(Entries(w, name))], deployments := w.deployments + {name})
  }

  /** A live server is deployed, with a configuration that holds exactly the policies bound to it that the allow list
      lets be, in their modes; nothing else changes. */
  ghost predicate Configured(before: World, after: World, name: ServerName) {
    if name in before.servers && !before.servers[name] then
      && after == before.(configs := after.configs, deployments := before.deployments + {name})
      && after.configs.Keys == before.configs.Keys + {name}
      && (forall other :: other in before.configs && other != name ==> after.configs[other] == before.configs[other])
      && after.configs[name].Readable?
      && forall id :: (id in after.configs[name].entries <==>
                         Tolerated(before, id) && before.policies[id].server == Some(name))
                      && (id in after.configs[name].entries ==>
                            after.configs[name].entries[id] == before.policies[id].mode)
    else after == before
  }

  lemma ServerExpectedMeans(w: World, name: ServerName)
    ensures Configured(w, ServerExpected(w, name), name)
  {
  }

  predicate NoHook(w: World, id: Id) {
    (id, true) !in w.hooks && (id, false) !in w.hooks
  }

  lemma ExpectedObject(w: World, id: Id, unread: bool)
    requires id in w.policies && !w.policies[id].deleting
    ensures var verdict := VerdictOf(w, id, w.policies[id], unread);
            var status := StatusFor(w.policies[id], verdict);
            && Expected(w, id, unread).hooks == Shaped(w, id, verdict).hooks
            && id in Expected(w, id, unread).policies && id in Shaped(w, id, verdict).policies
            && Expected(w, id, unread).policies[id].finalizers == Shaped(w, id, verdict).policies[id].finalizers
            && SameSpec(w.policies[id], Expected(w, id, unread).policies[id])
            && Expected(w, id, unread).policies[id].status ==
                 status.(mode := Expected(w, id, unread).policies[id].status.mode,
                         upToDate := Expected(w, id, unread).policies[id].status.upToDate)
  {
    hide Shaped, StatusFor, VerdictOf, Configures;
    ShapedKeeps(w, id, VerdictOf(w, id, w.policies[id], unread));
  }

  /** After a reconcile, rejected or scheduled means no webhook configuration, and reaching active means one, guarded by
      the finalizer. */
  lemma StatusAgrees(w: World, id: Id, unread: bool)
    requires Safe(w) && id in w.policies && !w.policies[id].deleting
    ensures id in Expected(w, id, unread).policies
    ensures var o := Expected(w, id, unread).policies[id];
            && (o.status.phase in {Rejected, Scheduled} ==> NoHook(Expected(w, id, unread), id))
            && (VerdictOf(w, id, w.policies[id], unread).Reached? ==>
                  && o.status.phase == Active && o.status.active
                  && (id, o.mutating) in Expected(w, id, unread).hooks && Kubewarden in o.finalizers)
  {
    hide Expected, VerdictOf;
    ExpectedObject(w, id, unread);
  }

  lemma NoNewHooks(w: World, id: Id)
    requires id in w.policies
    ensures NewHooks(w, w, id) && NewHooks(w, Unhooked(w, id), id) && NewHooks(w, Removed(w, id), id)
  {
  }

  lemma ReachedIsServable(w: World, id: Id)
    requires id in w.policies
    ensures forall unread :: VerdictOf(w, id, w.policies[id], unread).Reached? ==> !unread && Servable(w, id)
  {
    ServableIs(w, id);
  }

  lemma OwnNewHook(w: World, id: Id)
    requires id in w.policies
    ensures NewHooks(w, Guarded(w, id), id)
    ensures Servable(w, id) ==> NewHooks(w, Hooked(Guarded(w, id), id), id)
  {
    hide Servable;
  }

  lemma SameNewHooks(before: World, after: World, later: World, id: Id)
    requires NewHooks(before, after, id) && later.hooks == after.hooks
    ensures NewHooks(before, later, id)
  {
    hide Servable;
  }

  /** A policy that is being deleted, is not tolerated, or has lost its server. */
  ghost predicate Dismissed(w: World, id: Id) {
    id in w.policies &&
    (w.policies[id].deleting || !Tolerated(w, id) || (w.policies[id].server.Some? && !LiveServer(w, id)))
  }

  /** Such a policy loses its webhook configuration and both finalizers of Kubewarden's. If it is being deleted it goes,
      unless another tool holds it. */
  lemma DismissedIsRemoved(w: World, id: Id, unread: bool)
    requires Dismissed(w, id)
    ensures var o := w.policies[id];
            var after := Expected(w, id, unread);
            && after.hooks == w.hooks - {(id, o.mutating)}
            && (id in after.policies ==>
                  && after.policies[id].finalizers == o.finalizers - {Kubewarden, Pre114}
                  && after.policies[id].deleting == o.deleting)
            && (id !in after.policies <==>
                  o.deleting && (Kubewarden in o.finalizers || Pre114 in o.finalizers) && Other !in o.finalizers)
  {
    var o := w.policies[id];
    var verdict := VerdictOf(w, id, o, unread);
    assert Shaped(w, id, verdict) == Removed(w, id);
    if o.deleting {
      assert Expected(w, id, unread) == Removed(w, id);
    } else {
      ExpectedObject(w, id, unread);
    }
    hide VerdictOf, Tolerated, LiveServer, Expected, Shaped;
    RemovedMeans(w, id);
  }

  lemma RemovedMeans(w: World, id: Id)
    requires id in w.policies
    ensures var o := w.policies[id];
            var after := Removed(w, id);
            && after.hooks == w.hooks - {(id, o.mutating)}
            && (id in after.policies ==>
                  && after.policies[id].finalizers == o.finalizers - {Kubewarden, Pre114}
                  && after.policies[id].deleting == o.deleting)
            && (id !in after.policies <==>
                  o.deleting && (Kubewarden in o.finalizers || Pre114 in o.finalizers) && Other !in o.finalizers)
  {
    var o := w.policies[id];
    var kept := o.finalizers - {Kubewarden, Pre114};
    assert forall f :: f in kept ==> f == Other;
    assert if Other in o.finalizers then Other in kept else kept == {};
    if !HasOwnFinalizer(o) { assert kept == o.finalizers; }
  }

  lemma ServableIsServed(w: World, id: Id)
    requires Servable(w, id)
    ensures var after := Expected(w, id, false);
            && VerdictOf(w, id, w.policies[id], false).Reached?
            && (id, w.policies[id].mutating) in after.hooks
            && id in after.policies && after.policies[id].status.phase == Active && after.policies[id].status.active
  {
    ServableIs(w, id);
    assert VerdictOf(w, id, w.policies[id], false).Reached?;
    ExpectedObject(w, id, false);
    hide Expected, Servable;
  }

  /** What the phases say about the policy: each is the mark of one situation. */
  lemma PhaseMeans(w: World, id: Id, unread: bool)
    requires id in w.policies && !w.policies[id].deleting
    ensures id in Expected(w, id, unread).policies
    ensures var o := w.policies[id];
            var phase := Expected(w, id, unread).policies[id].status.phase;
            && (phase == Rejected <==> !Tolerated(w, id))
            && (phase == Unscheduled <==> Tolerated(w, id) && o.server.None?)
            && (phase == Scheduled <==> Tolerated(w, id) && o.server.Some? && !LiveServer(w, id))
            && (phase == Pending || phase == Active <==> Tolerated(w, id) && LiveServer(w, id))
            && (phase == Active <== !unread && Servable(w, id))
            && (phase == Active && o.status.phase != Active ==> !unread && Servable(w, id))
  {
    hide Expected, UniquelyReachable, Shaped, AfterRemoval;
    ExpectedObject(w, id, unread);
    ServableIs(w, id);
    hide Servable;
  }

  /** The policy is bound to a server that is deployed and has a configuration. */
  ghost predicate Observable(w: World, id: Id) {
    && id in w.policies && w.policies[id].server.Some?
    && w.policies[id].server.value in w.deployments && w.policies[id].server.value in w.configs
  }

  /**
    The status that a reconcile leaves, field by field. An active policy stays active while it waits for its server.
    Whether it is uniquely reachable is only looked at behind a deployed server; the update that adds the finalizer
    loads the stored answer. The mode is that of the configuration that the server has, and the other condition says
    whether its Deployment carries that.
   */
  lemma StatusMeans(w: World, id: Id, unread: bool)
    requires id in w.policies && !w.policies[id].deleting
    ensures id in Expected(w, id, unread).policies
    ensures var o := w.policies[id];
            var after := Expected(w, id, unread).policies[id].status;
            var served := !unread && Servable(w, id);
            var waits := Tolerated(w, id) && LiveServer(w, id) && !served;
            && (after.phase == Active <==> served || (waits && o.status.phase == Active))
            && (after.phase == Pending <==> waits && o.status.phase != Active)
            && (served ==> after.active) && (waits ==> !after.active)
            && after.reachable ==
                 (if served then (Kubewarden in o.finalizers || o.status.reachable)
                  else if waits && o.server.value in w.deployments then false
                  else o.status.reachable)
            && (if Observable(w, id) then
                  var config := w.configs[o.server.value];
                  && after.mode == (if config.Readable? && id in config.entries then config.entries[id] else Unknown)
                  && after.upToDate == (o.server.value in w.current)
                else after.mode == o.status.mode && after.upToDate == o.status.upToDate)
  {
    ServableIs(w, id);
    ObservedMeans(w, id, unread);
    ExpectedObject(w, id, unread);
    hide Servable, Expected, UniquelyReachable, Observable;
  }

  lemma ObservedMeans(w: World, id: Id, unread: bool)
    requires id in w.policies && !w.policies[id].deleting
    ensures id in Expected(w, id, unread).policies
    ensures var o := w.policies[id];
            var after := Expected(w, id, unread).policies[id].status;
            if Observable(w, id) then
              var config := w.configs[o.server.value];
              && after.mode == (if config.Readable? && id in config.entries then config.entries[id] else Unknown)
              && after.upToDate == (o.server.value in w.current)
            else after.mode == o.status.mode && after.upToDate == o.status.upToDate
  {
    hide VerdictOf, HasOwnFinalizer;
    var verdict := VerdictOf(w, id, w.policies[id], unread);
    ShapedKeeps(w, id, verdict);
    var shaped := Shaped(w, id, verdict);
    assert shaped.configs == w.configs && shaped.deployments == w.deployments && shaped.current == w.current;
    assert StatusFor(w.policies[id], verdict).mode == w.policies[id].status.mode;
    assert StatusFor(w.policies[id], verdict).upToDate == w.policies[id].status.upToDate;
    hide Shaped, StatusFor;
  }

  /**
    The condition PolicyActive lags behind in one case: a reconcile that takes the webhook configuration of a policy
    away because its server is unavailable writes the old condition back if it also had a finalizer to remove.
   */
  lemma StaleActiveCondition(w: World, id: Id, unread: bool)
    requires id in w.policies && !w.policies[id].deleting
    ensures id in Expected(w, id, unread).policies
    ensures var o := w.policies[id];
            var after := Expected(w, id, unread).policies[id].status;
            after.active && after.phase != Active <==>
              VerdictOf(w, id, o, unread).ServerUnavailable? && HasOwnFinalizer(o) && o.status.active
  {
    hide Expected, Shaped, HasOwnFinalizer, Admitted, Available, UniquelyReachable;
    ExpectedObject(w, id, unread);
  }

  ghost predicate StaleActive(w: World, id: Id) {
    id in w.policies && w.policies[id].status.active && w.policies[id].status.phase != Active
  }

  /** It lags for one reconcile: whatever else changes, the next one that gets through clears it. */
  lemma StaleActiveClears(w: World, id: Id, unread: bool, later: World, unread': bool)
    requires id in w.policies && !w.policies[id].deleting && StaleActive(Expected(w, id, unread), id)
    requires id in later.policies && !later.policies[id].deleting
    requires later.policies[id].finalizers == Expected(w, id, unread).policies[id].finalizers
    ensures id in Expected(later, id, unread').policies && !StaleActive(Expected(later, id, unread'), id)
  {
    hide Expected, VerdictOf;
    StaleActiveCondition(w, id, unread);
    ExpectedObject(w, id, unread);
    StaleActiveCondition(later, id, unread');
  }

  // A server that is ready for its policy, before the first reconcile of the policy.
  const SERVED: Id := Id(ClusterPolicies, 0)

  const READY: World := World(
    map[SERVED := Object(Some(0), false, false, Protect, {}, false, Status(Unset, false, false, false, Unknown))],
    {}, map[0 := false], {0}, map[0 := Readable(map[SERVED := Protect])], true, {}, {0}, {0})

  /** The policy becomes active; its server is deleted; the next reconcile takes its webhook configuration away and
      leaves the condition. */
  lemma StaleActiveArises()
    ensures Safe(READY) && VerdictOf(READY, SERVED, READY.policies[SERVED], false).Reached?
    ensures var served := Expected(READY, SERVED, false);
            var lost := served.(servers := map[0 := true]);
            var after := Expected(lost, SERVED, false);
            StaleActive(after, SERVED) && NoHook(after, SERVED) && after.policies[SERVED].status.phase == Scheduled
  {
    var served := Expected(READY, SERVED, false);
    ExpectedObject(READY, SERVED, false);
    StatusAgrees(READY, SERVED, false);
    ExpectedEffect(READY, SERVED, false);
    var lost := served.(servers := map[0 := true]);
    assert Safe(lost);
    StaleActiveCondition(lost, SERVED, false);
    PhaseMeans(lost, SERVED, false);
    StatusAgrees(lost, SERVED, false);
  }

  // ---- reconciles in any order ----

  datatype Reconciliation = ForPolicy(id: Id, unread: bool) | ForServer(name: ServerName)

  /** A reconcile without errors, though a read of isPolicyUniquelyReachable may fail; a policy that is gone is not
      reconciled. */
  ghost function Done(w: World, r: Reconciliation): World {
    match r
    case ForPolicy(id, unread) => if id in w.policies then Expected(w, id, unread) else w
    case ForServer(name) => ServerExpected(w, name)
  }

  ghost function DoneAll(w: World, rs: seq<Reconciliation>): World {
    if rs == [] then w else Done(DoneAll(w, rs[..|rs| - 1]), rs[|rs| - 1])
  }

  /** A webhook configuration is only there for an admitted policy with an available server. */
  ghost predicate Justified(w: World, id: Id) {
    id in w.policies && w.policies[id].server.Some? && !NoHook(w, id) ==>
      Admitted(w, id, w.policies[id]) && Available(w, w.policies[id])
  }

  ghost predicate Serves(w: World, name: ServerName) {
    name in w.servers && !w.servers[name] ==>
      name in w.configs &&
      forall id :: id in w.policies && w.policies[id].server == Some(name) && Admitted(w, id, w.policies[id]) ==>
        Configures(w, name, id)
  }

  /** What no reconcile changes. */
  ghost predicate SameGround(before: World, after: World) {
    && after.servers == before.servers && after.allowed == before.allowed
    && (forall id :: id in after.policies ==>
          id in before.policies && SameSpec(before.policies[id], after.policies[id]))
  }

  lemma ShapedEffect(w: World, id: Id, verdict: Verdict)
    requires id in w.policies
    ensures Effect(w, Shaped(w, id, verdict), id)
  {
    hide Effect, Removed, Guarded, Hooked;
    NoEffect(w, id);
    RemovedEffect(w, id);
    ActivationEffect(w, id);
  }

  lemma ExpectedEffect(w: World, id: Id, unread: bool)
    requires id in w.policies
    ensures Effect(w, Expected(w, id, unread), id)
  {
    hide Effect, Shaped, StatusFor, VerdictOf;
    var o := w.policies[id];
    var shaped := Shaped(w, id, VerdictOf(w, id, o, unread));
    ShapedEffect(w, id, VerdictOf(w, id, o, unread));
    if !o.deleting {
      ShapedKeeps(w, id, VerdictOf(w, id, o, unread));
      var status := StatusFor(o, VerdictOf(w, id, o, unread));
      var final := Observed(shaped, id, o, status);
      StatusEffect(shaped, id, final);
      EffectTrans(w, shaped, shaped.(policies := shaped.policies[id := shaped.policies[id].(status := final)]), id);
    }
  }

  lemma EffectGround(w: World, after: World, id: Id)
    requires Effect(w, after, id)
    ensures SameGround(w, after) && after.configs == w.configs
    ensures forall k :: k != id ==> NoHook(after, k) == NoHook(w, k)
  {
    hide Safe;
    forall k | k != id && k in after.policies ensures SameSpec(w.policies[k], after.policies[k]) {
    }
  }

  /** A reconcile of a policy justifies its webhook configuration, whatever there was before. */
  lemma ReconcileJustifies(w: World, id: Id, unread: bool)
    requires Safe(w) && id in w.policies
    ensures Justified(Expected(w, id, unread), id)
  {
    hide Expected;
    var o := w.policies[id];
    var after := Expected(w, id, unread);
    ExpectedEffect(w, id, unread);
    EffectGround(w, after, id);
    if !o.deleting {
      hide Shaped;
      StatusAgrees(w, id, unread);
      PhaseMeans(w, id, unread);
      assert SameSpec(o, after.policies[id]);
    } else {
      DeletedUnhooked(w, id, unread);
    }
  }

  lemma DeletedUnhooked(w: World, id: Id, unread: bool)
    requires Safe(w) && id in w.policies && w.policies[id].deleting
    ensures NoHook(Expected(w, id, unread), id)
  {
  }

  lemma JustifiedStays(before: World, after: World, id: Id)
    requires SameGround(before, after) && Justified(before, id) && (NoHook(before, id) ==> NoHook(after, id))
    ensures Justified(after, id)
  {
  }

  lemma ServesStays(before: World, after: World, name: ServerName)
    requires SameGround(before, after) && Serves(before, name)
    requires name in before.configs ==> name in after.configs && before.configs[name] == after.configs[name]
    ensures Serves(after, name)
  {
  }

  lemma ServerReconciles(w: World, name: ServerName)
    ensures SameGround(w, ServerExpected(w, name)) && Serves(ServerExpected(w, name), name)
    ensures ServerExpected(w, name).hooks == w.hooks && ServerExpected(w, name).policies == w.policies
    ensures forall other :: other != name && other in w.configs ==>
              other in ServerExpected(w, name).configs && ServerExpected(w, name).configs[other] == w.configs[other]
  {
  }

  /** Each reconcile establishes its own fact and keeps the others'. */
  lemma DoneStep(w: World, r: Reconciliation)
    requires Safe(w)
    ensures Safe(Done(w, r)) && SameGround(w, Done(w, r))
    ensures r.ForPolicy? ==> Justified(Done(w, r), r.id)
    ensures r.ForServer? ==> Serves(Done(w, r), r.name)
    ensures forall id :: Justified(w, id) ==> Justified(Done(w, r), id)
    ensures forall name :: Serves(w, name) ==> Serves(Done(w, r), name)
  {
    hide Expected, ServerExpected, Safe, Justified, Serves, SameGround, NoHook;
    var after := Done(w, r);
    match r
    case ForPolicy(id, unread) =>
      if id in w.policies {
        ExpectedEffect(w, id, unread);
        assert Safe(after) by { EffectSafe(w, after, id); }
        EffectGround(w, after, id);
        ReconcileJustifies(w, id, unread);
        forall k | Justified(w, k) ensures Justified(after, k) {
          if k != id { JustifiedStays(w, after, k); }
        }
        forall name | Serves(w, name) ensures Serves(after, name) { ServesStays(w, after, name); }
      } else {
        Unchanged(w, id);
      }
    case ForServer(name) =>
      ServerReconciles(w, name);
      assert Safe(after) by { SameHooksSafe(w, after); }
      forall k | Justified(w, k) ensures Justified(after, k) {
        assert NoHook(w, k) ==> NoHook(after, k) by { NoHookSame(w, after, k); }
        JustifiedStays(w, after, k);
      }
      forall other | Serves(w, other) ensures Serves(after, other) {
        if other != name { ServesStays(w, after, other); }
      }
  }

  lemma EffectSafe(before: World, after: World, id: Id)
    requires Effect(before, after, id) && Safe(before)
    ensures Safe(after)
  {
  }

  lemma SameHooksSafe(before: World, after: World)
    requires Safe(before) && after.hooks == before.hooks && after.policies == before.policies
    ensures Safe(after)
  {
  }

  lemma NoHookSame(before: World, after: World, id: Id)
    requires after.hooks == before.hooks
    ensures NoHook(before, id) == NoHook(after, id)
  {
  }

  lemma Unchanged(w: World, id: Id)
    requires id !in w.policies
    ensures SameGround(w, w) && Justified(w, id)
  {
  }

  lemma {:induction false} DoneFacts(w: World, rs: seq<Reconciliation>, r: Reconciliation)
    requires Safe(w)
    ensures Safe(DoneAll(w, rs))
    ensures r in rs && r.ForPolicy? ==> Justified(DoneAll(w, rs), r.id)
    ensures r in rs && r.ForServer? ==> Serves(DoneAll(w, rs), r.name)
  {
    hide Safe, Justified, Serves, SameGround, Done;
    if rs != [] {
      var n := |rs| - 1;
      DoneFacts(w, rs[..n], r);
      DoneStep(DoneAll(w, rs[..n]), rs[n]);
      assert r in rs ==> r == rs[n] || r in rs[..n];
    }
  }

  /**
    Once every policy bound to a PolicyServer and the PolicyServer itself have been reconciled without errors, in any
    order and with any other reconciles in between, no webhook configuration sends requests to the server for a policy
    that is missing from its configuration.
   */
  lemma ServingAgrees(w: World, rs: seq<Reconciliation>, name: ServerName, id: Id, unread: bool)
    requires Safe(w) && ForServer(name) in rs && ForPolicy(id, unread) in rs
    ensures var after := DoneAll(w, rs);
            id in after.policies && after.policies[id].server == Some(name) && !NoHook(after, id) ==>
              name in after.servers && !after.servers[name] && Configures(after, name, id)
  {
    hide DoneAll, Safe, NoHook, Admitted;
    DoneFacts(w, rs, ForServer(name));
    DoneFacts(w, rs, ForPolicy(id, unread));
  }
}
