/**
  Policies, their webhook configurations and their PolicyServers as one state machine over API calls. At most one
  reconcile of a policy, and one of a PolicyServer, is under way at a time; it works on the copy it read, and it may
  stop after any call. Users, the certificate controller and other tools act in between.
 */
module PolicyLifecycle {
  import opened Options

  datatype PolicyKind = ClusterPolicies | NamespacedPolicies | NamespacedGroups | ClusterGroups

  /** The unique name of a policy: its kind and what distinguishes it among its kind. */
  datatype Id = Id(kind: PolicyKind, number: nat)

  type ServerName = nat

  datatype Finalizer = Kubewarden | Pre114 | Other

  datatype Policy = Policy(uid: nat, version: nat, server: ServerName, mutating: bool, finalizers: set<Finalizer>,
                           deleting: bool)

  /** A webhook configuration under the policy's unique name. */
  datatype Hook = Hook(uid: nat, version: nat)

  /** How far a policy reconcile has come. */
  datatype Phase =
    | Started
    | Finalized
    | HookRead(seen: Option<Hook>)
    | Removing
    | HookFound(uid: nat)
    | HookGone

  datatype Pass = Pass(copy: Policy, phase: Phase) {
    /** The reconcile can still create a webhook configuration, without a look at the stored policy before. */
    predicate CanWrite() {
      match phase
      case Started => !copy.deleting && Kubewarden in copy.finalizers
      case Finalized => true
      case HookRead(seen) => seen.None?
      case _ => false
    }
  }

  /** Everything that belongs to one policy name. */
  datatype Local = Local(policy: Option<Policy>, validating: Option<Hook>, mutating: Option<Hook>, pass: Option<Pass>) {
    function HookOf(m: bool): Option<Hook> {
      if m then mutating else validating
    }

    function WithHook(m: bool, h: Option<Hook>): Local {
      if m then this.(mutating := h) else this.(validating := h)
    }

    predicate HasHook() {
      validating.Some? || mutating.Some?
    }
  }

  const NOTHING := Local(None, None, None, None)

  // ---- the API server ----

  /** An object that is being deleted goes when its last finalizer does. */
  function Stored(p: Policy): Option<Policy> {
    if p.deleting && p.finalizers == {} then None else Some(p)
  }

  predicate Current(l: Local, copy: Policy) {
    l.policy.Some? && l.policy.value.uid == copy.uid && l.policy.value.version == copy.version
  }

  // ---- steps on one policy name ----

  datatype PolicyStep =
    // users and other tools
    | Create(server: ServerName, mutating: bool)
    | Update
    | FlipMutating
    | SetOther(present: bool)
    | Delete
    | TouchHook(m: bool)
    | DropHook(m: bool)
    // the reconcile
    | Begin
    | Crash
    | AddFinalizer
    | ReadHook
    | WriteHook
    | Remove
    | FindHook
    | DeleteHook
    | Release

  predicate InPhase(l: Local, step: PolicyStep) {
    l.pass.Some? &&
    match step
    case Crash => true
    case AddFinalizer => l.pass.value.phase.Started? && !l.pass.value.copy.deleting
    case ReadHook => l.pass.value.phase.Finalized?
    case WriteHook => l.pass.value.phase.HookRead?
    case Remove => l.pass.value.phase.Started?
    case FindHook => l.pass.value.phase.Removing?
    case DeleteHook => l.pass.value.phase.HookFound?
    case Release => l.pass.value.phase.HookGone?
    case _ => false
  }

  predicate LocalEnabled(l: Local, step: PolicyStep) {
    match step
    case Create(_, _) => l.policy.None?
    case Update => l.policy.Some?
    case FlipMutating => l.policy.Some?
    case SetOther(present) => l.policy.Some? && (present ==> !l.policy.value.deleting)
    case Delete => l.policy.Some?
    case TouchHook(m) => l.HookOf(m).Some?
    case DropHook(m) => l.HookOf(m).Some?
    case Begin => l.policy.Some? && l.pass.None?
    case _ => InPhase(l, step)
  }

  /** `now` is a number no object carries yet: the version of what this step writes, and the uid of what it creates. */
  function DoLocal(l: Local, step: PolicyStep, now: nat): Local
    requires LocalEnabled(l, step)
  {
    match step
    case Create(server, mutating) => l.(policy := Some(Policy(now, now, server, mutating, {}, false)))
    case Update => l.(policy := Some(l.policy.value.(version := now)))
    case FlipMutating => l.(policy := Some(l.policy.value.(version := now, mutating := !l.policy.value.mutating)))
    case SetOther(present) =>
      var p := l.policy.value;
      l.(policy := Stored(p.(version := now,
                             finalizers := if present then p.finalizers + {Other} else p.finalizers - {Other})))
    case Delete => l.(policy := Stored(l.policy.value.(version := now, deleting := true)))
    case TouchHook(m) => l.WithHook(m, Some(l.HookOf(m).value.(version := now)))
    case DropHook(m) => l.WithHook(m, None)
    case Begin => l.(pass := Some(Pass(l.policy.value, Started)))
    case Crash => l.(pass := None)
    case AddFinalizer =>
      var copy := l.pass.value.copy;
      if Kubewarden in copy.finalizers then l.(pass := Some(Pass(copy, Finalized)))
      else if !Current(l, copy) then l.(pass := None)
      else
        var p := l.policy.value.(version := now, finalizers := l.policy.value.finalizers + {Kubewarden});
        l.(policy := Some(p), pass := Some(Pass(p, Finalized)))
    case ReadHook =>
      var copy := l.pass.value.copy;
      l.(pass := Some(Pass(copy, HookRead(l.HookOf(copy.mutating)))))
    case WriteHook =>
      var copy := l.pass.value.copy;
      var live := l.HookOf(copy.mutating);
      if live != l.pass.value.phase.seen then l.(pass := None)
      else l.WithHook(copy.mutating, Some(Hook(if live.Some? then live.value.uid else now, now))).(pass := None)
    case Remove => l.(pass := Some(l.pass.value.(phase := Removing)))
    case FindHook =>
      var h := l.HookOf(l.pass.value.copy.mutating);
      l.(pass := Some(l.pass.value.(phase := if h.Some? then HookFound(h.value.uid) else HookGone)))
    case DeleteHook =>
      var m := l.pass.value.copy.mutating;
      var gone := l.(pass := Some(l.pass.value.(phase := HookGone)));
      if l.HookOf(m).Some? && l.HookOf(m).value.uid == l.pass.value.phase.uid then gone.WithHook(m, None) else gone
    case Release =>
      var copy := l.pass.value.copy;
      if copy.finalizers !! {Kubewarden, Pre114} || !Current(l, copy) then l.(pass := None)
      else
        l.(policy := Stored(l.policy.value.(version := now,
                                            finalizers := l.policy.value.finalizers - {Kubewarden, Pre114})),
           pass := None)
  }

  // ---- PolicyServers ----

  datatype Server = Server(uid: nat, version: nat, deleting: bool, finalizers: set<Finalizer>, cleanedUp: bool)

  /**
    The deletion reconcile lists the policies kind by kind, then checks them one by one, the validating webhook before
    the mutating one. `kinds` are the kinds still to be listed.
   */
  datatype ServerPhase =
    | ServerStarted
    | Listing(kinds: seq<PolicyKind>, ids: seq<Id>)
    | Checking(todo: seq<Id>, half: bool, found: bool)
  {
    /** The reconcile has yet to look for this webhook configuration, should there be one. */
    ghost predicate StillSees(id: Id, m: bool) {
      match this
      case ServerStarted => true
      case Listing(kinds, ids) => id.kind in kinds || id in ids
      case Checking(todo, half, _) => id in todo && (half ==> m || id in todo[1..])
    }
  }

  const ALL_KINDS: seq<PolicyKind> := [ClusterPolicies, NamespacedPolicies, NamespacedGroups, ClusterGroups]

  function KindsLeft(phase: ServerPhase): seq<PolicyKind> {
    match phase
    case ServerStarted => ALL_KINDS
    case Listing(kinds, _) => kinds
    case Checking(_, _, _) => []
  }

  function Collected(phase: ServerPhase): seq<Id> {
    if phase.Listing? then phase.ids else []
  }

  function AfterList(phase: ServerPhase, ids: seq<Id>): ServerPhase
    requires KindsLeft(phase) != []
  {
    var kinds, all := KindsLeft(phase)[1..], Collected(phase) + ids;
    if kinds == [] then Checking(all, false, false) else Listing(kinds, all)
  }

  datatype ServerPass = ServerPass(copy: Server, phase: ServerPhase)

  datatype ServerLocal = ServerLocal(server: Option<Server>, pass: Option<ServerPass>)

  const NO_SERVER := ServerLocal(None, None)

  datatype State = State(now: nat, locals: map<Id, Local>, servers: map<ServerName, ServerLocal>)

  function At(s: State, id: Id): Local {
    if id in s.locals then s.locals[id] else NOTHING
  }

  function ServerAt(s: State, name: ServerName): ServerLocal {
    if name in s.servers then s.servers[name] else NO_SERVER
  }

  ghost predicate BoundTo(l: Local, name: ServerName) {
    l.policy.Some? && l.policy.value.server == name
  }

  function StoredServer(v: Server): Option<Server> {
    if v.deleting && v.finalizers == {} then None else Some(v)
  }

  predicate CurrentServer(v: ServerLocal, copy: Server) {
    v.server.Some? && v.server.value.uid == copy.uid && v.server.value.version == copy.version
  }

  datatype ServerStep =
    | CreateServer
    | TouchServer
    | DeleteServer
    | BeginServer
    | CrashServer
    // a live server: add the finalizer, and at the end write the status
    | FinalizeServer
    | WriteStatus
    // a server being deleted
    | ListKind(ids: seq<Id>)
    | CheckValidating
    | CheckMutating
    | WriteCleanedUp
    | ReleaseServer

  ghost predicate ServerEnabled(s: State, name: ServerName, step: ServerStep) {
    var v := ServerAt(s, name);
    match step
    case CreateServer => v.server.None?
    case TouchServer => v.server.Some?
    case DeleteServer => v.server.Some?
    case BeginServer => v.server.Some? && v.pass.None?
    case CrashServer => v.pass.Some?
    case FinalizeServer => v.pass.Some? && v.pass.value.phase.ServerStarted? && !v.pass.value.copy.deleting
    case WriteStatus => v.pass.Some? && v.pass.value.phase.ServerStarted? && !v.pass.value.copy.deleting
    case ListKind(ids) =>
      && v.pass.Some? && v.pass.value.copy.deleting && !v.pass.value.copy.cleanedUp
      && KindsLeft(v.pass.value.phase) != []
      && (forall id :: id in ids <==> BoundTo(At(s, id), name) && id.kind == KindsLeft(v.pass.value.phase)[0])
    case CheckValidating =>
      v.pass.Some? && v.pass.value.phase.Checking? && v.pass.value.phase.todo != [] && !v.pass.value.phase.half
    case CheckMutating =>
      v.pass.Some? && v.pass.value.phase.Checking? && v.pass.value.phase.todo != [] && v.pass.value.phase.half
    case WriteCleanedUp => v.pass.Some? && v.pass.value.phase.Checking? && v.pass.value.phase.todo == []
    case ReleaseServer =>
      v.pass.Some? && v.pass.value.phase.ServerStarted? && v.pass.value.copy.deleting && v.pass.value.copy.cleanedUp
  }

  /** An update with a stale copy fails and ends the reconcile. */
  function WriteServer(v: ServerLocal, copy: Server, after: Server): ServerLocal {
    if CurrentServer(v, copy) then ServerLocal(StoredServer(after), None) else v.(pass := None)
  }

  ghost function DoServer(s: State, name: ServerName, step: ServerStep): ServerLocal
    requires ServerEnabled(s, name, step)
  {
    var v := ServerAt(s, name);
    match step
    case CreateServer => v.(server := Some(Server(s.now, s.now, false, {}, false)))
    case TouchServer => v.(server := Some(v.server.value.(version := s.now)))
    case DeleteServer => v.(server := StoredServer(v.server.value.(version := s.now, deleting := true)))
    case BeginServer => v.(pass := Some(ServerPass(v.server.value, ServerStarted)))
    case CrashServer => v.(pass := None)
    case FinalizeServer =>
      var copy := v.pass.value.copy;
      if Kubewarden in copy.finalizers || !CurrentServer(v, copy) then v.(pass := None)
      else
        var after := v.server.value.(version := s.now, finalizers := v.server.value.finalizers + {Kubewarden});
        ServerLocal(Some(after), Some(ServerPass(after, ServerStarted)))
    case WriteStatus =>
      var copy := v.pass.value.copy;
      if CurrentServer(v, copy) then
        WriteServer(v, copy, v.server.value.(version := s.now, cleanedUp := copy.cleanedUp))
      else v.(pass := None)
    case ListKind(ids) => v.(pass := Some(v.pass.value.(phase := AfterList(v.pass.value.phase, ids))))
    case CheckValidating =>
      var phase := v.pass.value.phase;
      var present := At(s, phase.todo[0]).validating.Some?;
      v.(pass := Some(v.pass.value.(
        phase := if present then Checking(phase.todo[1..], false, true) else phase.(half := true))))
    case CheckMutating =>
      var phase := v.pass.value.phase;
      var present := At(s, phase.todo[0]).mutating.Some?;
      v.(pass := Some(v.pass.value.(phase := Checking(phase.todo[1..], false, phase.found || present))))
    case WriteCleanedUp =>
      var copy := v.pass.value.copy;
      if CurrentServer(v, copy) then
        WriteServer(v, copy, v.server.value.(version := s.now, cleanedUp := !v.pass.value.phase.found))
      else v.(pass := None)
    case ReleaseServer =>
      var copy := v.pass.value.copy;
      if CurrentServer(v, copy) then
        WriteServer(v, copy, v.server.value.(version := s.now,
                                             finalizers := v.server.value.finalizers - {Kubewarden, Pre114}))
      else v.(pass := None)
  }

  // ---- runs ----

  datatype Step = OfPolicy(id: Id, policyStep: PolicyStep) | OfServer(name: ServerName, serverStep: ServerStep)

  ghost predicate Enabled(s: State, step: Step) {
    match step
    case OfPolicy(id, policyStep) => LocalEnabled(At(s, id), policyStep)
    case OfServer(name, serverStep) => ServerEnabled(s, name, serverStep)
  }

  ghost function Do(s: State, step: Step): State
    requires Enabled(s, step)
  {
    match step
    case OfPolicy(id, policyStep) => State(s.now + 1, s.locals[id := DoLocal(At(s, id), policyStep, s.now)], s.servers)
    case OfServer(name, serverStep) => State(s.now + 1, s.locals, s.servers[name := DoServer(s, name, serverStep)])
  }

  const INITIAL := State(0, map[], map[])

  /** Changing `spec.mutating` is safe while there is no webhook configuration and no reconcile that may still create
      one. */
  predicate SafeFlip(l: Local) {
    !l.HasHook() && (l.pass.Some? ==> !l.pass.value.CanWrite())
  }

  ghost predicate FlipsAreSafe(s: State, step: Step) {
    step.OfPolicy? && step.policyStep.FlipMutating? ==> SafeFlip(At(s, step.id))
  }

  predicate LiveServer(s: State, name: ServerName) {
    var v := ServerAt(s, name);
    v.server.Some? && !v.server.value.deleting
  }

  // ---- webhook configurations that are created for a server that is going ----

  /** The write goes through and creates the webhook configuration: there was none, and there still is none. */
  predicate Creates(l: Local) {
    && l.pass.Some? && l.pass.value.phase == HookRead(None)
    && l.HookOf(l.pass.value.copy.mutating).None?
  }

  ghost predicate CreatesFor(s: State, step: Step, name: ServerName) {
    step.OfPolicy? && step.policyStep.WriteHook? && Creates(At(s, step.id)) &&
      At(s, step.id).pass.value.copy.server == name
  }

  /**
    The deletion of this server is past the point where it would notice this webhook configuration: it has been reported
    cleaned up, or the reconcile that is about to report it has looked already and found nothing.
   */
  ghost predicate Missed(s: State, name: ServerName, id: Id, m: bool) {
    var v := ServerAt(s, name);
    && v.server.Some? && v.server.value.deleting && Kubewarden in v.server.value.finalizers
    && (|| v.server.value.cleanedUp
        || (&& v.pass.Some? && CurrentServer(v, v.pass.value.copy) && !v.pass.value.phase.ServerStarted?
            && (v.pass.value.phase.Checking? ==> !v.pass.value.phase.found)
            && !v.pass.value.phase.StillSees(id, m)))
  }

  /** A creation that the deletion of its server does not notice. */
  ghost predicate MissedWrite(s: State, step: Step, name: ServerName) {
    CreatesFor(s, step, name) && Missed(s, name, step.id, At(s, step.id).pass.value.copy.mutating)
  }

  /** A creation for a server that is missing or being deleted. */
  ghost predicate LateWrite(s: State, step: Step, name: ServerName) {
    CreatesFor(s, step, name) && !LiveServer(s, name)
  }

  ghost predicate IsRun(run: seq<State>, steps: seq<Step>) {
    && |run| == |steps| + 1 && run[0] == INITIAL
    && forall i {:trigger steps[i]} :: 0 <= i < |steps| ==>
         Enabled(run[i], steps[i]) && run[i + 1] == Do(run[i], steps[i])
  }

  ghost predicate FlipsAreSafeIn(run: seq<State>, steps: seq<Step>)
    requires |run| == |steps| + 1
  {
    forall i {:trigger steps[i]} :: 0 <= i < |steps| ==> FlipsAreSafe(run[i], steps[i])
  }
}
