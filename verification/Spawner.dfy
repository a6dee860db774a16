/** Ids, the connection table, the wait group and the pruner of ProxySpawner, with
    any number of listeners adding connections at the same time.

    Each lock region is one action; the pruner holds connectionLock over several
    actions, so that the wait group is seen between a delete and its Done. */
module Spawner {
  import opened Base
  import opened Contexts

  /** A container ever made; `made` says whether its maker succeeded. */
  datatype Container = Container(id: nat, owner: nat, made: bool, ctx: Ctx)

  /** Where a listener's call of AddConnection stands; `ref` indexes `created`. */
  datatype Adding = Nothing | Vetted | Allocated(ref: nat) | Inserted(ref: nat)

  datatype Listener = Spawned | Checked | Running(adding: Adding) | Finished

  datatype Pruner =
    | NotStarted
    | Launched
    | Sleeping
    | Scanning(todo: set<nat>, found: set<nat>)   // holds connectionLock
    | Deleting(found: set<nat>)                   // holds connectionLock
    | Owing(found: set<nat>)                      // deleted one, wg.Done not called yet
    | Stopped

  datatype State = State(
    context: Ctx,
    currentId: nat,
    created: seq<Container>,
    connections: map<nat, nat>,
    listeners: seq<Listener>,
    pruner: Pruner,
    wg: int)

  datatype Action =
    | CheckListener(l: nat)
    | EnterListener(l: nat)
    | LeaveListener(l: nat)
    | VetAdd(l: nat)
    | Make(l: nat, ok: bool)
    | Insert(l: nat)
    | CountAdd(l: nat)
    | Kill(cause: Cause)
    | CancelOne(ref: nat, cause: Cause)
    | LaunchPruner
    | StartPruner
    | BeginScan
    | ScanOne(id: nat)
    | EndScan
    | DeleteOne(id: nat)
    | PayOne
    | EndPrune
    | StopPruner

  ghost predicate Init(s: State) {
    && s == State(None, 0, [], map[], s.listeners, NotStarted, 0)
    && forall l :: 0 <= l < |s.listeners| ==> s.listeners[l] == Spawned
  }

  predicate Locked(p: Pruner) { p.Scanning? || p.Deleting? || p.Owing? }

  /** Listener `l` has allocated an id and not stored its container yet. */
  predicate HasAllocated(s: State, l: nat) {
    && l < |s.listeners| && s.listeners[l].Running? && s.listeners[l].adding.Allocated?
    && s.listeners[l].adding.ref < |s.created|
  }

  predicate Enabled(s: State, a: Action) {
    match a
    case CheckListener(l) => l < |s.listeners| && s.listeners[l] == Spawned
    case EnterListener(l) => l < |s.listeners| && s.listeners[l] == Checked
    case LeaveListener(l) => l < |s.listeners| && s.listeners[l] == Running(Nothing)
    case VetAdd(l) => l < |s.listeners| && s.listeners[l] == Running(Nothing)
    case Make(l, _) => l < |s.listeners| && s.listeners[l] == Running(Vetted)
    case Insert(l) => HasAllocated(s, l) && !Locked(s.pruner)
    case CountAdd(l) => l < |s.listeners| && s.listeners[l].Running? && s.listeners[l].adding.Inserted?
    case Kill(_) => true
    case CancelOne(r, _) => r < |s.created|
    case LaunchPruner => s.pruner.NotStarted? && s.context.None?
    case StartPruner => s.pruner.Launched?
    case BeginScan => s.pruner.Sleeping?
    case ScanOne(k) => s.pruner.Scanning? && k in s.pruner.todo && k in s.connections && s.connections[k] < |s.created|
    case EndScan => s.pruner.Scanning? && s.pruner.todo == {}
    case DeleteOne(k) => s.pruner.Deleting? && k in s.pruner.found
    case PayOne => s.pruner.Owing?
    case EndPrune => s.pruner.Deleting? && s.pruner.found == {}
    case StopPruner => s.pruner.Sleeping? && s.context.Some?
  }

  function SetListener(s: State, l: nat, x: Listener): State
    requires l < |s.listeners|
  {
    s.(listeners := s.listeners[l := x])
  }

  function DoCheck(s: State, l: nat): State
    requires l < |s.listeners|
  {
    SetListener(s, l, if s.context.Some? then Finished else Checked)
  }

  function DoEnter(s: State, l: nat): State
    requires l < |s.listeners|
  {
    SetListener(s, l, Running(Nothing)).(wg := s.wg + 1)
  }

  function DoLeave(s: State, l: nat): State
    requires l < |s.listeners|
  {
    SetListener(s, l, Finished).(wg := s.wg - 1)
  }

  function DoVet(s: State, l: nat): State
    requires l < |s.listeners|
  {
    if s.context.Some? then s else SetListener(s, l, Running(Vetted))
  }

  const INIT_FAILED := Cause({}, 2)   // "failed to initialize: ..."

  /** The currentIdLock region: a failed container gives its id back. */
  function DoMake(s: State, l: nat, ok: bool): State
    requires l < |s.listeners|
  {
    var ctx := Child(s.context);
    if ok then
      SetListener(s, l, Running(Allocated(|s.created|))).(
        created := s.created + [Container(s.currentId, l, true, ctx)], currentId := s.currentId + 1)
    else
      SetListener(s, l, Running(Nothing)).(
        created := s.created + [Container(s.currentId, l, false, Cancel(ctx, INIT_FAILED))])
  }

  function DoInsert(s: State, l: nat): State
    requires HasAllocated(s, l)
  {
    var r := s.listeners[l].adding.ref;
    SetListener(s, l, Running(Inserted(r))).(connections := s.connections[s.created[r].id := r])
  }

  function DoCount(s: State, l: nat): State
    requires l < |s.listeners|
  {
    SetListener(s, l, Running(Nothing)).(wg := s.wg + 1)
  }

  function KillOne(c: Container, cause: Cause): Container { c.(ctx := Cancel(c.ctx, cause)) }

  /** Cancelling the spawner cancels every container. */
  function DoKill(s: State, cause: Cause): State {
    s.(context := Cancel(s.context, cause),
       created := seq(|s.created|, r requires 0 <= r < |s.created| => KillOne(s.created[r], cause)))
  }

  function DoCancelOne(s: State, r: nat, cause: Cause): State
    requires r < |s.created|
  {
    s.(created := s.created[r := KillOne(s.created[r], cause)])
  }

  function DoScanOne(s: State, k: nat): State
    requires Enabled(s, ScanOne(k))
  {
    var dead := s.created[s.connections[k]].ctx.Some?;
    s.(pruner := Scanning(s.pruner.todo - {k}, if dead then s.pruner.found + {k} else s.pruner.found))
  }

  function DoDeleteOne(s: State, k: nat): State
    requires Enabled(s, DeleteOne(k))
  {
    s.(connections := s.connections - {k}, pruner := Owing(s.pruner.found - {k}))
  }

  function DoPayOne(s: State): State
    requires Enabled(s, PayOne)
  {
    s.(pruner := Deleting(s.pruner.found), wg := s.wg - 1)
  }

  function Apply(s: State, a: Action): State
    requires Enabled(s, a)
  {
    match a
    case CheckListener(l) => DoCheck(s, l)
    case EnterListener(l) => DoEnter(s, l)
    case LeaveListener(l) => DoLeave(s, l)
    case VetAdd(l) => DoVet(s, l)
    case Make(l, ok) => DoMake(s, l, ok)
    case Insert(l) => DoInsert(s, l)
    case CountAdd(l) => DoCount(s, l)
    case Kill(c) => DoKill(s, c)
    case CancelOne(r, c) => DoCancelOne(s, r, c)
    case LaunchPruner => s.(pruner := Launched)
    case StartPruner => s.(pruner := Sleeping, wg := s.wg + 1)
    case BeginScan => s.(pruner := Scanning(s.connections.Keys, {}))
    case ScanOne(k) => DoScanOne(s, k)
    case EndScan => s.(pruner := Deleting(s.pruner.found))
    case DeleteOne(k) => DoDeleteOne(s, k)
    case PayOne => DoPayOne(s)
    case EndPrune => s.(pruner := Sleeping)
    case StopPruner => s.(pruner := Stopped)
  }

  ghost predicate Next(s: State, s': State) {
    exists a :: Enabled(s, a) && s' == Apply(s, a)
  }
}
