/**
 * The move task's state as a value, and one pure transition per entry point
 * of the task.  Each transition follows the statements of the corresponding
 * C++ method in order; its postconditions state what the method promises.
 * The class in MoveTaskModel is proved to change its fields exactly as these
 * functions say, and the lemmas in Lifecycle are proved about them.
 */
module MoveTaskSpec {
  import opened MoveTypes

  /** What a task is set up with: its kind, whether it has an owning controller, the request, the tracking flag. */
  datatype Config = Config(
    variant: Variant,
    hasController: bool,            // OwnerController != null
    request: MoveRequestSpec,       // MoveRequest
    tracking: bool)                 // bUseContinuousTracking

  /** The two delegate handles, by validity: the follower's and the path's. */
  datatype Handles = Handles(
    finish: bool,                   // PathFinishDelegateHandle.IsValid()
    update: bool)                   // PathUpdateDelegateHandle.IsValid()

  /** The two retry timer handles, by validity, and the timers armed for the task in the world's timer manager. */
  datatype Timers = Timers(
    moveRetry: bool,                // MoveRetryTimerHandle.IsValid()
    pathRetry: bool,                // PathRetryTimerHandle.IsValid()
    armed: set<TimerKind>)

  /**
   * The task's fields; `notifications` and `calls` record, in order, what the
   * task broadcast and what it asked of the follower and of the path.
   */
  datatype TaskState = TaskState(
    cfg: Config,
    phase: Phase,
    follower: Option<FollowerView>, // PathFollowingComp
    moveRequestId: RequestId,       // MoveRequestID
    path: Option<NavPath>,          // Path
    handles: Handles,
    moveResult: FollowingResultCode,
    timers: Timers,
    notifications: seq<Notification>,
    calls: seq<Call>)

  /** A task as the factory returns it: nothing requested, observed or armed. */
  function Initial(variant: Variant, hasController: bool, request: MoveRequestSpec, tracking: bool): (s: TaskState)
    ensures s.moveResult == Invalid && !s.moveRequestId.IsValid()
    ensures s.timers.armed == {} && s.notifications == [] && s.path.None?
  {
    TaskState(Config(variant, hasController, request, tracking), AwaitingActivation, None, InvalidRequest, None,
              Handles(false, false), Invalid, Timers(false, false, {}), [], [])
  }

  /**
   * The request a factory builds: the goal actor if one is given, else the
   * location; partial-path and projection options picked over the defaults of
   * a fresh request.
   */
  function BuildRequest(goalActorGiven: bool, acceptPartialPath: AIOption, usePathfinding: bool,
                        projectGoal: AIOption, defaults: MoveRequestSpec): (r: MoveRequestSpec)
    ensures r.goalIsActor == goalActorGiven && r.usePathfinding == usePathfinding
    ensures acceptPartialPath == Default ==> r.allowPartialPath == defaults.allowPartialPath
    ensures acceptPartialPath != Default ==> (r.allowPartialPath <==> acceptPartialPath == Enable)
    ensures projectGoal == Default ==> r.projectGoal == defaults.projectGoal
    ensures projectGoal != Default ==> (r.projectGoal <==> projectGoal == Enable)
  {
    MoveRequestSpec(goalActorGiven, PickAIOption(acceptPartialPath, defaults.allowPartialPath),
                    usePathfinding, PickAIOption(projectGoal, defaults.projectGoal))
  }

  /** WasMoveSuccessful. */
  predicate WasMoveSuccessful(s: TaskState) {
    s.moveResult == Success
  }

  /** WasMovePartial: reads the partial flag of the held path. */
  predicate WasMovePartial(s: TaskState) {
    s.path.Some? && s.path.value.partial
  }

  /** The follower must be told to abort: a live request of ours it is still working on. */
  predicate ShouldAbort(s: TaskState) {
    s.moveRequestId.IsValid() && s.follower.Some? && s.follower.value.status != Idle
  }

  /** The follower's AbortMove: it stops only if the request is its current one. */
  function AfterAbort(f: FollowerView, id: RequestId): (g: FollowerView) {
    if IsEquivalent(id, f.currentId) then f.(status := Idle) else f
  }

  /** AbortMove(OwnerFinished, MoveRequestID) sent to the follower. */
  function AbortMove(s: TaskState): (t: TaskState)
    requires s.follower.Some?
    ensures t.follower.Some? && t.follower.value.currentId == s.follower.value.currentId
    ensures t.follower.value.status == Idle <==>
              s.follower.value.status == Idle || IsEquivalent(s.moveRequestId, s.follower.value.currentId)
  {
    s.(calls := s.calls + [AbortMoveCall(s.moveRequestId)],
       follower := Some(AfterAbort(s.follower.value, s.moveRequestId)))
  }

  /** A call log without any AbortMove. */
  predicate NoAbort(cs: seq<Call>) {
    forall c :: c in cs ==> !c.AbortMoveCall?
  }

  /**
   * The calls of ResetObservers: goal-actor observation is disabled on a held
   * path, then the follower subscription and the path observer are removed.
   */
  function ObserverResetCalls(s: TaskState): (cs: seq<Call>) {
    (if s.path.Some? then [DisableGoalActorObservation(s.path.value.id)] else [])
    + (if s.handles.finish && s.follower.Some? then [RemoveFinishObserver] else [])
    + (if s.handles.update && s.path.Some? then [RemovePathObserver(s.path.value.id)] else [])
  }

  /** ResetObservers: stop goal-actor observation, drop both delegate subscriptions. */
  function ResetObservers(s: TaskState): (t: TaskState)
    ensures t.handles == Handles(false, false)
  {
    s.(handles := Handles(false, false), calls := s.calls + ObserverResetCalls(s))
  }

  /**
   * ResetTimers: every timer of the task is cleared (next-tick ones included)
   * when there is a controller to reach the timer manager through; both retry
   * handles are invalidated in any case.
   */
  function ResetTimers(s: TaskState): (t: TaskState)
    ensures !t.timers.moveRetry && !t.timers.pathRetry
    ensures s.cfg.hasController ==> t.timers.armed == {}
  {
    s.(timers := Timers(false, false, if s.cfg.hasController then {} else s.timers.armed))
  }

  /** OnDestroy: teardown of the task. */
  function OnDestroy(s: TaskState): (t: TaskState)
    ensures t.phase == Finished && t.path.None?
    ensures t.handles == Handles(false, false) && !t.timers.moveRetry && !t.timers.pathRetry
    ensures s.cfg.hasController ==> t.timers.armed == {}
  {
    var s1 := ResetTimers(ResetObservers(s.(phase := Finished)));
    var s2 := if ShouldAbort(s1) then AbortMove(s1) else s1;
    s2.(path := None)
  }

  /** EndTask as the gameplay-task base runs it: OnDestroy, once. */
  function EndTask(s: TaskState): (t: TaskState)
    ensures t.phase == Finished
    ensures s.phase == Finished ==> t == s
    ensures s.phase != Finished ==> t == OnDestroy(s)
  {
    if s.phase != Finished then OnDestroy(s) else s
  }

  /**
   * FinishMoveTask: stop the follower if it still runs our request, store the
   * result, end the task and broadcast on exactly one of the two channels.
   */
  function FinishMoveTask(s: TaskState, r: FollowingResultCode): (t: TaskState)
    ensures t.moveResult == r && t.phase == Finished
    ensures t.notifications == s.notifications + [NotificationFor(r)]
  {
    var s1 := if ShouldAbort(s) then AbortMove(ResetObservers(s)) else s;
    var s2 := EndTask(s1.(moveResult := r));
    s2.(notifications := s2.notifications + [NotificationFor(r)])
  }

  /** The readiness probe asks to wait, and waiting applies to this request. */
  predicate Postponed(s: TaskState, postpone: bool) {
    s.cfg.request.usePathfinding && s.cfg.hasController && postpone
  }

  /** The goal may be requested: an actor goal, or a valid location that projects when it must. */
  predicate CanRequestMove(request: MoveRequestSpec, w: NavWorld) {
    request.goalIsActor
    || (w.locationValid && !(request.projectGoal && w.navSystemPresent && !w.projectionOk))
  }

  /** BuildPathfindingQuery finds navigation data to query. */
  predicate QueryBuilt(w: NavWorld) {
    w.navSystemPresent && w.queryNavData
  }

  /** The calls of FindPathForMoveRequest and of the RequestMove that follows it. */
  function SearchCalls(request: MoveRequestSpec, w: NavWorld): (cs: seq<Call>) {
    [PathfindingQuery] +
    match w.foundPath
    case None => []
    case Some(p) =>
      (if request.goalIsActor then [SetGoalActorObservation(p.id)] else [])
      + [EnableRecalculation(p.id, true), RequestMoveCall(w.requestedId)]
  }

  /** What one MoveTo call returns and does. */
  datatype MoveAttempt = MoveAttempt(
    result: RequestResult,
    path: Option<NavPath>,
    calls: seq<Call>,
    follower: Option<FollowerView>)

  /** MoveTo: validate the request, short-circuit on "already there", else query and request. */
  function MoveTo(request: MoveRequestSpec, follower: Option<FollowerView>, w: NavWorld): (a: MoveAttempt)
    // an invalid request, or no follower: Failed with no follower call
    ensures !w.requestValid || follower.None? ==>
              a.result == RequestResult(Failed, InvalidRequest) && a.calls == [] && a.follower == follower
    // already at goal: an immediate Success finish, and no query
    ensures a.result.code == AlreadyAtGoal <==>
              w.requestValid && follower.Some? && CanRequestMove(request, w) && w.reached
    ensures a.result.code == AlreadyAtGoal ==>
              a.result.moveId == w.immediateId && a.calls == [ImmediateFinishCall(Success, w.immediateId)]
              && a.path.None?
    // a request is made only when every step succeeds
    ensures a.result.code == RequestSuccessful <==>
              w.requestValid && follower.Some? && CanRequestMove(request, w) && !w.reached
              && QueryBuilt(w) && w.foundPath.Some? && w.requestedId.IsValid()
    ensures a.result.code == RequestSuccessful ==>
              a.result.moveId == w.requestedId && a.path == w.foundPath && a.result.moveId.IsValid()
    // any other failure ends in an immediate Invalid finish
    ensures a.result.code == Failed && w.requestValid && follower.Some? ==>
              a.result.moveId == w.immediateId && a.path.None?
              && |a.calls| > 0 && a.calls[|a.calls| - 1] == ImmediateFinishCall(Invalid, w.immediateId)
    ensures a.follower.Some? <==> follower.Some?
  {
    if !w.requestValid || follower.None? then
      MoveAttempt(RequestResult(Failed, InvalidRequest), None, [], follower)
    else if CanRequestMove(request, w) && w.reached then
      MoveAttempt(RequestResult(AlreadyAtGoal, w.immediateId), None,
                  [ImmediateFinishCall(Success, w.immediateId)], Some(FollowerView(Idle, w.immediateId)))
    else
      var searched := CanRequestMove(request, w) && QueryBuilt(w);
      var search := if searched then SearchCalls(request, w) else [];
      assert searched ==> search[0] == PathfindingQuery;
      if searched && w.foundPath.Some? && w.requestedId.IsValid() then
        MoveAttempt(RequestResult(RequestSuccessful, w.requestedId), w.foundPath, search,
                    Some(FollowerView(Moving, w.requestedId)))
      else
        MoveAttempt(RequestResult(Failed, w.immediateId), None,
                    search + [ImmediateFinishCall(Invalid, w.immediateId)], Some(FollowerView(Idle, w.immediateId)))
  }

  /** A successful result for an actor goal under continuous tracking: move again next tick. */
  predicate TrackingLoops(s: TaskState, code: FollowingResultCode) {
    s.cfg.tracking && s.cfg.request.goalIsActor && code == Success
  }

  /** OnRequestFinished: the follower (or PerformMove) reports the end of a request. */
  function OnRequestFinished(s: TaskState, id: RequestId, r: FollowingResult): (t: TaskState)
    ensures id != s.moveRequestId ==> t == s
    ensures t.phase == s.phase || t.phase == Finished
  {
    if id == s.moveRequestId then
      if AbortedByNewRequest(r.flags) then s
      else
        var s1 := s.(moveRequestId := InvalidRequest);
        if TrackingLoops(s, r.code) then s1.(timers := s1.timers.(armed := s1.timers.armed + {NextTick}))
        else FinishMoveTask(s1, r.code)
    else s
  }

  /**
   * SetObservedPath: stop observing the old path, then hold the new one with
   * automatic recalculation off and exactly one observer of ours on it.
   */
  function SetObservedPath(s: TaskState, p: Option<NavPath>): (t: TaskState)
    ensures t.path == p && (t.handles.update <==> p.Some?)
  {
    var unobserve := if s.handles.update && s.path.Some? then [RemovePathObserver(s.path.value.id)] else [];
    var observe := if p.Some? then [EnableRecalculation(p.value.id, false), AddPathObserver(p.value.id)] else [];
    s.(path := p, handles := s.handles.(update := p.Some?), calls := s.calls + unobserve + observe)
  }

  /** PerformMove: start a new move attempt. */
  function PerformMove(s: TaskState, w: NavWorld): (t: TaskState)
    ensures s.follower.None? ==> t.notifications == s.notifications + [RequestFailed] && t.phase == Finished
    ensures t.phase == s.phase || t.phase == Finished
  {
    if s.follower.None? then FinishMoveTask(s, Invalid)
    else
      var s1 := ResetTimers(ResetObservers(s));
      var a := MoveTo(s1.cfg.request, s1.follower, w);
      var s2 := s1.(calls := s1.calls + a.calls, follower := a.follower);
      match a.result.code
      case Failed => FinishMoveTask(s2, Invalid)
      case AlreadyAtGoal =>
        OnRequestFinished(s2.(moveRequestId := a.result.moveId), a.result.moveId,
                          FollowingResult(Success, {AlreadyAtGoalFlag}))
      case RequestSuccessful =>
        SetObservedPath(s2.(moveRequestId := a.result.moveId, handles := s2.handles.(finish := true),
                            calls := s2.calls + [AddFinishObserver]), a.path)
  }

  /** ConditionalPerformMove: wait for the readiness probe, or start the attempt. */
  function ConditionalPerformMove(s: TaskState, postpone: bool, w: NavWorld): (t: TaskState)
    ensures Postponed(s, postpone) ==> t.timers.moveRetry && MoveRetry in t.timers.armed && t.calls == s.calls
    ensures t.phase == s.phase || t.phase == Finished
  {
    if Postponed(s, postpone) then s.(timers := s.timers.(moveRetry := true, armed := s.timers.armed + {MoveRetry}))
    else PerformMove(s.(timers := s.timers.(moveRetry := false)), w)
  }

  /**
   * Activate.  The controller task does nothing without a controller; the
   * ability task dereferences the controller unguarded, so it needs one.
   */
  function Activate(s: TaskState, found: Option<FollowerView>, postpone: bool, w: NavWorld): (t: TaskState)
    requires s.cfg.variant == AbilityTask ==> s.cfg.hasController
    ensures t.phase == Active || t.phase == Finished
  {
    var s1 := s.(phase := Active);
    if s.cfg.variant == ControllerTask && !s.cfg.hasController then s1
    else ConditionalPerformMove(s1.(follower := found, moveRequestId := InvalidRequest), postpone, w)
  }

  /** The held path is marked as waiting for a manual repath. */
  function MarkRepathWaiting(s: TaskState): (t: TaskState) {
    if s.path.Some? then s.(calls := s.calls + [SetManualRepathWaiting(s.path.value.id)]) else s
  }

  /** The navigation data of the held path recomputes it in place; with none to ask, the task aborts. */
  function RepathOrAbort(s: TaskState): (t: TaskState) {
    if s.path.Some? && s.path.value.hasNavData then s.(calls := s.calls + [RequestRePath(s.path.value.id)])
    else FinishMoveTask(s, Aborted)
  }

  /** ConditionalUpdatePath: repath now, wait for readiness, or give up. */
  function ConditionalUpdatePath(s: TaskState, postpone: bool): (t: TaskState)
    ensures Postponed(s, postpone) ==> t.timers.pathRetry && PathRetry in t.timers.armed && t.phase == s.phase
    ensures t.phase == s.phase || t.phase == Finished
  {
    var s1 := MarkRepathWaiting(s);
    if Postponed(s1, postpone) then s1.(timers := s1.timers.(pathRetry := true, armed := s1.timers.armed + {PathRetry}))
    else RepathOrAbort(s1.(timers := s1.timers.(pathRetry := false)))
  }

  /** A path event that aborts: a disallowed partial path after an update, or the path is gone. */
  predicate PathEventAborts(request: MoveRequestSpec, inPath: Option<NavPath>, e: PathEvent) {
    (IsPathUpdate(e) && inPath.Some? && inPath.value.partial && !request.allowPartialPath)
    || e == Cleared || e == RePathFailed
  }

  /** OnPathEvent: react to an event of the observed path. */
  function OnPathEvent(s: TaskState, inPath: Option<NavPath>, e: PathEvent, postpone: bool): (t: TaskState)
    ensures PathEventAborts(s.cfg.request, inPath, e) ==> t.phase == Finished && t.moveResult == Aborted
    ensures t.phase == s.phase || t.phase == Finished
  {
    match e
    case NewPath | UpdatedDueToGoalMoved | UpdatedDueToNavigationChanged =>
      if inPath.Some? && inPath.value.partial && !s.cfg.request.allowPartialPath then FinishMoveTask(s, Aborted)
      else s
    case Invalidated => ConditionalUpdatePath(s, postpone)
    case Cleared | RePathFailed => FinishMoveTask(s, Aborted)
    case MetaPathUpdate | Custom => s
  }

  /** Pause: pause our live request, then clear every timer. */
  function Pause(s: TaskState): (t: TaskState)
    ensures t.phase == Phase.Paused
    ensures !t.timers.moveRetry && !t.timers.pathRetry && (s.cfg.hasController ==> t.timers.armed == {})
  {
    var s1 := if s.follower.Some? && s.moveRequestId.IsValid()
              then s.(calls := s.calls + [PauseMoveCall(s.moveRequestId)]) else s;
    ResetTimers(s1).(phase := Phase.Paused)
  }

  /** The follower still works on our request, so it can be resumed. */
  predicate CanResume(s: TaskState) {
    s.moveRequestId.IsValid() && s.follower.Some? && IsEquivalent(s.moveRequestId, s.follower.value.currentId)
  }

  /** Resume: resume the same request, or start over with a fresh attempt. */
  function Resume(s: TaskState, postpone: bool, w: NavWorld): (t: TaskState)
    ensures CanResume(s) ==> t.phase == Active && t.moveRequestId == s.moveRequestId
    ensures t.phase == Active || t.phase == Finished
  {
    var s1 := s.(phase := Active);
    if s1.moveRequestId.IsValid() && s1.follower.Some? && IsEquivalent(s1.moveRequestId, s1.follower.value.currentId)
    then s1.(calls := s1.calls + [ResumeMoveCall(s1.moveRequestId)])
    else ConditionalPerformMove(s1, postpone, w)
  }
}
