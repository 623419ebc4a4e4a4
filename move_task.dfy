/**
 * The move task as the object the engine holds: its fields are updated in
 * place by the entry points below, each written statement by statement after
 * the C++ method of the same name.  Every method is proved to change the
 * fields exactly as the transition of the same name in MoveTaskSpec says, so
 * the properties proved there and in Lifecycle hold of the object.
 */
module MoveTaskModel {
  import opened MoveTypes
  import Spec = MoveTaskSpec

  /** What the factory of the controller task can see of the controller it is given. */
  datatype ControllerInfo = ControllerInfo(isTaskOwner: bool)  // implements IGameplayTaskOwnerInterface

  class MoveTask {
    const variant: Variant
    var hasController: bool                 // OwnerController != null
    var phase: Phase                        // the gameplay-task base state
    var request: MoveRequestSpec            // MoveRequest
    var tracking: bool                      // bUseContinuousTracking
    var follower: Option<FollowerView>      // PathFollowingComp
    var moveRequestId: RequestId            // MoveRequestID
    var path: Option<NavPath>               // Path
    var finishHandle: bool                  // PathFinishDelegateHandle is valid
    var updateHandle: bool                  // PathUpdateDelegateHandle is valid
    var moveRetryHandle: bool               // MoveRetryTimerHandle is valid
    var pathRetryHandle: bool               // PathRetryTimerHandle is valid
    var moveResult: FollowingResultCode     // MoveResult
    var timers: set<TimerKind>              // timers armed for this task in the timer manager
    ghost var notifications: seq<Notification>  // broadcasts, in order
    ghost var calls: seq<Call>                  // calls on the follower and the path, in order

    /** The fields as one value of the abstract machine. */
    ghost function Abs(): (s: Spec.TaskState)
      reads this
    {
      Spec.TaskState(Spec.Config(variant, hasController, request, tracking), phase, follower, moveRequestId, path,
                     Spec.Handles(finishHandle, updateHandle), moveResult, Spec.Timers(moveRetryHandle, pathRetryHandle, timers),
                     notifications, calls)
    }

    /**
     * The constructor: no controller yet, the default request with partial
     * paths as configured and pathfinding on, no request id, result Invalid.
     */
    constructor (variant: Variant, configAcceptPartial: bool, defaults: MoveRequestSpec)
      ensures Abs() == Spec.Initial(variant, false,
                                    defaults.(allowPartialPath := configAcceptPartial, usePathfinding := true), false)
    {
      this.variant := variant;
      hasController := false;
      phase := AwaitingActivation;
      request := defaults.(allowPartialPath := configAcceptPartial, usePathfinding := true);
      tracking := false;
      follower := None;
      moveRequestId := InvalidRequest;
      path := None;
      finishHandle, updateHandle, moveRetryHandle, pathRetryHandle := false, false, false, false;
      moveResult := Invalid;
      timers := {};
      notifications, calls := [], [];
    }

    /** SetUp: the owning controller and the request. */
    method SetUp(controllerGiven: bool, newRequest: MoveRequestSpec)
      modifies this
      ensures Abs() == old(Abs()).(cfg := old(Abs()).cfg.(hasController := controllerGiven, request := newRequest))
    {
      hasController := controllerGiven;
      request := newRequest;
    }

    /** SetContinuousGoalTracking. */
    method SetContinuousGoalTracking(enable: bool)
      modifies this
      ensures Abs() == old(Abs()).(cfg := old(Abs()).cfg.(tracking := enable))
    {
      tracking := enable;
    }

    /**
     * PlayerAIMoveTo: no task without a controller, nor with one that cannot
     * own gameplay tasks; otherwise a fresh controller task, set up and
     * awaiting activation.
     */
    static method PlayerAIMoveTo(controller: Option<ControllerInfo>, goalActorGiven: bool,
                                 acceptPartialPath: AIOption, usePathfinding: bool, continuous: bool,
                                 projectGoal: AIOption, configAcceptPartial: bool, defaults: MoveRequestSpec)
      returns (task: MoveTask?)
      ensures task == null <==> controller.None? || !controller.value.isTaskOwner
      ensures task != null ==> fresh(task) && task.Abs() == Spec.Initial(ControllerTask, true,
                Spec.BuildRequest(goalActorGiven, acceptPartialPath, usePathfinding, projectGoal, defaults), continuous)
    {
      if controller.None? {
        return null;
      }
      if !controller.value.isTaskOwner {
        return null;
      }
      task := new MoveTask(ControllerTask, configAcceptPartial, defaults);
      task.hasController := true;  // InitMoveTask
      var moveReq := Spec.BuildRequest(goalActorGiven, acceptPartialPath, usePathfinding, projectGoal, defaults);
      task.SetUp(true, moveReq);
      task.SetContinuousGoalTracking(continuous);
    }

    /**
     * GameplayPlayerAIMoveTo: always a fresh ability task, whether or not a
     * controller is given.
     */
    static method GameplayPlayerAIMoveTo(controllerGiven: bool, goalActorGiven: bool,
                                         acceptPartialPath: AIOption, usePathfinding: bool, continuous: bool,
                                         projectGoal: AIOption, configAcceptPartial: bool, defaults: MoveRequestSpec)
      returns (task: MoveTask)
      ensures fresh(task) && task.Abs() == Spec.Initial(AbilityTask, controllerGiven,
                Spec.BuildRequest(goalActorGiven, acceptPartialPath, usePathfinding, projectGoal, defaults), continuous)
    {
      task := new MoveTask(AbilityTask, configAcceptPartial, defaults);
      var moveReq := Spec.BuildRequest(goalActorGiven, acceptPartialPath, usePathfinding, projectGoal, defaults);
      task.SetUp(controllerGiven, moveReq);
      task.SetContinuousGoalTracking(continuous);
    }

    function GetMoveResult(): (r: FollowingResultCode)
      reads this
      ensures r == Abs().moveResult
    {
      moveResult
    }

    predicate WasMoveSuccessful()
      reads this
      ensures WasMoveSuccessful() <==> Spec.WasMoveSuccessful(Abs())
    {
      moveResult == Success
    }

    predicate WasMovePartial()
      reads this
      ensures WasMovePartial() <==> Spec.WasMovePartial(Abs())
    {
      path.Some? && path.value.partial
    }

    /** The follower's AbortMove for our request, with the OwnerFinished flag. */
    method AbortMove()
      requires follower.Some?
      modifies this
      ensures Abs() == Spec.AbortMove(old(Abs()))
    {
      calls := calls + [AbortMoveCall(moveRequestId)];
      if IsEquivalent(moveRequestId, follower.value.currentId) {
        follower := Some(follower.value.(status := Idle));
      }
    }

    method ResetObservers()
      modifies this
      ensures Abs() == Spec.ResetObservers(old(Abs()))
    {
      if path.Some? {
        calls := calls + [DisableGoalActorObservation(path.value.id)];
      }
      if finishHandle && follower.Some? {
        calls := calls + [RemoveFinishObserver];
      }
      finishHandle := false;
      if updateHandle && path.Some? {
        calls := calls + [RemovePathObserver(path.value.id)];
      }
      updateHandle := false;
    }

    method ResetTimers()
      modifies this
      ensures Abs() == Spec.ResetTimers(old(Abs()))
    {
      if hasController {
        timers := {};
      }
      moveRetryHandle := false;
      pathRetryHandle := false;
    }

    method OnDestroy()
      modifies this
      ensures Abs() == Spec.OnDestroy(old(Abs()))
    {
      phase := Finished;  // the base class's OnDestroy
      ResetObservers();
      ResetTimers();
      if moveRequestId.IsValid() {
        if follower.Some? && follower.value.status != Idle {
          AbortMove();
        }
      }
      path := None;
    }

    /** EndTask of the gameplay-task base: OnDestroy unless already finished. */
    method EndTask()
      modifies this
      ensures Abs() == Spec.EndTask(old(Abs()))
    {
      if phase != Finished {
        OnDestroy();
      }
    }

    method FinishMoveTask(r: FollowingResultCode)
      modifies this
      ensures Abs() == Spec.FinishMoveTask(old(Abs()), r)
    {
      if moveRequestId.IsValid() && follower.Some? && follower.value.status != Idle {
        ResetObservers();
        AbortMove();
      }
      moveResult := r;
      EndTask();
      notifications := notifications + [NotificationFor(r)];  // OnRequestFailed or OnMoveFinished
    }

    /**
     * Activate, with the navigation control found for the controller passed
     * in as `found`.
     */
    method Activate(found: Option<FollowerView>, postpone: bool, w: NavWorld)
      requires variant == AbilityTask ==> hasController
      modifies this
      ensures Abs() == Spec.Activate(old(Abs()), found, postpone, w)
    {
      ghost var s := Abs();
      phase := Active;
      if variant == ControllerTask && !hasController {
        return;
      }
      follower := found;
      moveRequestId := InvalidRequest;
      assert Abs() == s.(phase := Active, follower := found, moveRequestId := InvalidRequest);
      ConditionalPerformMove(postpone, w);
    }

    /** ConditionalPerformMove; `postpone` is the controller's ShouldPostponePathUpdates. */
    method ConditionalPerformMove(postpone: bool, w: NavWorld)
      modifies this
      ensures Abs() == Spec.ConditionalPerformMove(old(Abs()), postpone, w)
    {
      if request.usePathfinding && hasController && postpone {
        timers := timers + {MoveRetry};
        moveRetryHandle := true;
      } else {
        moveRetryHandle := false;
        PerformMove(w);
      }
    }

    method PerformMove(w: NavWorld)
      modifies this
      ensures Abs() == Spec.PerformMove(old(Abs()), w)
    {
      if follower.None? {
        FinishMoveTask(Invalid);
        return;
      }
      ghost var s := Abs();
      ResetObservers();
      ResetTimers();
      ghost var s1 := Abs();
      assert s1 == Spec.ResetTimers(Spec.ResetObservers(s));
      var result, followedPath := MoveTo(w);
      ghost var a := Spec.MoveTo(s1.cfg.request, s1.follower, w);
      ghost var s2 := s1.(calls := s1.calls + a.calls, follower := a.follower);
      assert Abs() == s2;
      match result.code
      case Failed =>
        FinishMoveTask(Invalid);
      case AlreadyAtGoal =>
        moveRequestId := result.moveId;
        assert Abs() == s2.(moveRequestId := a.result.moveId);
        OnRequestFinished(result.moveId, FollowingResult(Success, {AlreadyAtGoalFlag}));
      case RequestSuccessful =>
        moveRequestId := result.moveId;
        calls := calls + [AddFinishObserver];
        finishHandle := true;
        assert Abs() == s2.(moveRequestId := a.result.moveId, handles := s2.handles.(finish := true), calls := s2.calls + [AddFinishObserver]);
        SetObservedPath(followedPath);
    }

    /**
     * MoveTo: the request's validity, the goal checks, the reach test, the
     * pathfinding query and the follower's answers are read from `w`.
     */
    method MoveTo(w: NavWorld) returns (result: RequestResult, outPath: Option<NavPath>)
      modifies this`calls, this`follower
      ensures var a := Spec.MoveTo(request, old(follower), w);
              result == a.result && outPath == a.path && calls == old(calls) + a.calls && follower == a.follower
    {
      result := RequestResult(Failed, InvalidRequest);
      outPath := None;
      if !w.requestValid {
        return;
      }
      if follower.None? {
        return;
      }
      var canRequestMove := true;
      if !request.goalIsActor {
        if !w.locationValid {
          canRequestMove := false;
        }
        // projection is required and a navigation system exists that cannot project the goal
        if canRequestMove && request.projectGoal && w.navSystemPresent && !w.projectionOk {
          canRequestMove := false;
        }
      }
      var alreadyAtGoal := canRequestMove && w.reached;
      if alreadyAtGoal {
        calls := calls + [ImmediateFinishCall(Success, w.immediateId)];
        follower := Some(FollowerView(Idle, w.immediateId));
        result := RequestResult(AlreadyAtGoal, w.immediateId);
      } else if canRequestMove {
        var validQuery := BuildPathfindingQuery(w);
        if validQuery {
          var newPath := FindPathForMoveRequest(w);
          var requestId := InvalidRequest;
          if newPath.Some? {
            requestId := w.requestedId;
            calls := calls + [RequestMoveCall(requestId)];
          }
          if requestId.IsValid() {
            follower := Some(FollowerView(Moving, requestId));
            result := RequestResult(RequestSuccessful, requestId);
            outPath := newPath;
          }
        }
      }
      if result.code == Failed {
        calls := calls + [ImmediateFinishCall(Invalid, w.immediateId)];
        follower := Some(FollowerView(Idle, w.immediateId));
        result := result.(moveId := w.immediateId);
      }
    }

    /** BuildPathfindingQuery: a query needs navigation data; the follower is shown the query. */
    method BuildPathfindingQuery(w: NavWorld) returns (ok: bool)
      modifies this`calls
      ensures ok <==> Spec.QueryBuilt(w)
      ensures calls == old(calls) + (if ok then [PathfindingQuery] else [])
    {
      ok := false;
      if w.navSystemPresent && w.queryNavData {
        calls := calls + [PathfindingQuery];
        ok := true;
      }
    }

    /**
     * FindPathForMoveRequest: a found path observes the goal actor (for an
     * actor goal) and recalculates itself on invalidation.
     */
    method FindPathForMoveRequest(w: NavWorld) returns (newPath: Option<NavPath>)
      modifies this`calls
      ensures newPath == (if w.navSystemPresent then w.foundPath else None)
      ensures calls == old(calls) +
                match newPath
                case None => []
                case Some(p) => (if request.goalIsActor then [SetGoalActorObservation(p.id)] else [])
                                + [EnableRecalculation(p.id, true)]
    {
      newPath := None;
      if w.navSystemPresent && w.foundPath.Some? {
        var p := w.foundPath.value;
        if request.goalIsActor {
          calls := calls + [SetGoalActorObservation(p.id)];
        }
        calls := calls + [EnableRecalculation(p.id, true)];
        newPath := Some(p);
      }
    }

    /** OnRequestFinished: the follower's completion callback. */
    method OnRequestFinished(id: RequestId, r: FollowingResult)
      modifies this
      ensures Abs() == Spec.OnRequestFinished(old(Abs()), id, r)
    {
      if id == moveRequestId {
        if UserAbort in r.flags && NewRequest in r.flags && ForcedScript !in r.flags {
          // aborted by a newer request: ignored
        } else {
          moveRequestId := InvalidRequest;
          if tracking && request.goalIsActor && r.code == Success {
            timers := timers + {NextTick};
          } else {
            FinishMoveTask(r.code);
          }
        }
      }
    }

    method SetObservedPath(p: Option<NavPath>)
      modifies this
      ensures Abs() == Spec.SetObservedPath(old(Abs()), p)
    {
      if updateHandle && path.Some? {
        calls := calls + [RemovePathObserver(path.value.id)];
      }
      updateHandle := false;
      path := p;
      if path.Some? {
        calls := calls + [EnableRecalculation(path.value.id, false), AddPathObserver(path.value.id)];
        updateHandle := true;
      }
    }

    method Pause()
      modifies this
      ensures Abs() == Spec.Pause(old(Abs()))
    {
      if follower.Some? && moveRequestId.IsValid() {
        calls := calls + [PauseMoveCall(moveRequestId)];
      }
      ResetTimers();
      phase := Phase.Paused;  // the base class's Pause
    }

    method Resume(postpone: bool, w: NavWorld)
      modifies this
      ensures Abs() == Spec.Resume(old(Abs()), postpone, w)
    {
      ghost var s := Abs();
      phase := Active;  // the base class's Resume
      ghost var s1 := Abs();
      assert s1 == s.(phase := Active);
      var resumed := false;
      if moveRequestId.IsValid() {
        resumed := ResumeMove(moveRequestId);
      }
      assert resumed <==> Spec.CanResume(s);
      if !resumed {
        assert Abs() == s1;
        ConditionalPerformMove(postpone, w);
      }
    }

    /** ResumeMove: only the follower's current request can be resumed. */
    method ResumeMove(requestToResume: RequestId) returns (ok: bool)
      modifies this`calls
      ensures ok <==> follower.Some? && IsEquivalent(requestToResume, follower.value.currentId)
      ensures calls == old(calls) + (if ok then [ResumeMoveCall(requestToResume)] else [])
    {
      ok := false;
      if follower.Some? && IsEquivalent(requestToResume, follower.value.currentId) {
        calls := calls + [ResumeMoveCall(requestToResume)];
        ok := true;
      }
    }

    /** OnPathEvent: `inPath` is the path the event is about. */
    method OnPathEvent(inPath: Option<NavPath>, e: PathEvent, postpone: bool)
      modifies this
      ensures Abs() == Spec.OnPathEvent(old(Abs()), inPath, e, postpone)
    {
      match e
      case NewPath | UpdatedDueToGoalMoved | UpdatedDueToNavigationChanged =>
        if inPath.Some? && inPath.value.partial && !request.allowPartialPath {
          FinishMoveTask(Aborted);
        }
      case Invalidated =>
        ConditionalUpdatePath(postpone);
      case Cleared | RePathFailed =>
        FinishMoveTask(Aborted);
      case MetaPathUpdate | Custom =>
    }

    method ConditionalUpdatePath(postpone: bool)
      modifies this
      ensures Abs() == Spec.ConditionalUpdatePath(old(Abs()), postpone)
    {
      ghost var s := Abs();
      if path.Some? {
        calls := calls + [SetManualRepathWaiting(path.value.id)];
      }
      ghost var s1 := Abs();
      assert s1 == Spec.MarkRepathWaiting(s);
      if request.usePathfinding && hasController && postpone {
        timers := timers + {PathRetry};
        pathRetryHandle := true;
      } else {
        pathRetryHandle := false;
        assert Abs() == s1.(timers := s1.timers.(pathRetry := false));
        if path.Some? && path.value.hasNavData {
          calls := calls + [RequestRePath(path.value.id)];
        } else {
          FinishMoveTask(Aborted);
        }
      }
    }
  }
}
