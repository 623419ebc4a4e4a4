/**
 * Values shared by the move-task model: request tokens, follower results and
 * statuses, path events, timer kinds, the move request, the answers of the
 * navigation collaborators, and the outward effects the task records.
 */
module MoveTypes {

  datatype Option<T> = None | Some(value: T)

  /** Which of the two near-identical task classes is modelled. */
  datatype Variant =
    | ControllerTask   // UPlayerAITask_MoveTo, owned by the player controller
    | AbilityTask      // UGameplayPlayerAITask_MoveTo, owned by a gameplay ability

  /** The gameplay-task base state that the engine keeps for every task. */
  datatype Phase = AwaitingActivation | Active | Paused | Finished

  /** FAIRequestID: a path-follower request token with an "invalid" sentinel. */
  datatype RequestId = InvalidRequest | Request(id: nat) {
    predicate IsValid() { Request? }
  }

  /** FAIRequestID::IsEquivalent, without the engine's "any request" wildcard. */
  predicate IsEquivalent(a: RequestId, b: RequestId) {
    a.IsValid() && b.IsValid() && a == b
  }

  /** EPathFollowingResult: how a follower request ended. */
  datatype FollowingResultCode = Success | Blocked | OffPath | Aborted | Invalid

  /** The FPathFollowingResultFlags that the task inspects or passes on. */
  datatype ResultFlag = UserAbort | NewRequest | ForcedScript | OwnerFinished | AlreadyAtGoalFlag

  /** FPathFollowingResult: a result code with its flags. */
  datatype FollowingResult = FollowingResult(code: FollowingResultCode, flags: set<ResultFlag>)

  /** A follower abort caused by a newer request of another party, and not scripted. */
  predicate AbortedByNewRequest(flags: set<ResultFlag>) {
    UserAbort in flags && NewRequest in flags && ForcedScript !in flags
  }

  /** EPathFollowingStatus. */
  datatype FollowerStatus = Idle | Waiting | Paused | Moving

  /** What the task can observe of the path-following component it points to. */
  datatype FollowerView = FollowerView(status: FollowerStatus, currentId: RequestId)

  /** EPathFollowingRequestResult. */
  datatype RequestCode = Failed | AlreadyAtGoal | RequestSuccessful

  /** FPathFollowingRequestResult. */
  datatype RequestResult = RequestResult(code: RequestCode, moveId: RequestId)

  /**
   * A navigation path, by identity, with what the task reads of it: whether it
   * is partial and whether it knows the navigation data that produced it.
   */
  datatype NavPath = NavPath(id: nat, partial: bool, hasNavData: bool)

  /** ENavPathEvent. */
  datatype PathEvent =
    | Cleared | NewPath | UpdatedDueToGoalMoved | UpdatedDueToNavigationChanged
    | Invalidated | RePathFailed | MetaPathUpdate | Custom

  /** The three path-update events after which partial-ness is checked. */
  predicate IsPathUpdate(e: PathEvent) {
    e == NewPath || e == UpdatedDueToGoalMoved || e == UpdatedDueToNavigationChanged
  }

  /** The timers a task can have armed in the world's timer manager. */
  datatype TimerKind =
    | MoveRetry   // ConditionalPerformMove again after 0.2s
    | PathRetry   // ConditionalUpdatePath again after 0.2s
    | NextTick    // PerformMove on the next tick (continuous tracking)

  /** EAIOptionFlag: use the default, or force an option off or on. */
  datatype AIOption = Default | Disable | Enable

  /** FAISystem::PickAIOption: an explicit flag wins over the default. */
  function PickAIOption(option: AIOption, defaultValue: bool): (b: bool)
    ensures option == Enable ==> b
    ensures option == Disable ==> !b
    ensures option == Default ==> b == defaultValue
  {
    match option
    case Default => defaultValue
    case Disable => false
    case Enable => true
  }

  /** FAIMoveRequest, reduced to the policy bits the task consults. */
  datatype MoveRequestSpec = MoveRequestSpec(
    goalIsActor: bool,
    allowPartialPath: bool,
    usePathfinding: bool,
    projectGoal: bool)

  /**
   * The answers the navigation system, the goal and the follower give to one
   * move attempt (one call of MoveTo).
   */
  datatype NavWorld = NavWorld(
    requestValid: bool,       // FAIMoveRequest::IsValid: the goal actor still exists
    locationValid: bool,      // goal location has no NaN and is a valid location
    navSystemPresent: bool,   // a navigation system exists in the world
    projectionOk: bool,       // ProjectPointToNavigation succeeds
    reached: bool,            // the follower's HasReached for this request
    queryNavData: bool,       // navigation data is found for the pathfinding query
    foundPath: Option<NavPath>,  // FindPathSync produced a valid, successful path
    requestedId: RequestId,   // what the follower's RequestMove returns
    immediateId: RequestId)   // what RequestMoveWithImmediateFinish returns

  /** The two notification channels of the task. */
  datatype Notification =
    | RequestFailed                           // OnRequestFailed
    | MoveFinished(result: FollowingResultCode)  // OnMoveFinished

  /** The channel FinishMoveTask uses for a result. */
  function NotificationFor(r: FollowingResultCode): (n: Notification)
    ensures n.RequestFailed? <==> r == Invalid
    ensures n.MoveFinished? ==> n.result == r
  {
    if r == Invalid then RequestFailed else MoveFinished(r)
  }

  /** Calls the task makes on its collaborators, in the order it makes them. */
  datatype Call =
    | PathfindingQuery                            // a pathfinding query was built and run
    | RequestMoveCall(id: RequestId)              // follower RequestMove, with what it returned
    | ImmediateFinishCall(code: FollowingResultCode, id: RequestId)
    | AbortMoveCall(id: RequestId)
    | PauseMoveCall(id: RequestId)
    | ResumeMoveCall(id: RequestId)
    | AddFinishObserver                           // subscribe to the follower's OnRequestFinished
    | RemoveFinishObserver
    | AddPathObserver(pathId: nat)
    | RemovePathObserver(pathId: nat)
    | SetGoalActorObservation(pathId: nat)
    | DisableGoalActorObservation(pathId: nat)
    | EnableRecalculation(pathId: nat, on: bool)
    | SetManualRepathWaiting(pathId: nat)
    | RequestRePath(pathId: nat)

  /** Number of RequestMove calls in a call log. */
  function CountRequestMoves(calls: seq<Call>): (n: nat) {
    if calls == [] then 0
    else (if calls[0].RequestMoveCall? then 1 else 0) + CountRequestMoves(calls[1..])
  }

  lemma {:induction false} CountRequestMovesAppend(a: seq<Call>, b: seq<Call>)
    ensures CountRequestMoves(a + b) == CountRequestMoves(a) + CountRequestMoves(b)
  {
    if a == [] {
      assert a + b == b;
    } else {
      assert (a + b)[0] == a[0];
      assert (a + b)[1..] == a[1..] + b;
      CountRequestMovesAppend(a[1..], b);
    }
  }

  /** A log without a RequestMove call counts none. */
  lemma {:induction false} CountRequestMovesNone(calls: seq<Call>)
    requires forall i :: 0 <= i < |calls| ==> !calls[i].RequestMoveCall?
    ensures CountRequestMoves(calls) == 0
  {
    if calls != [] {
      CountRequestMovesNone(calls[1..]);
    }
  }
}
