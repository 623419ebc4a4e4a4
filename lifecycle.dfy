/**
 * The task as the engine drives it: the events that can reach a task (its
 * activation, the follower's completion callback, path events, the three
 * timers, pause, resume and an external end), when each can occur, and what
 * holds over any sequence of them.  The main results: a task broadcasts at
 * most once, and only when it has finished; a finished task holds no
 * observer, timer or path and nothing can reach it any more; under
 * continuous tracking each reached goal starts one more request and
 * broadcasts nothing.
 */
module Lifecycle {
  import opened MoveTypes
  import opened MoveTaskSpec
  import opened MoveTaskFacts

  /** What can happen to a task from the outside. */
  datatype Event =
    | Activated(found: Option<FollowerView>, postpone: bool, w: NavWorld)  // the task is activated
    | RequestFinished(id: RequestId, r: FollowingResult)   // the follower's OnRequestFinished broadcast
    | PathEventFired(inPath: Option<NavPath>, e: PathEvent, postpone: bool)  // an event of the observed path
    | PathChanged(now: NavPath)           // the engine updates the shared held path in place
    | FollowerChanged(view: FollowerView) // another party's request, or the follower itself, changes it
    | MoveRetryFired(postpone: bool, w: NavWorld)   // the MoveRetry timer: ConditionalPerformMove
    | PathRetryFired(postpone: bool)                // the PathRetry timer: ConditionalUpdatePath
    | NextTickFired(w: NavWorld)                    // the next-tick timer: PerformMove
    | Paused
    | Resumed(postpone: bool, w: NavWorld)
    | Ended                                         // EndTask from outside, e.g. by the owner

  /**
   * When the engine can deliver an event: activation once, callbacks only
   * while subscribed, timers only while armed, pause and resume in the
   * matching phase, an external end before the task has ended.  The path
   * the task holds is shared with the engine: a path event reports that
   * same path as it is now, and the engine may change it in place at any
   * time.  The follower is shared too: other requests may take it over
   * while the task runs.
   */
  predicate Enabled(s: TaskState, ev: Event) {
    match ev
    case Activated(_, _, _) =>
      s.phase == AwaitingActivation && (s.cfg.variant == AbilityTask ==> s.cfg.hasController)
    case RequestFinished(_, _) => s.handles.finish
    case PathEventFired(inPath, _, _) => s.handles.update && s.path.Some? && inPath == s.path
    case PathChanged(now) => s.path.Some? && now.id == s.path.value.id
    case FollowerChanged(_) => s.phase != Finished && s.follower.Some?
    case MoveRetryFired(_, _) => MoveRetry in s.timers.armed
    case PathRetryFired(_) => PathRetry in s.timers.armed
    case NextTickFired(_) => NextTick in s.timers.armed
    case Paused => s.phase == Active
    case Resumed(_, _) => s.phase == Phase.Paused
    case Ended => s.phase != Finished
  }

  /** A timer that fires is no longer armed. */
  function Fire(s: TaskState, k: TimerKind): (t: TaskState) {
    s.(timers := s.timers.(armed := s.timers.armed - {k}))
  }

  /** The task's reaction to an event. */
  function Step(s: TaskState, ev: Event): (t: TaskState)
    requires Enabled(s, ev)
  {
    match ev
    case Activated(found, postpone, w) => MoveTaskSpec.Activate(s, found, postpone, w)
    case RequestFinished(id, r) => OnRequestFinished(s, id, r)
    case PathEventFired(inPath, e, postpone) => OnPathEvent(s, inPath, e, postpone)
    case PathChanged(now) => s.(path := Some(now))
    case FollowerChanged(view) => s.(follower := Some(view))
    case MoveRetryFired(postpone, w) => ConditionalPerformMove(Fire(s, MoveRetry), postpone, w)
    case PathRetryFired(postpone) => ConditionalUpdatePath(Fire(s, PathRetry), postpone)
    case NextTickFired(w) => PerformMove(Fire(s, NextTick), w)
    case Paused => Pause(s)
    case Resumed(postpone, w) => Resume(s, postpone, w)
    case Ended => EndTask(s)
  }

  /** A run of events; an event that cannot occur in the state reached is not delivered. */
  function Run(s: TaskState, evs: seq<Event>): (t: TaskState)
    decreases |evs|
  {
    if evs == [] then s
    else if Enabled(s, evs[0]) then Run(Step(s, evs[0]), evs[1..])
    else Run(s, evs[1..])
  }

  /** Nothing observed, armed or held. */
  predicate TornDown(s: TaskState) {
    s.handles == Handles(false, false) && !s.timers.moveRetry && !s.timers.pathRetry
    && s.timers.armed == {} && s.path.None?
  }

  /** Activated and not yet ended. */
  predicate Live(s: TaskState) {
    s.phase == Active || s.phase == Phase.Paused
  }

  /**
   * What holds of every task the engine can produce: a task not yet
   * activated, or ended, is torn down; at most one broadcast, made only by a finished task, on the channel
   * of its stored result; timers and followers only with a controller; a
   * follower subscription only with a follower.
   */
  predicate Inv(s: TaskState) {
    && (!Live(s) ==> TornDown(s))
    && |s.notifications| <= 1
    && (|s.notifications| == 1 ==> s.phase == Finished && s.notifications[0] == NotificationFor(s.moveResult))
    && (s.timers.armed != {} ==> s.cfg.hasController)
    && (s.follower.Some? ==> s.cfg.hasController)
    && (s.handles.finish ==> s.follower.Some?)
  }

  /** Both factories produce tasks that satisfy the invariant. */
  lemma InitialInv(variant: Variant, hasController: bool, request: MoveRequestSpec, tracking: bool)
    ensures Inv(Initial(variant, hasController, request, tracking))
  {
  }

  /** FinishMoveTask on a live task: one broadcast, on the channel of the result, and a torn-down task. */
  lemma FinishKeepsInv(s: TaskState, r: FollowingResultCode)
    requires Inv(s) && Live(s)
    ensures var t := FinishMoveTask(s, r);
            Inv(t) && t.phase == Finished && t.notifications == [NotificationFor(r)]
  {
    FinishMoveTaskFacts(s, r);
  }

  lemma OnRequestFinishedKeepsInv(s: TaskState, id: RequestId, r: FollowingResult)
    requires Inv(s) && Live(s) && s.follower.Some?
    ensures Inv(OnRequestFinished(s, id, r))
  {
    OnRequestFinishedFacts(s, id, r);
    if id == s.moveRequestId && !AbortedByNewRequest(r.flags) && !TrackingLoops(s, r.code) {
      FinishKeepsInv(s.(moveRequestId := InvalidRequest), r.code);
    }
  }

  lemma PerformMoveKeepsInv(s: TaskState, w: NavWorld)
    requires Inv(s) && Live(s)
    ensures Inv(PerformMove(s, w))
  {
    if s.follower.None? {
      FinishKeepsInv(s, Invalid);
    } else {
      var s1 := ResetTimers(ResetObservers(s));
      var a := MoveTo(s1.cfg.request, s1.follower, w);
      var s2 := s1.(calls := s1.calls + a.calls, follower := a.follower);
      assert Inv(s2);
      match a.result.code
      case Failed =>
        FinishKeepsInv(s2, Invalid);
      case AlreadyAtGoal =>
        OnRequestFinishedKeepsInv(s2.(moveRequestId := a.result.moveId), a.result.moveId,
                                  FollowingResult(Success, {AlreadyAtGoalFlag}));
      case RequestSuccessful =>
        SetObservedPathFacts(s2.(moveRequestId := a.result.moveId, handles := s2.handles.(finish := true),
                                 calls := s2.calls + [AddFinishObserver]), a.path);
    }
  }

  lemma ConditionalPerformMoveKeepsInv(s: TaskState, postpone: bool, w: NavWorld)
    requires Inv(s) && Live(s)
    ensures Inv(ConditionalPerformMove(s, postpone, w))
  {
    if !Postponed(s, postpone) {
      PerformMoveKeepsInv(s.(timers := s.timers.(moveRetry := false)), w);
    }
  }

  lemma ConditionalUpdatePathKeepsInv(s: TaskState, postpone: bool)
    requires Inv(s) && Live(s)
    ensures Inv(ConditionalUpdatePath(s, postpone))
  {
    var s1 := MarkRepathWaiting(s);
    if !Postponed(s1, postpone) && !(s1.path.Some? && s1.path.value.hasNavData) {
      FinishKeepsInv(s1.(timers := s1.timers.(pathRetry := false)), Aborted);
    }
  }

  lemma OnPathEventKeepsInv(s: TaskState, inPath: Option<NavPath>, e: PathEvent, postpone: bool)
    requires Inv(s) && Live(s)
    ensures Inv(OnPathEvent(s, inPath, e, postpone))
  {
    if PathEventAborts(s.cfg.request, inPath, e) {
      FinishKeepsInv(s, Aborted);
    } else if e == Invalidated {
      ConditionalUpdatePathKeepsInv(s, postpone);
    }
  }

  /** Every event the engine can deliver keeps the invariant. */
  lemma StepKeepsInv(s: TaskState, ev: Event)
    requires Inv(s) && Enabled(s, ev)
    ensures Inv(Step(s, ev))
  {
    match ev
    case Activated(found, postpone, w) =>
      if s.cfg.hasController {
        ConditionalPerformMoveKeepsInv(s.(phase := Active, follower := found, moveRequestId := InvalidRequest),
                                       postpone, w);
      }
    case RequestFinished(id, r) =>
      OnRequestFinishedKeepsInv(s, id, r);
    case PathEventFired(inPath, e, postpone) =>
      OnPathEventKeepsInv(s, inPath, e, postpone);
    case MoveRetryFired(postpone, w) =>
      ConditionalPerformMoveKeepsInv(Fire(s, MoveRetry), postpone, w);
    case PathRetryFired(postpone) =>
      ConditionalUpdatePathKeepsInv(Fire(s, PathRetry), postpone);
    case NextTickFired(w) =>
      PerformMoveKeepsInv(Fire(s, NextTick), w);
    case PathChanged(_) =>
    case FollowerChanged(_) =>
    case Paused =>
    case Resumed(postpone, w) =>
      if !CanResume(s) {
        ConditionalPerformMoveKeepsInv(s.(phase := Active), postpone, w);
      }
    case Ended =>
  }

  /** Any run keeps the invariant. */
  lemma {:induction false} RunKeepsInv(s: TaskState, evs: seq<Event>)
    requires Inv(s)
    ensures Inv(Run(s, evs))
    decreases |evs|
  {
    if evs != [] {
      if Enabled(s, evs[0]) {
        StepKeepsInv(s, evs[0]);
        RunKeepsInv(Step(s, evs[0]), evs[1..]);
      } else {
        RunKeepsInv(s, evs[1..]);
      }
    }
  }

  /**
   * Whatever happens to a task made by either factory, it broadcasts at most
   * once, and only after it has finished, on the channel of its result.
   */
  lemma AtMostOneBroadcast(variant: Variant, hasController: bool, request: MoveRequestSpec, tracking: bool,
                           evs: seq<Event>)
    ensures var t := Run(Initial(variant, hasController, request, tracking), evs);
            |t.notifications| <= 1
            && (|t.notifications| == 1 ==> t.phase == Finished && t.notifications[0] == NotificationFor(t.moveResult))
  {
    InitialInv(variant, hasController, request, tracking);
    RunKeepsInv(Initial(variant, hasController, request, tracking), evs);
  }

  /** Nothing can reach a finished task: no callback, no timer, no pause, resume or second end. */
  lemma FinishedIsQuiet(s: TaskState, ev: Event)
    requires Inv(s) && s.phase == Finished
    ensures !Enabled(s, ev)
  {
  }

  /** Once finished, a task stays exactly as it is, whatever else is attempted. */
  lemma {:induction false} QuietAfterFinish(s: TaskState, evs: seq<Event>)
    requires Inv(s) && s.phase == Finished
    ensures Run(s, evs) == s
    decreases |evs|
  {
    if evs != [] {
      FinishedIsQuiet(s, evs[0]);
      QuietAfterFinish(s, evs[1..]);
    }
  }

  /** A broadcast is never withdrawn or followed by another: later runs keep the notifications as they are. */
  lemma BroadcastIsFinal(s: TaskState, evs: seq<Event>)
    requires Inv(s) && |s.notifications| == 1
    ensures Run(s, evs).notifications == s.notifications
  {
    QuietAfterFinish(s, evs);
  }

  /** After the broadcast, WasMoveSuccessful answers whether it was MoveFinished(Success). */
  lemma WasMoveSuccessfulMatchesBroadcast(s: TaskState)
    requires Inv(s) && |s.notifications| == 1
    ensures WasMoveSuccessful(s) <==> s.notifications == [MoveFinished(Success)]
    ensures s.notifications == [RequestFailed] <==> s.moveResult == Invalid
  {
  }

  /**
   * WasMovePartial reads the held path, which teardown drops before the
   * broadcast; so a finished task always answers false.
   */
  lemma WasMovePartialAfterFinish(s: TaskState)
    requires Inv(s) && s.phase == Finished
    ensures !WasMovePartial(s)
  {
  }

  /** Run is compositional: a run of a + b is the run of b from where a ended. */
  lemma {:induction false} RunAppend(s: TaskState, a: seq<Event>, b: seq<Event>)
    ensures Run(s, a + b) == Run(Run(s, a), b)
    decreases |a|
  {
    if a != [] {
      assert (a + b)[0] == a[0];
      assert (a + b)[1..] == a[1..] + b;
      if Enabled(s, a[0]) {
        RunAppend(Step(s, a[0]), a[1..], b);
      } else {
        RunAppend(s, a[1..], b);
      }
    } else {
      assert a + b == b;
    }
  }

  /**
   * A task following a goal actor continuously, with a request of the
   * follower in flight and no move waiting for the next tick.
   */
  predicate Tracking(s: TaskState) {
    Inv(s) && Live(s) && s.cfg.tracking && s.cfg.request.goalIsActor
    && s.handles.finish && s.moveRequestId.IsValid() && NextTick !in s.timers.armed
  }

  /** The answers of a world in which a new request for the goal is made. */
  predicate Requestable(request: MoveRequestSpec, w: NavWorld) {
    w.requestValid && CanRequestMove(request, w) && !w.reached && QueryBuilt(w)
    && w.foundPath.Some? && w.requestedId.IsValid()
  }

  /** One round of continuous tracking: the request in flight succeeds, then the next tick comes. */
  function TrackingRound(id: RequestId, w: NavWorld): (evs: seq<Event>) {
    [RequestFinished(id, FollowingResult(Success, {})), NextTickFired(w)]
  }

  /** The task a tracking round leaves to PerformMove: no id in flight, the next tick spent. */
  function BeforeNextMove(s: TaskState): (t: TaskState) {
    s.(moveRequestId := InvalidRequest)
  }

  /** A tracking round is OnRequestFinished arming the next tick, then PerformMove from that tick. */
  lemma TrackingRoundRun(s: TaskState, w: NavWorld)
    requires s.handles.finish && s.cfg.tracking && s.cfg.request.goalIsActor && NextTick !in s.timers.armed
    ensures Run(s, TrackingRound(s.moveRequestId, w)) == PerformMove(BeforeNextMove(s), w)
  {
    var evs := TrackingRound(s.moveRequestId, w);
    var r := FollowingResult(Success, {});
    var s1 := OnRequestFinished(s, s.moveRequestId, r);
    assert s1 == s.(moveRequestId := InvalidRequest, timers := s.timers.(armed := s.timers.armed + {NextTick}));
    assert Step(s, evs[0]) == s1;
    assert Fire(s1, NextTick) == BeforeNextMove(s);
    assert Run(s, evs) == Run(s1, evs[1..]);
    var rest := evs[1..];
    assert rest[0] == NextTickFired(w) && rest[1..] == [];
    assert Step(s1, rest[0]) == PerformMove(BeforeNextMove(s), w);
    assert Run(s1, rest) == Run(Step(s1, rest[0]), []);
  }

  /**
   * A reached goal under continuous tracking is not the end: the success is
   * not broadcast, and the next tick makes exactly one new request, whose id
   * the task then follows.
   */
  lemma TrackingRoundFacts(s: TaskState, w: NavWorld)
    requires Tracking(s) && Requestable(s.cfg.request, w)
    ensures var t := Run(s, TrackingRound(s.moveRequestId, w));
            && Tracking(t) && t.cfg == s.cfg && t.phase == s.phase
            && t.notifications == s.notifications
            && t.moveRequestId == w.requestedId && t.path == w.foundPath
            && CountRequestMoves(t.calls) == CountRequestMoves(s.calls) + 1
  {
    TrackingRoundRun(s, w);
    var s2 := BeforeNextMove(s);
    PerformMoveKeepsInv(s2, w);
    PerformMoveFacts(s2, w);
    PerformMoveRequestCount(s2, w);
  }

  /** The events of a sequence of tracking rounds, each following the id the previous one obtained. */
  function TrackingRounds(id: RequestId, ws: seq<NavWorld>): (evs: seq<Event>)
    decreases |ws|
  {
    if ws == [] then [] else TrackingRound(id, ws[0]) + TrackingRounds(ws[0].requestedId, ws[1..])
  }

  /**
   * Continuous tracking runs for as long as the goal keeps being reached and
   * a new request can be made: every round makes one request and nothing is
   * ever broadcast.
   */
  lemma {:induction false} TrackingNeverBroadcasts(s: TaskState, ws: seq<NavWorld>)
    requires Tracking(s)
    requires forall i :: 0 <= i < |ws| ==> Requestable(s.cfg.request, ws[i])
    ensures var t := Run(s, TrackingRounds(s.moveRequestId, ws));
            && Tracking(t) && t.phase == s.phase && t.notifications == s.notifications
            && CountRequestMoves(t.calls) == CountRequestMoves(s.calls) + |ws|
    decreases |ws|
  {
    if ws != [] {
      var first := TrackingRound(s.moveRequestId, ws[0]);
      RunAppend(s, first, TrackingRounds(ws[0].requestedId, ws[1..]));
      TrackingRoundFacts(s, ws[0]);
      var s1 := Run(s, first);
      TrackingNeverBroadcasts(s1, ws[1..]);
    }
  }

  /** A run of two events that can both occur is the two steps one after the other. */
  lemma RunPair(s: TaskState, e1: Event, e2: Event)
    requires Enabled(s, e1) && Enabled(Step(s, e1), e2)
    ensures Run(s, [e1, e2]) == Step(Step(s, e1), e2)
  {
    var evs := [e1, e2];
    assert evs[0] == e1 && evs[1..] == [e2];
    assert Run(s, evs) == Run(Step(s, e1), [e2]);
    var rest := [e2];
    assert rest[0] == e2 && rest[1..] == [];
    assert Run(Step(s, e1), rest) == Run(Step(Step(s, e1), e2), []);
  }

  /**
   * A path that the engine updates in place to a partial one is seen as such:
   * with partial paths allowed, the update event keeps the task going and
   * WasMovePartial then answers true.
   */
  lemma PartialUpdateIsVisible(s: TaskState, now: NavPath, postpone: bool)
    requires Inv(s) && Live(s) && s.handles.update && s.path.Some?
    requires now.id == s.path.value.id && now.partial && s.cfg.request.allowPartialPath
    ensures var t := Run(s, [PathChanged(now), PathEventFired(Some(now), UpdatedDueToNavigationChanged, postpone)]);
            WasMovePartial(t) && t.phase == s.phase && t.notifications == s.notifications
  {
    var s1 := s.(path := Some(now));
    assert Step(s, PathChanged(now)) == s1;
    RunPair(s, PathChanged(now), PathEventFired(Some(now), UpdatedDueToNavigationChanged, postpone));
  }

  /**
   * A path that has lost its navigation data by the time it is invalidated
   * cannot be repathed: unless the update is postponed, the task finishes
   * Aborted.
   */
  lemma LostNavigationDataAborts(s: TaskState, now: NavPath, postpone: bool)
    requires Inv(s) && Live(s) && s.handles.update && s.path.Some?
    requires now.id == s.path.value.id && !now.hasNavData && !Postponed(s, postpone)
    ensures var t := Run(s, [PathChanged(now), PathEventFired(Some(now), Invalidated, postpone)]);
            t.phase == Finished && t.moveResult == Aborted && t.notifications == s.notifications + [MoveFinished(Aborted)]
  {
    var s1 := s.(path := Some(now));
    assert Step(s, PathChanged(now)) == s1;
    RunPair(s, PathChanged(now), PathEventFired(Some(now), Invalidated, postpone));
    ConditionalUpdatePathFacts(s1, postpone);
  }

  /**
   * A paused task whose request another party has taken over the follower
   * with cannot resume it: Resume starts a new attempt instead.
   */
  lemma ResumeAfterTakeover(s: TaskState, view: FollowerView, postpone: bool, w: NavWorld)
    requires Inv(s) && s.phase == Phase.Paused && s.follower.Some?
    requires view.currentId != s.moveRequestId
    ensures Run(s, [FollowerChanged(view), Resumed(postpone, w)])
            == ConditionalPerformMove(s.(follower := Some(view), phase := Active), postpone, w)
  {
    var s1 := s.(follower := Some(view));
    assert Step(s, FollowerChanged(view)) == s1;
    RunPair(s, FollowerChanged(view), Resumed(postpone, w));
    ResumeFacts(s1, postpone, w);
  }
}
