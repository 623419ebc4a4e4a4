/**
 * What each transition of MoveTaskSpec does to the parts of the task it is
 * not named after: the calls it makes on the follower and the path, in
 * order, and the fields it leaves alone.  Kept apart from the transitions so
 * that proofs about the object only pay for these facts where they use them.
 */
module MoveTaskFacts {
  import opened MoveTypes
  import opened MoveTaskSpec

  /**
   * ResetObservers asks for at most three things: goal-actor observation off
   * first when a path is held, the follower subscription removed exactly when
   * it is held and the follower exists, the path observer removed exactly
   * when it is held and the path exists; it never aborts the follower.
   */
  lemma ObserverResetCallsShape(s: TaskState)
    ensures var cs := ObserverResetCalls(s);
            && (s.path.Some? ==> |cs| > 0 && cs[0] == DisableGoalActorObservation(s.path.value.id))
            && (RemoveFinishObserver in cs <==> s.handles.finish && s.follower.Some?)
            && (s.path.Some? ==> (RemovePathObserver(s.path.value.id) in cs <==> s.handles.update))
            && NoAbort(cs) && |cs| <= 3
  {
    var a := if s.path.Some? then [DisableGoalActorObservation(s.path.value.id)] else [];
    var b := if s.handles.finish && s.follower.Some? then [RemoveFinishObserver] else [];
    var c := if s.handles.update && s.path.Some? then [RemovePathObserver(s.path.value.id)] else [];
    assert ObserverResetCalls(s) == a + b + c;
    assert forall x :: x in a + b + c <==> x in a || x in b || x in c;
  }

  /** ResetObservers changes the two delegate handles and appends to the call log, nothing else. */
  lemma ResetObserversFrame(s: TaskState)
    ensures var t := ResetObservers(s);
            t.(handles := s.handles, calls := s.calls) == s && t.calls == s.calls + ObserverResetCalls(s)
  {
  }

  /** ResetTimers only invalidates the retry handles and drops armed timers. */
  lemma ResetTimersFrame(s: TaskState)
    ensures var t := ResetTimers(s);
            t.(timers := s.timers) == s && t.timers.armed <= s.timers.armed
            && (!s.cfg.hasController ==> t.timers.armed == s.timers.armed)
  {
  }

  /**
   * OnDestroy: in order, the observers are reset and then the follower is
   * told to abort only if it still runs a live request of ours; the id, the
   * result and the broadcasts stay as they were.
   */
  lemma OnDestroyFacts(s: TaskState)
    ensures var t := OnDestroy(s);
            && t.calls == s.calls + ObserverResetCalls(s)
                          + (if ShouldAbort(s) then [AbortMoveCall(s.moveRequestId)] else [])
            && t.timers.armed <= s.timers.armed
            && t.cfg == s.cfg && t.moveRequestId == s.moveRequestId && t.moveResult == s.moveResult
            && t.notifications == s.notifications && (t.follower.Some? <==> s.follower.Some?)
  {
    var s1 := ResetTimers(ResetObservers(s.(phase := Finished)));
    assert ShouldAbort(s1) == ShouldAbort(s);
    assert ObserverResetCalls(s.(phase := Finished)) == ObserverResetCalls(s);
  }

  /**
   * FinishMoveTask: a live request of ours is aborted first, after its
   * observers are detached; with none the follower is left alone.  A task
   * not yet ended is torn down: no observer, no retry handle, no path, and
   * no timer when the controller can reach the timer manager.
   */
  lemma FinishMoveTaskFacts(s: TaskState, r: FollowingResultCode)
    ensures var t := FinishMoveTask(s, r);
            && (ShouldAbort(s) ==> s.calls + ObserverResetCalls(s) + [AbortMoveCall(s.moveRequestId)] <= t.calls)
            && (!ShouldAbort(s) ==> t.calls == s.calls + (if s.phase != Finished then ObserverResetCalls(s) else []))
            && (s.phase != Finished ==>
                  t.handles == Handles(false, false) && !t.timers.moveRetry && !t.timers.pathRetry && t.path.None?
                  && (s.cfg.hasController ==> t.timers.armed == {}))
            && t.timers.armed <= s.timers.armed
            && t.cfg == s.cfg && t.moveRequestId == s.moveRequestId && (t.follower.Some? <==> s.follower.Some?)
  {
    var s1 := if ShouldAbort(s) then AbortMove(ResetObservers(s)) else s;
    var u := s1.(moveResult := r);
    if u.phase != Finished {
      OnDestroyFacts(u);
    }
    if ShouldAbort(s) {
      assert s1.calls == s.calls + ObserverResetCalls(s) + [AbortMoveCall(s.moveRequestId)];
    } else {
      assert ObserverResetCalls(u) == ObserverResetCalls(s);
    }
  }

  /**
   * MoveTo: the pathfinding query runs exactly when the request is valid, a
   * follower exists, the goal can be requested and is not yet reached, and
   * navigation data is found; RequestMove is asked at most once, exactly when
   * a path was found; a goal that must be projected and cannot be is a
   * failure.
   */
  lemma MoveToFacts(request: MoveRequestSpec, follower: Option<FollowerView>, w: NavWorld)
    ensures var a := MoveTo(request, follower, w);
            && (PathfindingQuery in a.calls <==>
                  w.requestValid && follower.Some? && CanRequestMove(request, w) && !w.reached && QueryBuilt(w))
            && (CountRequestMoves(a.calls) == 1 <==>
                  w.requestValid && follower.Some? && CanRequestMove(request, w) && !w.reached && QueryBuilt(w)
                  && w.foundPath.Some?)
            && CountRequestMoves(a.calls) <= 1
            && (!request.goalIsActor && request.projectGoal && w.navSystemPresent && !w.projectionOk ==>
                  a.result.code == Failed)
  {
    var a := MoveTo(request, follower, w);
    if w.requestValid && follower.Some? && !(CanRequestMove(request, w) && w.reached) {
      var searched := CanRequestMove(request, w) && QueryBuilt(w);
      var search := if searched then SearchCalls(request, w) else [];
      var tail := if searched && w.foundPath.Some? && w.requestedId.IsValid() then []
                  else [ImmediateFinishCall(Invalid, w.immediateId)];
      assert a.calls == search + tail;
      CountRequestMovesAppend(search, tail);
      assert CountRequestMoves(tail) == 0 by {
        if tail != [] {
          assert tail[1..] == [];
        }
      }
      if searched {
        var found := match w.foundPath
          case None => []
          case Some(p) =>
            (if request.goalIsActor then [SetGoalActorObservation(p.id)] else [])
            + [EnableRecalculation(p.id, true), RequestMoveCall(w.requestedId)];
        assert search == [PathfindingQuery] + found;
        CountRequestMovesAppend([PathfindingQuery], found);
        assert CountRequestMoves([PathfindingQuery]) == 0 by {
          assert [PathfindingQuery][1..] == [];
        }
        if w.foundPath.Some? {
          var p := w.foundPath.value;
          var observe := if request.goalIsActor then [SetGoalActorObservation(p.id)] else [];
          var rest := [EnableRecalculation(p.id, true), RequestMoveCall(w.requestedId)];
          assert found == observe + rest;
          CountRequestMovesAppend(observe, rest);
          assert CountRequestMoves(observe) == 0 by {
            if observe != [] {
              assert observe[1..] == [];
            }
          }
          assert rest[1..][1..] == [];
        }
        assert PathfindingQuery == search[0];
      } else {
        assert PathfindingQuery !in tail;
      }
    } else if w.requestValid && follower.Some? {
      assert a.calls[1..] == [];
    }
  }

  /**
   * OnRequestFinished: a stale callback, or our request aborted by a newer
   * request of another party, changes nothing; otherwise the id is forgotten
   * and either the next move is armed for the next tick (continuous tracking
   * of an actor that was reached) or the task finishes with the follower's
   * result, on exactly one channel.
   */
  lemma OnRequestFinishedFacts(s: TaskState, id: RequestId, r: FollowingResult)
    ensures var t := OnRequestFinished(s, id, r);
            && (id != s.moveRequestId || AbortedByNewRequest(r.flags) ==> t == s)
            && (id == s.moveRequestId && !AbortedByNewRequest(r.flags) ==> t.moveRequestId == InvalidRequest)
            && (id == s.moveRequestId && !AbortedByNewRequest(r.flags) && TrackingLoops(s, r.code) ==>
                  t == s.(moveRequestId := InvalidRequest,
                          timers := s.timers.(armed := s.timers.armed + {NextTick})))
            && (id == s.moveRequestId && !AbortedByNewRequest(r.flags) && !TrackingLoops(s, r.code) ==>
                  t.notifications == s.notifications + [NotificationFor(r.code)]
                  && t.phase == Finished && t.moveResult == r.code)
            && s.calls <= t.calls
  {
    if id == s.moveRequestId && !AbortedByNewRequest(r.flags) && !TrackingLoops(s, r.code) {
      FinishMoveTaskFacts(s.(moveRequestId := InvalidRequest), r.code);
    }
  }

  /**
   * SetObservedPath: the observer on the old path, if any, is removed; a new
   * path gets recalculation switched off and then exactly one observer of
   * ours.  Nothing but the path, the path handle and the call log changes.
   */
  lemma SetObservedPathFacts(s: TaskState, p: Option<NavPath>)
    ensures var t := SetObservedPath(s, p);
            && t.calls == s.calls
                          + (if s.handles.update && s.path.Some? then [RemovePathObserver(s.path.value.id)] else [])
                          + (if p.Some? then [EnableRecalculation(p.value.id, false), AddPathObserver(p.value.id)]
                             else [])
            && t == s.(path := p, handles := s.handles.(update := p.Some?), calls := t.calls)
  {
  }

  /**
   * PerformMove: without a follower the task fails at once; with one, the
   * observers of the previous attempt are detached before anything else is
   * asked, and then the outcome of MoveTo decides: a failure broadcasts
   * RequestFailed, a request holds the new id, both subscriptions and the
   * path, and "already at goal" either finishes with Success or, under
   * continuous tracking of an actor, arms the next tick.
   */
  lemma PerformMoveFacts(s: TaskState, w: NavWorld)
    ensures var t := PerformMove(s, w);
            var a := MoveTo(s.cfg.request, s.follower, w);
            && (s.follower.None? ==> t == FinishMoveTask(s, Invalid))
            && (s.follower.Some? ==> s.calls + ObserverResetCalls(s) <= t.calls)
            && (a.result.code == Failed ==>
                  t.notifications == s.notifications + [RequestFailed] && t.phase == Finished && t.moveResult == Invalid)
            && (a.result.code == RequestSuccessful ==>
                  t.moveRequestId == a.result.moveId && t.moveRequestId.IsValid()
                  && t.handles == Handles(true, true) && t.path == a.path
                  && t.notifications == s.notifications && t.phase == s.phase
                  && !t.timers.moveRetry && !t.timers.pathRetry && t.timers.armed <= s.timers.armed
                  && (s.cfg.hasController ==> t.timers.armed == {}))
            && (a.result.code == AlreadyAtGoal && TrackingLoops(s, Success) ==>
                  t.moveRequestId == InvalidRequest && NextTick in t.timers.armed
                  && t.timers.armed <= s.timers.armed + {NextTick}
                  && (s.cfg.hasController ==> t.timers.armed == {NextTick})
                  && t.notifications == s.notifications && t.phase == s.phase && t.handles == Handles(false, false))
            && (a.result.code == AlreadyAtGoal && !TrackingLoops(s, Success) ==>
                  t.notifications == s.notifications + [MoveFinished(Success)] && t.phase == Finished
                  && t.moveResult == Success)
  {
    if s.follower.Some? {
      var s1 := ResetTimers(ResetObservers(s));
      var a := MoveTo(s1.cfg.request, s1.follower, w);
      var s2 := s1.(calls := s1.calls + a.calls, follower := a.follower);
      assert s1.calls == s.calls + ObserverResetCalls(s);
      match a.result.code
      case Failed =>
        FinishMoveTaskFacts(s2, Invalid);
      case AlreadyAtGoal =>
        var s3 := s2.(moveRequestId := a.result.moveId);
        OnRequestFinishedFacts(s3, a.result.moveId, FollowingResult(Success, {AlreadyAtGoalFlag}));
      case RequestSuccessful =>
        var s3 := s2.(moveRequestId := a.result.moveId, handles := s2.handles.(finish := true),
                      calls := s2.calls + [AddFinishObserver]);
        SetObservedPathFacts(s3, a.path);
    }
  }

  /**
   * A PerformMove that reaches the follower with a request records exactly
   * one RequestMove: detaching the old observers and attaching the new ones
   * make none.
   */
  lemma PerformMoveRequestCount(s: TaskState, w: NavWorld)
    requires s.follower.Some? && MoveTo(s.cfg.request, s.follower, w).result.code == RequestSuccessful
    ensures CountRequestMoves(PerformMove(s, w).calls) == CountRequestMoves(s.calls) + 1
  {
    var s1 := ResetTimers(ResetObservers(s));
    var a := MoveTo(s1.cfg.request, s1.follower, w);
    MoveToFacts(s1.cfg.request, s1.follower, w);
    var p := a.path.value;
    var tail := [AddFinishObserver, EnableRecalculation(p.id, false), AddPathObserver(p.id)];
    var reset := ObserverResetCalls(s);
    assert PerformMove(s, w).calls == s.calls + reset + a.calls + tail;
    CountRequestMovesAppend(s.calls + reset + a.calls, tail);
    CountRequestMovesAppend(s.calls + reset, a.calls);
    CountRequestMovesAppend(s.calls, reset);
    CountRequestMovesNone(tail);
    ObserverResetCallsShape(s);
    CountRequestMovesNone(reset);
  }

  /** ConditionalPerformMove: postponed, only the MoveRetry timer is armed; otherwise the attempt starts. */
  lemma ConditionalPerformMoveFacts(s: TaskState, postpone: bool, w: NavWorld)
    ensures var t := ConditionalPerformMove(s, postpone, w);
            && (Postponed(s, postpone) ==>
                  t == s.(timers := s.timers.(moveRetry := true, armed := s.timers.armed + {MoveRetry})))
            && (!Postponed(s, postpone) ==> t == PerformMove(s.(timers := s.timers.(moveRetry := false)), w))
  {
  }

  /**
   * Activate: the controller task without a controller only becomes active;
   * otherwise the found follower is taken, the id cleared and the move
   * attempted.
   */
  lemma ActivateFacts(s: TaskState, found: Option<FollowerView>, postpone: bool, w: NavWorld)
    requires s.cfg.variant == AbilityTask ==> s.cfg.hasController
    ensures var t := Activate(s, found, postpone, w);
            && (!s.cfg.hasController ==> t == s.(phase := Active))
            && (s.cfg.hasController ==>
                  t == ConditionalPerformMove(s.(phase := Active, follower := found, moveRequestId := InvalidRequest),
                                              postpone, w))
  {
  }

  /**
   * ConditionalUpdatePath: the held path is first marked as waiting; then
   * either only the PathRetry timer is armed, or the path's navigation data
   * is asked to repath it, or, with none, the task aborts.
   */
  lemma ConditionalUpdatePathFacts(s: TaskState, postpone: bool)
    ensures var t := ConditionalUpdatePath(s, postpone);
            && (s.path.Some? ==> s.calls + [SetManualRepathWaiting(s.path.value.id)] <= t.calls)
            && (Postponed(s, postpone) ==>
                  t == MarkRepathWaiting(s).(timers := s.timers.(pathRetry := true,
                                                                 armed := s.timers.armed + {PathRetry})))
            && (!Postponed(s, postpone) && s.path.Some? && s.path.value.hasNavData ==>
                  t == s.(timers := s.timers.(pathRetry := false),
                          calls := s.calls + [SetManualRepathWaiting(s.path.value.id), RequestRePath(s.path.value.id)]))
            && (!Postponed(s, postpone) && !(s.path.Some? && s.path.value.hasNavData) ==>
                  t.phase == Finished && t.moveResult == Aborted
                  && t.notifications == s.notifications + [MoveFinished(Aborted)])
  {
    var s1 := MarkRepathWaiting(s);
    if !Postponed(s, postpone) && !(s.path.Some? && s.path.value.hasNavData) {
      FinishMoveTaskFacts(s1.(timers := s1.timers.(pathRetry := false)), Aborted);
    }
  }

  /**
   * OnPathEvent: a disallowed partial path after an update, a cleared path or
   * a failed repath aborts the task; an invalidated path is updated; any
   * other event changes nothing.
   */
  lemma OnPathEventFacts(s: TaskState, inPath: Option<NavPath>, e: PathEvent, postpone: bool)
    ensures var t := OnPathEvent(s, inPath, e, postpone);
            && (PathEventAborts(s.cfg.request, inPath, e) ==>
                  t == FinishMoveTask(s, Aborted) && t.notifications == s.notifications + [MoveFinished(Aborted)])
            && (e == Invalidated ==> t == ConditionalUpdatePath(s, postpone))
            && (e != Invalidated && !PathEventAborts(s.cfg.request, inPath, e) ==> t == s)
  {
  }

  /** Pause: a live request of ours is paused on the follower; only the phase, the timers and the log change. */
  lemma PauseFacts(s: TaskState)
    ensures var t := Pause(s);
            && t.calls == s.calls + (if s.follower.Some? && s.moveRequestId.IsValid()
                                     then [PauseMoveCall(s.moveRequestId)] else [])
            && t == s.(phase := Phase.Paused, timers := t.timers, calls := t.calls)
            && t.timers.armed <= s.timers.armed
  {
  }

  /**
   * Resume: the follower's current request of ours is resumed and nothing
   * else happens; otherwise the move is attempted afresh.
   */
  lemma ResumeFacts(s: TaskState, postpone: bool, w: NavWorld)
    ensures var t := Resume(s, postpone, w);
            && (CanResume(s) ==> t == s.(phase := Active, calls := s.calls + [ResumeMoveCall(s.moveRequestId)]))
            && (!CanResume(s) ==> t == ConditionalPerformMove(s.(phase := Active), postpone, w))
  {
  }
}
