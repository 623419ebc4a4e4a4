# PlayerMoveTo move task, modelled in Dafny

The PlayerMoveTo plugin moves a player-controlled pawn with the AI
path-following machinery. It does this through a gameplay task, which exists
in two near-identical classes:

- `UPlayerAITask_MoveTo`, owned by the player controller;
- `UGameplayPlayerAITask_MoveTo`, an ability task.

A task:

- validates and, if asked, projects its goal;
- asks for a path and hands it to the path-following component (the
  "follower");
- observes the follower's completion callback and the path's events;
- retries on 0.2 s timers while the controller asks to postpone path updates;
- under continuous goal tracking, starts over on the next tick after every
  successful arrival at an actor goal;
- finishes by broadcasting on one of two channels: `OnRequestFailed` for an
  Invalid result, `OnMoveFinished` for any other.

The model has four layers:

- **`MoveTypes`** (`types.dfy`) holds the values the task handles:
  - request ids with their invalid sentinel;
  - follower results, flags and statuses;
  - path events and timer kinds;
  - the request bits the task consults;
  - the answers of the navigation collaborators for one move attempt
    (`NavWorld`);
  - the outward effects the task records: notifications and calls on the
    follower and the path.
- **`MoveTaskSpec`** (`move_spec.dfy`) gives the task's fields as one value
  `TaskState`, and one pure transition per entry point. Each transition
  follows the C++ method statement by statement.
- **`MoveTaskModel`** (`move_task.dfy`) is the task as an object.
  - Class `MoveTask` has one field per C++ field. Its methods update them in
    place, in the order of the C++.
  - Every method is proved to leave the fields as the transition of the same
    name says.
  - The two classes are one model. `variant` records the two places where
    they differ:
    - the controller factory refuses a missing controller, or one that cannot
      own gameplay tasks;
    - the controller task's `Activate` checks for a controller, while the
      ability task's dereferences it unguarded.
- **`MoveTaskFacts`** (`move_facts.dfy`) states, per transition:
  - the calls it makes and their order;
  - the fields it leaves alone;
  - its outcome in every branch.
- **`Lifecycle`** (`lifecycle.dfy`) closes the system over every event the
  engine can deliver: activation, the follower's callback, path events, the
  three timers, pause, resume, an external end, and the engine's in-place
  changes to the shared path and follower. It proves:
  - an invariant of every reachable task;
  - a task broadcasts at most once, and only once it has finished;
  - a finished task holds no observer, timer or path, and nothing reaches it
    again;
  - under continuous tracking, each reached goal makes exactly one new
    request and broadcasts nothing.

One consequence the proofs make visible: `WasMovePartial` reads the held
path. `FinishMoveTask` ends the task, which releases the path, before it
broadcasts. So a listener that asks `WasMovePartial` from its `OnMoveFinished`
handler, or at any time later, always gets false
(`Lifecycle.WasMovePartialAfterFinish`).

Behaviour of the code worth knowing:

- `FinishMoveTask` broadcasts `OnMoveFinished` for every result except
  Invalid, Blocked and OffPath included
  (`Source/PlayerMoveTo/Private/PlayerAITask_MoveTo.cpp:153-160`). Follower
  failures are not sent on the failure channel.
- `OnMoveFinished` carries the result and the controller
  (`Source/PlayerMoveTo/Private/PlayerAITask_MoveTo.cpp:159`), not the path's
  partial-ness.
- `OnDestroy` resets the observers before the timers, then aborts the
  follower, then releases the path
  (`Source/PlayerMoveTo/Private/PlayerAITask_MoveTo.cpp:515-528`).
- Finish callbacks are matched by raw id equality
  (`Source/PlayerMoveTo/Private/PlayerAITask_MoveTo.cpp:533`). Two invalid ids
  therefore match. The model keeps this.
- The held path is an object the engine shares with the task and updates in
  place. Its partial flag and its navigation data are read live
  (`Source/PlayerMoveTo/Private/PlayerAITask_MoveTo.cpp:620`). `Lifecycle`
  models such an update as the event `PathChanged`. Every path event then
  carries the held path itself.
- The follower is shared too: another party's request, or the follower
  itself, can change its status and its current request. `Lifecycle` models
  this as the event `FollowerChanged`.

## Model

| member | source | states |
|---|---|---|
| MoveTypes.PickAIOption | Source/PlayerMoveTo/Private/PlayerAITask_MoveTo.cpp:84-87 | an explicit Enable or Disable flag wins; Default keeps the request's default |
| MoveTypes.NotificationFor | Source/PlayerMoveTo/Private/PlayerAITask_MoveTo.cpp:153-160 | the failure channel is used exactly for Invalid; every other result goes out on OnMoveFinished carrying that result |
| MoveTaskSpec.Initial | Source/PlayerMoveTo/Private/PlayerAITask_MoveTo.cpp:20-36 | a new task has result Invalid, no request id, no path, nothing armed and nothing broadcast |
| MoveTaskSpec.BuildRequest | Source/PlayerMoveTo/Private/PlayerAITask_MoveTo.cpp:73-87 | the factory's request targets the actor if one is given; partial paths and goal projection are forced on or off by their option, or else keep the defaults of a fresh request |
| MoveTaskSpec.ResetObservers | Source/PlayerMoveTo/Private/PlayerAITask_MoveTo.cpp:472-498 | both delegate handles end up reset |
| MoveTaskSpec.ResetTimers | Source/PlayerMoveTo/Private/PlayerAITask_MoveTo.cpp:500-509 | both retry handles end up invalid; with a controller, no timer of the task stays armed, next-tick ones included |
| MoveTaskSpec.OnDestroy | Source/PlayerMoveTo/Private/PlayerAITask_MoveTo.cpp:511-529 | after teardown the task is ended, holds no path and no observer, has no retry handle, and with a controller has no armed timer |
| MoveTaskSpec.EndTask | Source/PlayerMoveTo/Private/PlayerAITask_MoveTo.cpp:152 | ending leaves the task finished. A task already finished is left exactly as it is; any other is torn down exactly as OnDestroy says |
| MoveTaskSpec.FinishMoveTask | Source/PlayerMoveTo/Private/PlayerAITask_MoveTo.cpp:140-162 | the result is stored, the task is finished, and exactly one notification is appended, on the channel of the result |
| MoveTaskSpec.MoveTo | Source/PlayerMoveTo/Private/PlayerAITask_MoveTo.cpp:237-336 | an invalid request or a missing follower fails with the invalid id, with no call and with the follower untouched. AlreadyAtGoal holds exactly when the request can be made and the goal is reached, and it comes with an immediate Success finish and no path. RequestSuccessful holds exactly when every step succeeds, and it carries the follower's new valid id and the found path. Any other failure ends in an immediate Invalid finish |
| MoveTaskSpec.SetObservedPath | Source/PlayerMoveTo/Private/PlayerAITask_MoveTo.cpp:454-470 | the new path is held, and a path observer handle is held exactly when there is a path |
| MoveTaskSpec.Pause | Source/PlayerMoveTo/Private/PlayerAITask_MoveTo.cpp:422-431 | the task is paused, both retry handles are invalid, and with a controller no timer is armed |
| MoveTaskSpec.AbortMove | Source/PlayerMoveTo/Private/PlayerAITask_MoveTo.cpp:147 | the follower keeps its current request, and it ends up idle exactly when it was idle or that request was ours. Where the abort falls among the other calls is in MoveTaskFacts.FinishMoveTaskFacts and MoveTaskFacts.OnDestroyFacts |
| MoveTaskSpec.OnRequestFinished | Source/PlayerMoveTo/Private/PlayerAITask_MoveTo.cpp:531-559 | a callback for another id changes nothing; otherwise the task keeps its phase or finishes. The branches are in MoveTaskFacts.OnRequestFinishedFacts |
| MoveTaskSpec.PerformMove | Source/PlayerMoveTo/Private/PlayerAITask_MoveTo.cpp:194-235 | without a follower the task finishes and broadcasts RequestFailed; otherwise it keeps its phase or finishes. The branches are in MoveTaskFacts.PerformMoveFacts |
| MoveTaskSpec.ConditionalPerformMove | Source/PlayerMoveTo/Private/PlayerAITask_MoveTo.cpp:180-192 | when postponed, the MoveRetry timer is armed and nothing is called; the task keeps its phase or finishes. The rest is in MoveTaskFacts.ConditionalPerformMoveFacts |
| MoveTaskSpec.Activate | Source/PlayerMoveTo/Private/PlayerAITask_MoveTo.cpp:164-178 | activation leaves the task active, or already finished by its first attempt. The branches are in MoveTaskFacts.ActivateFacts |
| MoveTaskSpec.ConditionalUpdatePath | Source/PlayerMoveTo/Private/PlayerAITask_MoveTo.cpp:601-631 | when postponed, the PathRetry timer is armed and the phase is kept; otherwise the task keeps its phase or finishes. The rest is in MoveTaskFacts.ConditionalUpdatePathFacts |
| MoveTaskSpec.OnPathEvent | Source/PlayerMoveTo/Private/PlayerAITask_MoveTo.cpp:561-599 | a disallowed partial path after an update, or a cleared path, finishes the task Aborted; any event keeps the phase or finishes. The rest is in MoveTaskFacts.OnPathEventFacts |
| MoveTaskSpec.Resume | Source/PlayerMoveTo/Private/PlayerAITask_MoveTo.cpp:433-442 | a request the follower still runs is resumed, and the task is active with the same id; in every case the task ends up active or finished. The rest is in MoveTaskFacts.ResumeFacts |
| MoveTaskModel.MoveTask.constructor | Source/PlayerMoveTo/Private/PlayerAITask_MoveTo.cpp:20-36 | a new object has no controller, the configured partial-path default, pathfinding on, tracking off, no id and result Invalid |
| MoveTaskModel.MoveTask.SetUp | Source/PlayerMoveTo/Private/PlayerAITask_MoveTo.cpp:106-110 | only the controller and the request change |
| MoveTaskModel.MoveTask.SetContinuousGoalTracking | Source/PlayerMoveTo/Private/PlayerAITask_MoveTo.cpp:135-138 | only the tracking flag changes |
| MoveTaskModel.MoveTask.PlayerAIMoveTo | Source/PlayerMoveTo/Private/PlayerAITask_MoveTo.cpp:38-98 | there is no task exactly when the controller is missing or cannot own gameplay tasks; otherwise a fresh controller task with the built request and tracking flag, awaiting activation |
| MoveTaskModel.MoveTask.GameplayPlayerAIMoveTo | Source/PlayerMoveTo/Private/GameplayPlayerAITask_MoveTo.cpp:34-68 | always a fresh ability task, set up with the given controller, the built request and the tracking flag |
| MoveTaskModel.MoveTask.GetMoveResult | Source/PlayerMoveTo/Public/GameplayPlayerAITask_MoveTo.h:36 | the stored result of the task's state |
| MoveTaskModel.MoveTask.WasMoveSuccessful | Source/PlayerMoveTo/Public/GameplayPlayerAITask_MoveTo.h:37 | agrees with the state's success test (stored result is Success) |
| MoveTaskModel.MoveTask.WasMovePartial | Source/PlayerMoveTo/Public/GameplayPlayerAITask_MoveTo.h:38 | agrees with the state's partial test: the held path, as the engine last updated it, is partial (see Lifecycle.PartialUpdateIsVisible) |
| MoveTaskModel.MoveTask.AbortMove | Source/PlayerMoveTo/Private/PlayerAITask_MoveTo.cpp:147 | the follower is told to abort our request, and it goes idle if that was its current request |
| MoveTaskModel.MoveTask.ResetObservers | Source/PlayerMoveTo/Private/PlayerAITask_MoveTo.cpp:472-498 | the fields change exactly as MoveTaskSpec.ResetObservers says |
| MoveTaskModel.MoveTask.ResetTimers | Source/PlayerMoveTo/Private/PlayerAITask_MoveTo.cpp:500-509 | the fields change exactly as MoveTaskSpec.ResetTimers says |
| MoveTaskModel.MoveTask.OnDestroy | Source/PlayerMoveTo/Private/PlayerAITask_MoveTo.cpp:511-529 | the fields change exactly as MoveTaskSpec.OnDestroy says |
| MoveTaskModel.MoveTask.EndTask | Source/PlayerMoveTo/Private/PlayerAITask_MoveTo.cpp:152 | the fields change exactly as MoveTaskSpec.EndTask says |
| MoveTaskModel.MoveTask.FinishMoveTask | Source/PlayerMoveTo/Private/PlayerAITask_MoveTo.cpp:140-162 | the fields change exactly as MoveTaskSpec.FinishMoveTask says |
| MoveTaskModel.MoveTask.Activate | Source/PlayerMoveTo/Private/PlayerAITask_MoveTo.cpp:164-178 | the fields change exactly as the Activate transition says; the ability variant (Source/PlayerMoveTo/Private/GameplayPlayerAITask_MoveTo.cpp:134-145) requires a controller |
| MoveTaskModel.MoveTask.ConditionalPerformMove | Source/PlayerMoveTo/Private/PlayerAITask_MoveTo.cpp:180-192 | the fields change exactly as the ConditionalPerformMove transition says |
| MoveTaskModel.MoveTask.PerformMove | Source/PlayerMoveTo/Private/PlayerAITask_MoveTo.cpp:194-235 | the fields change exactly as the PerformMove transition says |
| MoveTaskModel.MoveTask.MoveTo | Source/PlayerMoveTo/Private/PlayerAITask_MoveTo.cpp:237-336 | returns the result and path of MoveTaskSpec.MoveTo, and changes only the follower and the call log, as that function says |
| MoveTaskModel.MoveTask.BuildPathfindingQuery | Source/PlayerMoveTo/Private/PlayerAITask_MoveTo.cpp:338-388 | succeeds exactly when navigation data is found for the query, and records the query only then |
| MoveTaskModel.MoveTask.FindPathForMoveRequest | Source/PlayerMoveTo/Private/PlayerAITask_MoveTo.cpp:390-420 | returns the path the navigation system finds, and none without a navigation system. On a found path, an actor goal is observed and recalculation is enabled before it is returned |
| MoveTaskModel.MoveTask.OnRequestFinished | Source/PlayerMoveTo/Private/PlayerAITask_MoveTo.cpp:531-559 | the fields change exactly as the OnRequestFinished transition says |
| MoveTaskModel.MoveTask.SetObservedPath | Source/PlayerMoveTo/Private/PlayerAITask_MoveTo.cpp:454-470 | the fields change exactly as MoveTaskSpec.SetObservedPath says |
| MoveTaskModel.MoveTask.Pause | Source/PlayerMoveTo/Private/PlayerAITask_MoveTo.cpp:422-431 | the fields change exactly as MoveTaskSpec.Pause says |
| MoveTaskModel.MoveTask.Resume | Source/PlayerMoveTo/Private/PlayerAITask_MoveTo.cpp:433-442 | the fields change exactly as the Resume transition says |
| MoveTaskModel.MoveTask.ResumeMove | Source/PlayerMoveTo/Private/PlayerAITask_MoveTo.cpp:444-452 | succeeds exactly when the follower's current request is equivalent to the given one, and only then asks the follower to resume it |
| MoveTaskModel.MoveTask.OnPathEvent | Source/PlayerMoveTo/Private/PlayerAITask_MoveTo.cpp:561-599 | the fields change exactly as the OnPathEvent transition says, on the held path as the engine last updated it |
| MoveTaskModel.MoveTask.ConditionalUpdatePath | Source/PlayerMoveTo/Private/PlayerAITask_MoveTo.cpp:601-631 | the fields change exactly as the ConditionalUpdatePath transition says; the navigation data it tests is that of the held path as the engine last updated it (see Lifecycle.LostNavigationDataAborts) |
| MoveTaskFacts.ObserverResetCallsShape | Source/PlayerMoveTo/Private/GameplayPlayerAITask_MoveTo.cpp:439-465 | goal-actor observation is disabled first on a held path. The follower subscription is removed exactly when it is held and the follower exists, and the path observer exactly when it is held and a path exists. Nothing is aborted |
| MoveTaskFacts.ResetObserversFrame | Source/PlayerMoveTo/Private/GameplayPlayerAITask_MoveTo.cpp:439-465 | only the two delegate handles and the call log change |
| MoveTaskFacts.ResetTimersFrame | Source/PlayerMoveTo/Private/GameplayPlayerAITask_MoveTo.cpp:467-476 | only the timers change, and armed timers are only removed; without a controller nothing is cleared |
| MoveTaskFacts.OnDestroyFacts | Source/PlayerMoveTo/Private/GameplayPlayerAITask_MoveTo.cpp:478-496 | observers are detached first; the follower is aborted only while it runs a live request of ours. Id, result, configuration and broadcasts are kept |
| MoveTaskFacts.FinishMoveTaskFacts | Source/PlayerMoveTo/Private/PlayerAITask_MoveTo.cpp:140-162 | a live request is aborted right after its observers are detached; otherwise the follower is not touched. A task not yet ended is torn down completely. The id and configuration are kept |
| MoveTaskFacts.MoveToFacts | Source/PlayerMoveTo/Private/PlayerAITask_MoveTo.cpp:237-336 | the pathfinding query runs exactly when a valid request with a follower is neither rejected nor already at the goal and navigation data is found. RequestMove is asked at most once, exactly when a path is found. A goal that cannot be projected always fails, whatever the pathfinding flag |
| MoveTaskFacts.OnRequestFinishedFacts | Source/PlayerMoveTo/Private/PlayerAITask_MoveTo.cpp:531-559 | a stale id, or an abort by a newer non-scripted request, leaves the task unchanged. Any other matching callback clears the id. Under tracking of an actor after Success it only arms the next tick; otherwise it finishes with the callback's code, broadcasting once |
| MoveTaskFacts.SetObservedPathFacts | Source/PlayerMoveTo/Private/GameplayPlayerAITask_MoveTo.cpp:421-437 | the old observer is removed before the path is replaced; then recalculation is disabled and exactly one observer is added on the new path; nothing else changes |
| MoveTaskFacts.PerformMoveFacts | Source/PlayerMoveTo/Private/GameplayPlayerAITask_MoveTo.cpp:161-202 | no follower: finish Invalid. Otherwise the observers are detached before MoveTo is asked anything. Failed: broadcast RequestFailed. RequestSuccessful: hold the new id, both subscriptions and the path. AlreadyAtGoal: finish with Success, or under tracking arm the next tick. With a controller, the timers are cleared first, so afterwards nothing is armed on RequestSuccessful and only the next tick is armed under tracking |
| MoveTaskFacts.PerformMoveRequestCount | Source/PlayerMoveTo/Private/GameplayPlayerAITask_MoveTo.cpp:161-202 | a successful attempt records exactly one RequestMove |
| MoveTaskFacts.ConditionalPerformMoveFacts | Source/PlayerMoveTo/Private/PlayerAITask_MoveTo.cpp:180-192 | postponed with pathfinding on: only the MoveRetry timer is armed and nothing is attempted; otherwise the handle is invalidated and PerformMove runs |
| MoveTaskFacts.ActivateFacts | Source/PlayerMoveTo/Private/PlayerAITask_MoveTo.cpp:164-178 | without a controller the task only becomes active; with one it takes the follower, clears the id and attempts the move |
| MoveTaskFacts.ConditionalUpdatePathFacts | Source/PlayerMoveTo/Private/GameplayPlayerAITask_MoveTo.cpp:568-598 | the path is first marked as waiting for a manual repath. Postponed: only the PathRetry timer is armed. Otherwise the handle is invalidated and the path is either recomputed by its navigation data or, with none, the task finishes Aborted |
| MoveTaskFacts.OnPathEventFacts | Source/PlayerMoveTo/Private/PlayerAITask_MoveTo.cpp:561-599 | a disallowed partial path after any of the three updates, a cleared path, or a failed repath: finish Aborted. Invalidated: update the path. Any other event: no change |
| MoveTaskFacts.PauseFacts | Source/PlayerMoveTo/Private/PlayerAITask_MoveTo.cpp:422-431 | a valid request is paused on the follower; only the phase, the timers and the call log change |
| MoveTaskFacts.ResumeFacts | Source/PlayerMoveTo/Private/PlayerAITask_MoveTo.cpp:433-452 | a valid id that is still the follower's current request is resumed and nothing else happens; otherwise the lost request is dropped without a broadcast of its own, and a fresh ConditionalPerformMove runs, which broadcasts as any attempt does |
| Lifecycle.InitialInv | Source/PlayerMoveTo/Private/PlayerAITask_MoveTo.cpp:20-36 | every new task satisfies the lifecycle invariant |
| Lifecycle.FinishKeepsInv | Source/PlayerMoveTo/Private/PlayerAITask_MoveTo.cpp:140-162 | finishing a live task leaves it torn down with exactly the one notification for its result |
| Lifecycle.OnRequestFinishedKeepsInv | Source/PlayerMoveTo/Private/PlayerAITask_MoveTo.cpp:531-559 | the follower's callback keeps the invariant |
| Lifecycle.PerformMoveKeepsInv | Source/PlayerMoveTo/Private/PlayerAITask_MoveTo.cpp:194-235 | a move attempt keeps the invariant |
| Lifecycle.ConditionalPerformMoveKeepsInv | Source/PlayerMoveTo/Private/PlayerAITask_MoveTo.cpp:180-192 | the readiness check keeps the invariant |
| Lifecycle.ConditionalUpdatePathKeepsInv | Source/PlayerMoveTo/Private/PlayerAITask_MoveTo.cpp:601-631 | the repath step keeps the invariant |
| Lifecycle.OnPathEventKeepsInv | Source/PlayerMoveTo/Private/PlayerAITask_MoveTo.cpp:561-599 | a path event keeps the invariant |
| Lifecycle.StepKeepsInv | Source/PlayerMoveTo/Public/GameplayPlayerAITask_MoveTo.h:93-140 | every event the engine can deliver keeps the invariant |
| Lifecycle.RunKeepsInv | Source/PlayerMoveTo/Public/GameplayPlayerAITask_MoveTo.h:93-140 | every sequence of events keeps the invariant |
| Lifecycle.AtMostOneBroadcast | Source/PlayerMoveTo/Private/PlayerAITask_MoveTo.cpp:140-162 | whatever happens to a task from either factory, it broadcasts at most once, only when finished, and on the channel of its stored result |
| Lifecycle.FinishedIsQuiet | Source/PlayerMoveTo/Private/PlayerAITask_MoveTo.cpp:511-529 | no callback, timer, pause, resume or second end can reach a finished task |
| Lifecycle.QuietAfterFinish | Source/PlayerMoveTo/Private/PlayerAITask_MoveTo.cpp:511-529 | once finished, no sequence of events changes the task |
| Lifecycle.BroadcastIsFinal | Source/PlayerMoveTo/Private/PlayerAITask_MoveTo.cpp:153-160 | a broadcast is never followed by another |
| Lifecycle.WasMoveSuccessfulMatchesBroadcast | Source/PlayerMoveTo/Public/GameplayPlayerAITask_MoveTo.h:37 | after the broadcast, WasMoveSuccessful holds exactly when it was OnMoveFinished(Success), and RequestFailed was sent exactly when the result is Invalid |
| Lifecycle.WasMovePartialAfterFinish | Source/PlayerMoveTo/Public/GameplayPlayerAITask_MoveTo.h:38 | a finished task never reports a partial move, since teardown released the path |
| Lifecycle.RunAppend | Source/PlayerMoveTo/Public/GameplayPlayerAITask_MoveTo.h:93-140 | running two event sequences one after the other is running their concatenation |
| Lifecycle.RunPair | Source/PlayerMoveTo/Public/GameplayPlayerAITask_MoveTo.h:93-140 | two enabled events in a row are their two steps one after the other |
| Lifecycle.PartialUpdateIsVisible | Source/PlayerMoveTo/Private/PlayerAITask_MoveTo.cpp:561-599 | when the engine turns the held path partial in place and reports the update, and partial paths are allowed, WasMovePartial reports it, and the task keeps its phase and broadcasts nothing |
| Lifecycle.LostNavigationDataAborts | Source/PlayerMoveTo/Private/PlayerAITask_MoveTo.cpp:601-631 | when the engine drops the held path's navigation data and then invalidates it, an unpostponed repath reads the data live, finds none, and finishes the task Aborted with exactly one OnMoveFinished(Aborted) |
| Lifecycle.ResumeAfterTakeover | Source/PlayerMoveTo/Private/PlayerAITask_MoveTo.cpp:433-452 | when another party's request replaces ours on the follower during a pause, Resume does not resume it; it runs a fresh ConditionalPerformMove on the changed follower |
| Lifecycle.TrackingRoundRun | Source/PlayerMoveTo/Private/GameplayPlayerAITask_MoveTo.cpp:509-519 | under tracking, a Success callback followed by the next tick is a fresh PerformMove with the id cleared |
| Lifecycle.TrackingRoundFacts | Source/PlayerMoveTo/Private/GameplayPlayerAITask_MoveTo.cpp:509-519 | a tracking round that can request again makes exactly one new request, follows its id and path, stays in its phase and broadcasts nothing |
| Lifecycle.TrackingNeverBroadcasts | Source/PlayerMoveTo/Public/GameplayPlayerAITask_MoveTo.h:52-53 | N successful tracking rounds make N new requests and broadcast nothing |

## Left out

- The geometry is not modelled: the goal location's NaN and validity test,
  projection onto navigation, the acceptance-radius reach test, the
  goal-offset transform in `BuildPathfindingQuery`, and `FindPathSync`. Each
  is one answer of `NavWorld`.
- The 0.2 s timer period and the timer manager's internals are not modelled.
  Timers are a set of armed kinds, fired as events of `Lifecycle`.
- Logging is not modelled: message-log and visual-log output.
- `InitNavigationControl` looks up, creates and registers the follower
  component. It becomes the `found` parameter of `Activate`.
  `PlayerAIMoveToController.h` and `PlayerAIMoveToController.cpp` are not
  part of this model, and neither is `PlayerMoveTo.Build.cs`.
- `IsEquivalent` treats two valid ids as equivalent only when they are equal.
  The engine's "any request" wildcard id is not modelled.
- The follower's own pause and resume state is not modelled. Its status and
  current request change through the task's own requests, immediate finishes
  and aborts, and through `Lifecycle`'s `FollowerChanged` while the task has
  not finished. After the task finishes, changes to the follower are not
  tracked, because nothing of the task reads it any more.
- MoveTaskModel.MoveTask: the object has no method for `PathChanged` or
  `FollowerChanged`, because the engine makes those changes and not the task.
  Its `path` and `follower` fields are the task's view of the shared objects,
  and aliasing between the two is captured only as the `Lifecycle` events.
- Multicast delegates are not modelled. A broadcast is an entry in the
  `notifications` log, and listeners are not run, so a listener that
  re-enters the task is not modelled.
- EndTask, resource claims and `Super::Activate` are modelled only as far as
  the task is concerned. `EndTask` is the gameplay-task base's call of
  `OnDestroy` on a task that has not ended yet, and the phase records
  activation, pause and end.
- MoveTaskModel.MoveTask.Activate: the ability variant dereferences a null
  controller in the source. The model requires a controller instead, and
  `Lifecycle.Enabled` never activates such a task.
- MoveTaskModel.MoveTask.PlayerAIMoveTo: `defaults` stands for the defaults
  of a fresh engine `FAIMoveRequest`, which the engine's configuration
  decides. Acceptance radius, stop-on-overlap and the navigation filter are
  not modelled, because the task's decisions do not read them.
- MoveTaskModel.MoveTask.GameplayPlayerAIMoveTo: in the model
  `NewAbilityTask` always yields a task. A null owning ability, for which the
  engine returns none, is engine plumbing and is not modelled.
- A timer handle that has fired stays valid in the engine until it is
  invalidated. The model keeps the handle flags and the armed set apart, and
  `Lifecycle.Fire` removes only the fired kind from the armed set.
- The checks on the owner and the world that only log are not modelled: the
  "re-activating finished task" warning in `PerformMove`, and the
  mismatched-id warning in `OnRequestFinished`. Neither changes state.
