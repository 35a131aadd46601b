/**
 One state watcher run: its loop, its debounce timer, the callbacks the timer
 starts, and the wait group that joins them. Losing the slot is final. The
 stopWatch that takes the slot returns only once the loop and every callback are
 gone; one that finds the slot empty returns at once.
 */
module Watcher {
  import opened Basics

  /** run.timer: nil, not yet fired, or fired (its callback was started). */
  datatype Timer = NoTimer | Armed | Fired

  datatype Loop = Looping | Leaving | Joining | Done

  datatype Stop = NotAsked | Waiting | Returned

  /**
   `count` is the wait group. `posts` and `replacements` count the messages and
   identity indexes this run published. `passed` once a stopWatch found the slot
   empty.
   */
  datatype Run = Run(
    owner: bool, cancelled: bool, current: bool, timer: Timer, running: nat, count: int,
    loop: Loop, stop: Stop, passed: bool, posts: nat, replacements: nat)

  datatype Event =
    | LoopPost
    | ReplaceIdentity
    | Schedule
    | Fire
    | CallbackPost
    | CallbackDone
    | LoopError(preReady: bool)
    | FinishBegins
    | FinishEnds
    | Displace
    | StopBegins
    | StopReturns
    | StopPasses
    | EpochMoves

  const STARTED := Run(true, false, true, NoTimer, 0, 0, Looping, NotAsked, false, 0, 0)

  /** watcherRunCurrentLocked */
  predicate Current(r: Run)
  {
    r.owner && !r.cancelled && r.current
  }

  /** stopWatcherTimerLocked: the count is given back only when Stop proves the callback never started. */
  function StopTimer(r: Run): (s: Run)
  {
    if r.timer == Armed then r.(count := r.count - 1, timer := NoTimer) else r.(timer := NoTimer)
  }

  /** scheduleWatcherTimerLocked */
  function ScheduleTimer(r: Run): (s: Run)
  {
    var stopped := StopTimer(r);
    stopped.(count := stopped.count + 1, timer := Armed)
  }

  predicate Enabled(r: Run, e: Event)
  {
    match e
    case LoopPost => r.loop == Looping
    case ReplaceIdentity => r.loop == Looping
    case Schedule => r.loop == Looping
    case Fire => r.timer == Armed
    case CallbackPost => r.running > 0
    case CallbackDone => r.running > 0
    case LoopError(_) => r.loop == Looping
    case FinishBegins => r.loop == Leaving
    case FinishEnds => r.loop == Joining && r.count == 0
    case Displace => r.owner
    case StopBegins => r.owner && r.stop == NotAsked
    case StopReturns => r.stop == Waiting && r.loop == Done && r.count == 0
    case StopPasses => !r.owner
    case EpochMoves => true
  }

  function Next(r: Run, e: Event): (s: Run)
    requires Enabled(r, e)
  {
    match e
    case LoopPost => if Current(r) then r.(posts := r.posts + 1) else r
    case ReplaceIdentity => if Current(r) then r.(replacements := r.replacements + 1) else r
    case Schedule => if Current(r) then ScheduleTimer(r) else r
    case Fire => r.(timer := Fired, running := r.running + 1)
    case CallbackPost => if Current(r) then r.(posts := r.posts + 1) else r
    case CallbackDone => r.(running := r.running - 1, count := r.count - 1)
    case LoopError(preReady) => r.(loop := Leaving, cancelled := r.cancelled || (preReady && Current(r)))
    case FinishBegins =>
      var left := r.(cancelled := true, loop := Joining);
      if r.owner then StopTimer(left) else left
    case FinishEnds => r.(owner := false, loop := Done)
    case Displace => StopTimer(r.(owner := false, cancelled := true))
    case StopBegins => StopTimer(r.(owner := false, cancelled := true, stop := Waiting))
    case StopReturns => r.(stop := Returned)
    case StopPasses => r.(passed := true)
    case EpochMoves => r.(current := false)
  }

  function Step(r: Run, e: Event): (s: Run)
  {
    if Enabled(r, e) then Next(r, e) else r
  }

  function After(r: Run, es: seq<Event>): (s: Run)
  {
    if es == [] then r else Step(After(r, es[..|es| - 1]), es[|es| - 1])
  }

  predicate Inv(r: Run)
  {
    && r.count == r.running + (if r.timer == Armed then 1 else 0)
    && (!r.owner ==> r.timer != Armed)
    && (r.loop == Joining || r.loop == Done ==> r.timer != Armed && r.cancelled)
    && (r.loop == Done ==> r.count == 0 && !r.owner)
    && (r.stop != NotAsked ==> !r.owner && r.cancelled)
    && (r.stop == Returned ==> r.loop == Done) && (r.passed ==> !r.owner)
  }

  lemma StepKeepsInv(r: Run, e: Event)
    requires Inv(r)
    ensures Inv(Step(r, e))
  {
  }

  lemma {:induction false} RunKeepsInv(r: Run, es: seq<Event>)
    requires Inv(r)
    ensures Inv(After(r, es))
    decreases |es|
  {
    if es != [] {
      RunKeepsInv(r, es[..|es| - 1]);
      StepKeepsInv(After(r, es[..|es| - 1]), es[|es| - 1]);
    }
  }

  /** The wait group counts exactly the pending timer and the running callbacks and never goes negative. */
  lemma {:induction false} WaitGroupCounts(es: seq<Event>)
    ensures var r := After(STARTED, es);
            r.count == r.running + (if r.timer == Armed then 1 else 0) && r.count >= 0
  {
    RunKeepsInv(STARTED, es);
  }

  lemma SilentStep(r: Run, e: Event)
    requires !r.owner
    ensures var s := Step(r, e); !s.owner && s.posts == r.posts && s.replacements == r.replacements
  {
  }

  /** Once the slot is lost nothing is published any more, whatever still runs. */
  lemma {:induction false} SilentWithoutSlot(r: Run, es: seq<Event>)
    requires !r.owner
    ensures var s := After(r, es); !s.owner && s.posts == r.posts && s.replacements == r.replacements
    decreases |es|
  {
    if es != [] {
      SilentWithoutSlot(r, es[..|es| - 1]);
      SilentStep(After(r, es[..|es| - 1]), es[|es| - 1]);
    }
  }

  /**
   The barrier: when stopWatch returns, the loop has ended and no callback is
   pending or running, and no later step publishes or starts anything.
   */
  lemma StopIsABarrier(es: seq<Event>, later: seq<Event>)
    requires After(STARTED, es).stop == Returned
    ensures var r, s := After(STARTED, es), After(After(STARTED, es), later);
            && s.posts == r.posts && s.replacements == r.replacements
            && s.running == 0 && s.timer != Armed && s.count == 0 && s.loop == Done
  {
    RunKeepsInv(STARTED, es);
    var r := After(STARTED, es);
    SilentWithoutSlot(r, later);
    RunKeepsInv(r, later);
    StaysDone(r, later);
  }

  /** A stopWatch that found the slot empty returned at once, yet nothing is published after it either. */
  lemma PassingStopIsSilent(es: seq<Event>, later: seq<Event>)
    requires After(STARTED, es).passed
    ensures var r, s := After(STARTED, es), After(After(STARTED, es), later);
            s.posts == r.posts && s.replacements == r.replacements
  {
    RunKeepsInv(STARTED, es);
    SilentWithoutSlot(After(STARTED, es), later);
  }

  /** It is no barrier: the loop and a callback may still be running when it returns. */
  lemma PassingStopExample() returns (es: seq<Event>)
    ensures var r := After(STARTED, es); r.passed && r.stop == Waiting && r.running == 1 && r.loop == Looping
  {
    es := [Schedule, Fire, StopBegins, StopPasses];
    assert es[..3] == [Schedule, Fire, StopBegins] && es[..3][..2] == [Schedule, Fire];
    assert es[..3][..2][..1] == [Schedule] && es[..3][..2][..1][..0] == [];
    assert After(STARTED, [Schedule]) == Step(After(STARTED, []), Schedule);
    assert After(STARTED, [Schedule, Fire]) == Step(After(STARTED, [Schedule]), Fire);
    assert After(STARTED, [Schedule, Fire, StopBegins]) == Step(After(STARTED, [Schedule, Fire]), StopBegins);
  }

  lemma {:induction false} StaysDone(r: Run, es: seq<Event>)
    requires Inv(r) && r.loop == Done
    ensures After(r, es).loop == Done
    decreases |es|
  {
    if es != [] {
      StaysDone(r, es[..|es| - 1]);
    }
  }

  // ---------------------------------------------------------- in-place form

  /** watcherRun with the fields its runtime's watch lock guards. */
  class WatcherRun {
    var timer: Timer
    var publishCount: int
    var running: nat
    var owner: bool
    var cancelled: bool
    var current: bool
    var loop: Loop
    var stop: Stop
    var passed: bool
    ghost var posts: nat
    ghost var replacements: nat

    ghost function Snapshot(): Run
      reads this
    {
      Run(owner, cancelled, current, timer, running, publishCount, loop, stop, passed, posts, replacements)
    }

    constructor ()
      ensures Snapshot() == STARTED && Inv(Snapshot())
    {
      timer, publishCount, running, owner, cancelled, current := NoTimer, 0, 0, true, false, true;
      loop, stop, passed, posts, replacements := Looping, NotAsked, false, 0, 0;
    }

    method StopWatcherTimer()
      requires Inv(Snapshot())
      modifies this`timer, this`publishCount
      ensures Snapshot() == StopTimer(old(Snapshot())) && publishCount >= 0
    {
      if timer == NoTimer { return; }
      if timer == Armed { publishCount := publishCount - 1; }
      timer := NoTimer;
    }

    method SchedulePeerPublish()
      requires Inv(Snapshot()) && loop == Looping
      modifies this`timer, this`publishCount
      ensures Snapshot() == Step(old(Snapshot()), Schedule) && Inv(Snapshot())
    {
      if !owner || cancelled || !current { return; }
      StopWatcherTimer();
      publishCount := publishCount + 1;
      timer := Armed;
    }

    method PostWatcherMessage() returns (posted: bool)
      requires Inv(Snapshot()) && (loop == Looping || running > 0)
      modifies this`posts
      ensures Snapshot() == Step(old(Snapshot()), if loop == Looping then LoopPost else CallbackPost)
      ensures posted <==> Current(Snapshot())
    {
      if !owner || cancelled || !current { return false; }
      posts := posts + 1;
      return true;
    }

    /** The critical section of stopWatch; only the caller that takes the slot joins loop and wait group. */
    method BeginStop() returns (joins: bool)
      requires Inv(Snapshot())
      modifies this`owner, this`cancelled, this`stop, this`passed, this`timer, this`publishCount
      ensures Snapshot() == Step(old(Snapshot()), if joins then StopBegins else StopPasses) && Inv(Snapshot())
      ensures joins <==> old(owner)
    {
      if !owner {
        passed := true;
        return false;
      }
      StopWatcherTimer();
      owner, cancelled, stop := false, true, Waiting;
      return true;
    }

    /** The first critical section of finishWatcherRun. */
    method BeginFinish()
      requires Inv(Snapshot()) && loop == Leaving
      modifies this`cancelled, this`loop, this`timer, this`publishCount
      ensures Snapshot() == Step(old(Snapshot()), FinishBegins) && Inv(Snapshot())
    {
      if owner { StopWatcherTimer(); }
      cancelled, loop := true, Joining;
    }
  }
}
