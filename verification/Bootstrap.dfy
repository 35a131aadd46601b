/**
 The publication bootstrap together with the watcher slot it publishes through.
 Running stays hidden until the one first-Up reset has succeeded. Watchers that
 lost the slot may still observe states; only the slot's owner can post.
 */
module Bootstrap {
  import opened Basics

  datatype Phase = PreRunning | Resetting | Ready | Failing | Failed | Closed

  /** Upstream states; every one but Running is published as it is. */
  datatype Status = Running | Other(name: string)

  const STARTING := Other("Starting")

  /** The Up worker: started by the watcher that first saw Running, after that watcher's masked post. */
  datatype Worker = NotStarted | Launching(run: nat) | Up(run: nat) | Finished

  /**
   `queues` holds, for each watcher, the posts its loop still has to make, and
   `ended` the watchers whose loop is gone; `posted` is what reached Dart and
   `observer` who observed last.
   */
  datatype State = State(
    phase: Phase, latest: Status, resultClosed: bool, failed: bool, worker: Worker, workers: nat,
    owner: Option<nat>, runs: nat, ended: set<nat>, live: bool, queues: map<nat, seq<Status>>,
    posted: seq<Status>, observer: Option<nat>)

  datatype Event =
    | Install
    | ClearOwner
    | EndLoop(run: nat)
    | Detach
    | Observe(run: nat, status: Status)
    | Post(run: nat)
    | UpSucceeds
    | UpFails
    | BeginFailure
    | FinishFailure
    | Shutdown(preserve: bool)

  const INITIAL := State(PreRunning, STARTING, false, false, NotStarted, 0, None, 0, {}, true, map[], [], None)

  function QueueOf(s: State, run: nat): (q: seq<Status>)
  {
    if run in s.queues then s.queues[run] else []
  }

  function Enqueue(s: State, run: nat, q: seq<Status>): (r: State)
  {
    s.(queues := s.queues[run := q])
  }

  /** watcherRunCurrentLocked */
  predicate Owns(s: State, run: nat)
  {
    s.owner == Some(run) && s.live
  }

  predicate Terminal(phase: Phase)
  {
    phase == Ready || phase == Failed || phase == Closed
  }

  /** observeState and the posts handleWatcherState derives from it. */
  function NextObserve(s: State, run: nat, status: Status): (r: State)
  {
    var seen := s.(latest := status, observer := Some(run));
    if status != Running || s.phase == Ready then Enqueue(seen, run, [status])
    else if s.phase == PreRunning then
      Enqueue(seen, run, [STARTING]).(phase := Resetting, worker := Launching(run), workers := s.workers + 1)
    else seen
  }

  /** postWatcherMessage: the post is dropped unless the watcher still owns the slot. */
  function NextPost(s: State, run: nat): (r: State)
    requires QueueOf(s, run) != []
  {
    var q := QueueOf(s, run);
    Enqueue(s, run, q[1..]).(
      posted := if Owns(s, run) then s.posted + [q[0]] else s.posted,
      worker := if s.worker == Launching(run) then Up(run) else s.worker)
  }

  function Fail(s: State): (r: State)
  {
    if s.phase == PreRunning || s.phase == Resetting then s.(phase := Failing, failed := true) else s
  }

  /** publishBootstrapSuccess, or the failure it falls back to. */
  function NextUpSucceeds(s: State): (r: State)
    requires s.worker.Up?
  {
    if !Owns(s, s.worker.run) || s.phase != Resetting then Fail(s).(worker := Finished)
    else
      s.(posted := if s.latest == Running then s.posted + [Running] else s.posted,
         phase := Ready, failed := false, resultClosed := true, worker := Finished)
  }

  predicate Enabled(s: State, e: Event)
  {
    match e
    case EndLoop(run) => run < s.runs && QueueOf(s, run) == []
    case Observe(run, _) => run < s.runs && run !in s.ended && QueueOf(s, run) == []
    case Post(run) => QueueOf(s, run) != []
    case UpSucceeds => s.worker.Up?
    case UpFails => s.worker.Up?
    case _ => true
  }

  function Next(s: State, e: Event): (r: State)
    requires Enabled(s, e)
  {
    match e
    case Install => if s.live then s.(owner := Some(s.runs), runs := s.runs + 1) else s
    case ClearOwner => s.(owner := None)
    case EndLoop(run) => s.(ended := s.ended + {run})
    case Detach => s.(live := false)
    case Observe(run, status) => NextObserve(s, run, status)
    case Post(run) => NextPost(s, run)
    case UpSucceeds => NextUpSucceeds(s)
    case UpFails => Fail(s).(worker := Finished)
    case BeginFailure => Fail(s)
    case FinishFailure => if s.phase == Failing then s.(phase := Failed, resultClosed := true) else s
    case Shutdown(preserve) =>
      if !preserve && s.phase != Ready then s.(phase := Closed, failed := true, resultClosed := true) else s
  }

  function Step(s: State, e: Event): (r: State)
  {
    if Enabled(s, e) then Next(s, e) else s
  }

  function After(s: State, es: seq<Event>): (r: State)
  {
    if es == [] then s else Step(After(s, es[..|es| - 1]), es[|es| - 1])
  }

  // --------------------------------------------------------------- invariant

  predicate PhaseOk(s: State)
  {
    && (s.phase == PreRunning <==> s.worker == NotStarted && !s.failed && !s.resultClosed)
    && (s.phase == PreRunning ==> s.workers == 0) && s.workers <= 1
    && (s.worker == NotStarted ==> s.workers == 0)
    && (s.resultClosed <==> Terminal(s.phase))
    && (s.phase == Ready ==> !s.failed)
    && (s.phase == Failing || s.phase == Failed || s.phase == Closed ==> s.failed)
    && (s.phase == Resetting ==> s.worker.Launching? || s.worker.Up?)
  }

  /** Running waits in a queue, or was posted, only once the phase is Ready. */
  predicate HiddenOk(s: State)
  {
    && (Running in s.posted ==> s.phase == Ready)
    && (forall run :: run in s.queues && Running in s.queues[run] ==> s.phase == Ready)
  }

  predicate RunsOk(s: State)
  {
    && (s.owner.Some? ==> s.owner.value == s.runs - 1)
    && (forall run :: run in s.queues ==> run < s.runs && |s.queues[run]| <= 1)
    && (s.observer.Some? ==> s.observer.value < s.runs)
    && (forall run :: run in s.ended ==> run < s.runs && QueueOf(s, run) == [])
    && (s.worker.Launching? ==> QueueOf(s, s.worker.run) == [STARTING])
  }

  /**
   While the owner made the latest observation, that observation is waiting in
   its queue, was posted last, or is a Running that waits for the bootstrap.
   */
  predicate FreshOk(s: State)
  {
    s.owner.Some? && s.observer == s.owner && s.live ==>
      || QueueOf(s, s.owner.value) == [s.latest]
      || (QueueOf(s, s.owner.value) == [] && s.posted != [] && s.posted[|s.posted| - 1] == s.latest)
      || (&& s.latest == Running && s.phase != Ready
          && (QueueOf(s, s.owner.value) == [] || s.worker == Launching(s.owner.value)))
  }

  predicate Inv(s: State)
  {
    PhaseOk(s) && HiddenOk(s) && RunsOk(s) && FreshOk(s)
  }

  lemma StepKeepsPhase(s: State, e: Event)
    requires Inv(s)
    ensures PhaseOk(Step(s, e)) && (s.phase == Ready ==> Step(s, e).phase == Ready)
    ensures s.workers <= Step(s, e).workers
  {
  }

  lemma StepKeepsHidden(s: State, e: Event)
    requires Inv(s)
    ensures HiddenOk(Step(s, e))
  {
    hide RunsOk, FreshOk;
  }

  lemma ObserveKeepsRuns(s: State, run: nat, status: Status)
    requires PhaseOk(s) && RunsOk(s) && Enabled(s, Observe(run, status))
    ensures RunsOk(NextObserve(s, run, status))
  {
  }

  lemma PostKeepsRuns(s: State, run: nat)
    requires RunsOk(s) && Enabled(s, Post(run))
    ensures RunsOk(NextPost(s, run))
  {
  }

  lemma StepKeepsRuns(s: State, e: Event)
    requires Inv(s)
    ensures RunsOk(Step(s, e))
  {
    hide HiddenOk, FreshOk, NextObserve, NextPost;
    if Enabled(s, e) && e.Observe? { ObserveKeepsRuns(s, e.run, e.status); }
    if Enabled(s, e) && e.Post? { PostKeepsRuns(s, e.run); }
  }

  lemma ObserveKeepsFresh(s: State, run: nat, status: Status)
    requires PhaseOk(s) && RunsOk(s) && Enabled(s, Observe(run, status))
    ensures FreshOk(NextObserve(s, run, status))
  {
  }

  lemma PostKeepsFresh(s: State, run: nat)
    requires RunsOk(s) && FreshOk(s) && Enabled(s, Post(run))
    ensures FreshOk(NextPost(s, run))
  {
  }

  lemma StepKeepsFresh(s: State, e: Event)
    requires Inv(s)
    ensures FreshOk(Step(s, e))
  {
    hide HiddenOk, Terminal, NextObserve, NextPost;
    if Enabled(s, e) && e.Observe? { ObserveKeepsFresh(s, e.run, e.status); }
    if Enabled(s, e) && e.Post? { PostKeepsFresh(s, e.run); }
  }

  lemma {:induction false} RunKeepsInv(s: State, es: seq<Event>)
    requires Inv(s)
    ensures Inv(After(s, es)) && (s.phase == Ready ==> After(s, es).phase == Ready)
    decreases |es|
  {
    hide PhaseOk, HiddenOk, RunsOk, FreshOk, Step;
    if es != [] {
      var before := After(s, es[..|es| - 1]);
      RunKeepsInv(s, es[..|es| - 1]);
      StepKeepsPhase(before, es[|es| - 1]);
      StepKeepsHidden(before, es[|es| - 1]);
      StepKeepsRuns(before, es[|es| - 1]);
      StepKeepsFresh(before, es[|es| - 1]);
    }
  }

  /** The reset is attempted at most once, Ready is permanent, and the result closes exactly in a terminal phase. */
  lemma ResetOnce(es: seq<Event>, later: seq<Event>)
    ensures var s, t := After(INITIAL, es), After(After(INITIAL, es), later);
            && t.workers <= 1 && (s.phase == Ready ==> t.phase == Ready)
            && (s.resultClosed <==> Terminal(s.phase))
  {
    RunKeepsInv(INITIAL, es);
    RunKeepsInv(After(INITIAL, es), later);
  }

  /** No Running reaches Dart before the critical section that makes the phase Ready. */
  lemma RunningHiddenUntilReady(es: seq<Event>)
    requires Running in After(INITIAL, es).posted
    ensures After(INITIAL, es).phase == Ready
  {
    RunKeepsInv(INITIAL, es);
  }

  // ------------------------------------------------------- the last status

  /** What Dart saw last is the latest state observed. */
  predicate UpToDate(s: State)
  {
    s.posted != [] && s.posted[|s.posted| - 1] == s.latest
  }

  /** Bootstrapped, owned by this watcher, and none of its posts pending. */
  predicate Quiet(s: State, run: nat)
  {
    s.phase == Ready && Owns(s, run) && QueueOf(s, run) == []
  }

  /** Whatever watchers other than this one still do. */
  predicate Displaced(e: Event, run: nat)
  {
    (e.Observe? || e.Post? || e.EndLoop?) && e.run != run
  }

  lemma {:induction false} AllJoined(s: State, run: nat, later: seq<Event>)
    requires Inv(s) && Quiet(s, run) && UpToDate(s) && forall r :: 0 <= r < s.runs && r != run ==> r in s.ended
    requires forall i :: 0 <= i < |later| ==> Displaced(later[i], run)
    ensures var t := After(s, later);
            Inv(t) && Quiet(t, run) && UpToDate(t) && forall r :: 0 <= r < t.runs && r != run ==> r in t.ended
    decreases |later|
  {
    RunKeepsInv(s, later);
    if later != [] {
      AllJoined(s, run, later[..|later| - 1]);
      hide Inv;
    }
  }

  lemma Breaks(s: State, run: nat, stray: nat) returns (later: seq<Event>)
    requires Inv(s) && Quiet(s, run) && UpToDate(s) && stray < s.runs && stray != run && stray !in s.ended
    ensures (forall i :: 0 <= i < |later| ==> Displaced(later[i], run)) && !UpToDate(After(s, later))
  {
    later := [];
    assert After(s, later) == s;
    hide After;
    if QueueOf(s, stray) != [] {
      AfterOne(s, later, Post(stray));
      later := later + [Post(stray)];
    }
    var stale := if s.latest == Running then STARTING else Running;
    AfterOne(s, later, Observe(stray, stale));
    later := later + [Observe(stray, stale)];
  }

  /**
   Once the last status posted is the latest one, nothing that displaced watchers
   still do can make it stale exactly when no displaced loop is alive.
   */
  lemma StaysUpToDateIff(es: seq<Event>, run: nat)
    requires var s := After(INITIAL, es); Quiet(s, run) && UpToDate(s)
    ensures var s := After(INITIAL, es);
            (forall later: seq<Event> :: (forall i :: 0 <= i < |later| ==> Displaced(later[i], run)) ==>
                UpToDate(After(s, later)))
            <==> (forall r :: 0 <= r < s.runs && r != run ==> r in s.ended)
  {
    RunKeepsInv(INITIAL, es);
    var s := After(INITIAL, es);
    hide After, Inv, Quiet, UpToDate, Displaced;
    if forall r :: 0 <= r < s.runs && r != run ==> r in s.ended {
      forall later: seq<Event> | forall i :: 0 <= i < |later| ==> Displaced(later[i], run)
        ensures UpToDate(After(s, later))
      {
        AllJoined(s, run, later);
      }
    } else {
      var stray :| 0 <= stray < s.runs && stray != run && stray !in s.ended;
      var later := Breaks(s, run, stray);
    }
  }

  /** StartWatch calls that do not overlap: each one has joined every loop before it installs its own. */
  predicate Serialized(es: seq<Event>)
  {
    forall i :: 0 <= i < |es| && es[i] == Install ==>
      var s := After(INITIAL, es[..i]); forall r :: 0 <= r < s.runs ==> r in s.ended
  }

  /** The watcher observed a state at some point of the run. */
  predicate Observed(es: seq<Event>, run: nat)
  {
    exists i :: 0 <= i < |es| && Saw(es, i, run)
  }

  predicate Saw(es: seq<Event>, i: nat, run: nat)
    requires i < |es|
  {
    es[i].Observe? && es[i].run == run && Enabled(After(INITIAL, es[..i]), es[i])
  }

  lemma StepInOrder(s: State, e: Event)
    requires RunsOk(s) && (forall r :: 0 <= r < s.runs - 1 ==> r in s.ended)
    requires e == Install ==> forall r :: 0 <= r < s.runs ==> r in s.ended
    ensures var t := Step(s, e);
            && s.runs <= t.runs <= s.runs + 1 && (forall r :: 0 <= r < t.runs - 1 ==> r in t.ended)
            && (if e.Observe? && Enabled(s, e) then t.observer == Some(e.run) && e.run == t.runs - 1
                else t.observer == s.observer)
  {
  }

  lemma Shorter(es: seq<Event>, run: nat)
    requires es != [] && Serialized(es)
    ensures var before := es[..|es| - 1];
            Serialized(before) && (Observed(es, run) ==> Saw(es, |es| - 1, run) || Observed(before, run))
  {
    var before := es[..|es| - 1];
    assert forall i :: 0 <= i < |before| ==> before[i] == es[i] && before[..i] == es[..i];
    hide After, Enabled;
    if Observed(es, run) {
      var i :| 0 <= i < |es| && Saw(es, i, run);
      if i < |before| { assert Saw(before, i, run); }
    }
  }

  lemma {:induction false} NewestObserves(es: seq<Event>, run: nat)
    requires Serialized(es)
    ensures var s := After(INITIAL, es);
            && (forall r :: 0 <= r < s.runs - 1 ==> r in s.ended)
            && (Observed(es, run) ==> run < s.runs && (run + 1 == s.runs ==> s.observer == Some(run)))
    decreases |es|
  {
    if es != [] {
      Shorter(es, run);
      NewestObserves(es[..|es| - 1], run);
      RunKeepsInv(INITIAL, es[..|es| - 1]);
      StepInOrder(After(INITIAL, es[..|es| - 1]), es[|es| - 1]);
      hide Inv, Step, Enabled, Observed;
    }
  }

  /**
   With StartWatch calls serialized, once the owner has observed anything the
   last status posted is the latest one whenever none of its posts is pending.
   */
  lemma SerializedIsUpToDate(es: seq<Event>, run: nat)
    requires Serialized(es) && Observed(es, run) && Quiet(After(INITIAL, es), run)
    ensures UpToDate(After(INITIAL, es))
    ensures forall later: seq<Event> :: (forall i :: 0 <= i < |later| ==> Displaced(later[i], run)) ==>
      UpToDate(After(After(INITIAL, es), later))
  {
    RunKeepsInv(INITIAL, es);
    NewestObserves(es, run);
    hide After, Serialized, Observed;
    StaysUpToDateIff(es, run);
  }

  lemma AfterOne(s: State, es: seq<Event>, e: Event)
    ensures After(s, es + [e]) == Step(After(s, es), e)
  {
    assert (es + [e])[..|es|] == es;
  }

  lemma BecomeReady() returns (es: seq<Event>)
    ensures var s := After(INITIAL, es);
            && s.phase == Ready && s.owner == Some(0) && s.runs == 1 && s.live && s.latest == Running
            && s.posted == [STARTING, Running] && QueueOf(s, 0) == [] && s.queues.Keys == {0} && s.ended == {}
  {
    es := [];
    assert After(INITIAL, es) == INITIAL;
    hide After;
    AfterOne(INITIAL, es, Install);
    es := es + [Install];
    AfterOne(INITIAL, es, Observe(0, Running));
    es := es + [Observe(0, Running)];
    AfterOne(INITIAL, es, Post(0));
    es := es + [Post(0)];
    AfterOne(INITIAL, es, UpSucceeds);
    es := es + [UpSucceeds];
  }

  /**
   A watcher that was replaced while its loop was still running can observe
   last: then the owner has nothing pending and yet the last status is stale.
   */
  lemma DisplacedObserverExample(late: Status) returns (es: seq<Event>)
    requires late != Running
    ensures var s := After(INITIAL, es);
            && s.phase == Ready && Owns(s, 1) && QueueOf(s, 1) == [] && QueueOf(s, 0) == []
            && s.observer == Some(0) && s.posted != [] && s.posted[|s.posted| - 1] != s.latest
  {
    es := BecomeReady();
    hide After;
    AfterOne(INITIAL, es, Install);
    es := es + [Install];
    AfterOne(INITIAL, es, Observe(0, late));
    es := es + [Observe(0, late)];
    AfterOne(INITIAL, es, Post(0));
    es := es + [Post(0)];
  }

  // ---------------------------------------------------------- in-place form

  datatype WaitResult = DataPlaneReady | NotReady | BootstrapFailed | Stale | Blocked

  /** publicationBootstrap; the ghost fields are the watcher slot and the worker around it. */
  class PublicationBootstrap {
    var phase: Phase
    var latestState: Status
    var resultClosed: bool
    var failed: bool
    ghost var worker: Worker
    ghost var workers: nat
    ghost var owner: Option<nat>
    ghost var runs: nat
    ghost var ended: set<nat>
    ghost var live: bool
    ghost var queues: map<nat, seq<Status>>
    ghost var posted: seq<Status>
    ghost var observer: Option<nat>

    constructor ()
      ensures Snapshot() == INITIAL && Inv(Snapshot())
    {
      phase, latestState, resultClosed, failed := PreRunning, STARTING, false, false;
      worker, workers, owner, runs, ended, live := NotStarted, 0, None, 0, {}, true;
      queues, posted, observer := map[], [], None;
    }

    ghost function Snapshot(): State
      reads this
    {
      State(phase, latestState, resultClosed, failed, worker, workers, owner, runs, ended, live, queues, posted,
            observer)
    }

    /** observeState; `start` is true exactly once, for the caller that must run the Up worker. */
    method ObserveState(run: nat, state: Status) returns (suppress: bool, start: bool)
      requires Enabled(Snapshot(), Observe(run, state))
      modifies this`phase, this`latestState, this`worker, this`workers, this`queues, this`observer
      ensures Snapshot() == NextObserve(old(Snapshot()), run, state)
      ensures start <==> workers == old(workers) + 1
      ensures !suppress <==> state != Running || old(phase) == Ready
    {
      latestState := state;
      observer := Some(run);
      if state != Running || phase == Ready {
        queues := queues[run := [state]];
        return false, false;
      }
      if phase == PreRunning {
        phase := Resetting;
        worker, workers, queues := Launching(run), workers + 1, queues[run := [STARTING]];
        return true, true;
      }
      return true, false;
    }

    method BeginBootstrapFailure() returns (claimed: bool)
      modifies this`phase, this`failed
      ensures Snapshot() == Step(old(Snapshot()), BeginFailure)
      ensures claimed <==> old(phase) == PreRunning || old(phase) == Resetting
    {
      if phase != PreRunning && phase != Resetting { return false; }
      phase, failed := Failing, true;
      return true;
    }

    /** publishBootstrapSuccess for the watcher that started the worker. */
    method PublishBootstrapSuccess(run: nat, ownsSlot: bool) returns (published: bool)
      requires worker == Up(run) && ownsSlot == Owns(Snapshot(), run)
      modifies this`phase, this`failed, this`resultClosed, this`worker, this`posted
      ensures published ==> Snapshot() == NextUpSucceeds(old(Snapshot())) && phase == Ready
      ensures !published ==> Snapshot() == old(Snapshot())
      ensures published <==> ownsSlot && old(phase) == Resetting
    {
      if !ownsSlot || phase != Resetting { return false; }
      if latestState == Running { posted := posted + [Running]; }
      phase, failed, resultClosed := Ready, false, true;
      worker := Finished;
      return true;
    }

    method FinishBootstrapFailure()
      modifies this`phase, this`resultClosed
      ensures Snapshot() == Step(old(Snapshot()), FinishFailure)
    {
      if phase == Failing { phase, resultClosed := Failed, true; }
    }

    method ShutdownBootstrap(preserveFailure: bool)
      modifies this`phase, this`failed, this`resultClosed
      ensures Snapshot() == Step(old(Snapshot()), Shutdown(preserveFailure))
    {
      if !preserveFailure && phase != Ready { phase, failed, resultClosed := Closed, true, true; }
    }

    /** awaitDataPlaneReady before it blocks, and again once the result channel is closed. */
    method AwaitDataPlaneReady(resultObserved: bool) returns (r: WaitResult)
      requires Inv(Snapshot()) && (resultObserved ==> resultClosed)
      ensures r == DataPlaneReady <==> phase == Ready
      ensures r == NotReady <==> phase == PreRunning
      ensures r == BootstrapFailed <==> phase == Failed
      ensures r == Stale <==> phase == Closed
      ensures r == Blocked <==> !resultObserved && (phase == Resetting || phase == Failing)
    {
      if phase == Ready { return DataPlaneReady; }
      if phase == PreRunning { return NotReady; }
      if phase == Failed { return BootstrapFailed; }
      if phase == Closed { return Stale; }
      return Blocked;
    }
  }
}
