/**
 The other calls of the controller from entry to return: opening a preparation,
 abandonment, down, logout and local reset. A call that waits for another one
 lets every thread run; a result that says so has not returned yet.
 */
module LifecycleCalls {
  import opened Basics
  import opened Lifecycle
  import opened LifecycleInvariant
  import opened LifecycleTheorems
  import opened RuntimeControllers
  import opened ControllerCalls

  // ----------------------------------------------------- finishing a preparation

  datatype FinishResult = FinishedHere(failed: bool) | FinishedElsewhere | FinishWaiting

  lemma ClaimHolds(d: Controller, n: nat, who: Claimer)
    requires Prepares(d, n) && PrepEnabled(d, FinishPreparation(who))
    ensures var p := d.slots.preparation.value;
            Holds(Closing(n, p.token, Claimed(who), p.doubtful, false), NextPrep(d, FinishPreparation(who)))
  {
  }

  lemma ReleaseHolds(d: Controller, h: Hold, uncertain: bool, other: bool)
    requires h.Closing? && h.stage.Claimed? && Holds(h, d)
    ensures PrepEnabled(d, ReleasePreparation(uncertain, other))
    ensures var r := NextPrep(d, ReleasePreparation(uncertain, other));
            && Prepares(r, h.serial) && r.slots.preparation.value.stage.Emptied?
            && r.slots.preparation.value.stage.who == h.stage.who
            && Holds(h.(stage := r.slots.preparation.value.stage), r)
  {
    hide LetGo;
  }

  lemma ReportHolds(d: Controller, h: Hold)
    requires h.Closing? && h.stage.Emptied? && Holds(h, d)
    ensures PrepEnabled(d, ReportPreparation)
    ensures var failed := h.stage.broken || (h.stage.who == Opener && h.doubtful);
            Holds(h.(stage := Reported(h.stage.who), told := failed), NextPrep(d, ReportPreparation))
  {
  }

  lemma ClearHolds(d: Controller, h: Hold)
    requires Inv(d) && h.Closing? && h.stage.Reported? && Holds(h, d)
    ensures PrepEnabled(d, ClearPreparation)
    ensures var r := NextPrep(d, ClearPreparation); Undone(r, h.serial, h.owner) && (h.told ==> r.failure.Some?)
  {
    Departs(d, h.owner);
    hide EpochOk, LeasesOk, TokensOk, PoisonOk, Departed, Shut;
  }

  /** A step of the preparation taken by the call that stands at `h`. */
  lemma Taken(c: Controller, d: Controller, es: seq<Event>, h: Hold, e: PrepEvent)
    requires On(c, d, es, h) && PrepEnabled(d, e)
    ensures Inv(NextPrep(d, e)) && NextPrep(d, e) == After(c, es + [Prep(e)])
  {
    Advance(c, d, es, h, Prep(e));
    hide On, Inv, After, NextPrep, PrepEnabled;
  }

  method ReleaseClaimed(k: RuntimeController, h: Hold, ghost c: Controller, ghost es: seq<Event>)
      returns (emptied: Hold, ghost es': seq<Event>)
    requires h.Closing? && h.stage.Claimed? && On(c, k.Snapshot(), es, h)
    modifies k
    ensures emptied.Closing? && emptied.stage.Emptied? && emptied.stage.who == h.stage.who
    ensures emptied == h.(stage := emptied.stage) && On(c, k.Snapshot(), es', emptied)
  {
    hide Inv, After, Step, PrepEnabled, NextPrep;
    ghost var d := k.Snapshot();
    var uncertain: bool, other: bool := *, *;
    ReleaseHolds(d, h, uncertain, other);
    Taken(c, d, es, h, ReleasePreparation(uncertain, other));
    k.ReleasePreparation(uncertain, other);
    es' := es + [Prep(ReleasePreparation(uncertain, other))];
    emptied := h.(stage := k.persistentPreparation.value.stage);
  }

  method ReportEmptied(k: RuntimeController, h: Hold, ghost c: Controller, ghost es: seq<Event>)
      returns (reported: Hold, ghost es': seq<Event>)
    requires h.Closing? && h.stage.Emptied? && On(c, k.Snapshot(), es, h)
    modifies k
    ensures reported.Closing? && reported == h.(stage := Reported(h.stage.who), told := reported.told)
    ensures On(c, k.Snapshot(), es', reported)
    ensures reported.told <==> h.stage.broken || (h.stage.who == Opener && h.doubtful)
  {
    hide Inv, After, Step, PrepEnabled, NextPrep;
    ghost var d := k.Snapshot();
    ReportHolds(d, h);
    Taken(c, d, es, h, ReportPreparation);
    k.ReportPreparation();
    es' := es + [Prep(ReportPreparation)];
    reported := h.(stage := Reported(h.stage.who),
                   told := h.stage.broken || (h.stage.who == Opener && h.doubtful));
  }

  /** finishClaimedPersistentPreparation: the resources go, the failure is recorded, then the slot is free. */
  method FinishClaimed(k: RuntimeController, h: Hold, ghost c: Controller, ghost es: seq<Event>)
      returns (failed: bool, ghost es': seq<Event>)
    requires h.Closing? && h.stage.Claimed? && On(c, k.Snapshot(), es, h)
    modifies k
    ensures On(c, k.Snapshot(), es', Finished(h.owner, failed, true)) && Undone(k.Snapshot(), h.serial, h.owner)
    ensures h.stage.who == Opener && h.doubtful ==> failed
  {
    hide Inv, After, Step, PrepEnabled, NextPrep, Departed;
    var emptied, reported;
    emptied, es' := ReleaseClaimed(k, h, c, es);
    es' := Others(k, c, es', emptied);
    reported, es' := ReportEmptied(k, emptied, c, es');
    es' := Others(k, c, es', reported);
    ghost var d := k.Snapshot();
    ClearHolds(d, reported);
    Taken(c, d, es', reported, ClearPreparation);
    k.ClearPreparation();
    es' := es' + [Prep(ClearPreparation)];
    failed := reported.told;
  }

  /**
   finishPersistentPreparation: whoever claims first finishes, and everyone else
   waits until the preparation is out of its slot.
   */
  method FinishOrJoin(k: RuntimeController, h: Hold, who: Claimer, ghost c: Controller, ghost es: seq<Event>)
      returns (r: FinishResult, ghost es': seq<Event>)
    requires h.Undoing? || h.Abandoned?
    requires On(c, k.Snapshot(), es, h) && (h.Undoing? ==> who == Opener)
    modifies k
    ensures On(c, k.Snapshot(), es',
               if r.FinishWaiting? then Nothing else Finished(h.owner, r.FinishedHere? && r.failed, true))
    ensures !r.FinishWaiting? ==> Undone(k.Snapshot(), h.serial, h.owner)
    ensures r.FinishedHere? && h.Undoing? && h.doubtful ==> r.failed
    ensures r.FinishedElsewhere? && h.Undoing? ==> ClaimedElsewhere(k.Snapshot(), h.serial)
  {
    hide Inv, After, Step, Departed, NextPrep;
    ghost var d := k.Snapshot();
    var claimed := k.ClaimFinish(h.serial, who);
    if claimed {
      ClaimHolds(d, h.serial, who);
      Taken(c, d, es, h, FinishPreparation(who));
      var failed;
      var p := k.persistentPreparation.value;
      failed, es' := FinishClaimed(k, Closing(h.serial, h.owner, Claimed(who), p.doubtful, false), c,
                                   es + [Prep(FinishPreparation(who))]);
      return FinishedHere(failed), es';
    }
    es' := Others(k, c, es, h);
    if k.persistentPreparation.Some? && k.persistentPreparation.value.serial == h.serial { return FinishWaiting, es'; }
    return FinishedElsewhere, es';
  }

  // -------------------------------------------------- BeginPersistentPreparation

  datatype OpenResult = OpenOk | OpenRefused | OpenFailed(serial: nat, doubtful: bool) | OpenWaiting

  lemma SettleHolds(d: Controller, n: nat, t: nat, outcome: Acquired)
    requires Inv(d) && Holds(Opening(n, t), d)
    ensures PrepEnabled(d, Settled(outcome))
    ensures var r := NextPrep(d, Settled(outcome));
            && Prepares(r, n) && r.slots.preparation.value.token == t
            && (r.slots.preparation.value.opening ==> Holds(Undoing(n, t, Doubts(d.leases, outcome)), r))
            && (!r.slots.preparation.value.opening ==>
                Live(r.slots.preparation.value) && r.leases.admission.Taken?
                && r.slots.preparation.value.lease == Some(r.leases.admission.lease))
  {
    hide EpochOk, TokensOk, PoisonOk, FailureOk, ReleasedOnce;
  }

  lemma BeginHolds(c: Controller, token: nat)
    requires Inv(c) && token != 0 && PhaseOf(c.tokens, token) == Idle
    ensures var r := NextBeginPreparation(c, token);
            && (r.serial == c.serial + 1 ==> Holds(Opening(c.serial, token), r))
            && (PhaseOf(r.tokens, token) == Dead ==> Over(r, token))
  {
    hide EpochOk, LeasesOk, CallsOk, SeatsOk, SpentOk, FailureOk, PoisonOk;
  }

  /** What a caller of BeginPersistentPreparation may rely on. */
  ghost predicate OpenedAs(r: OpenResult, c: Controller, token: nat)
  {
    match r
    case OpenOk =>
      && c.slots.preparation.Some? && Live(c.slots.preparation.value) && c.slots.preparation.value.token == token
      && c.leases.admission.Taken? && c.slots.preparation.value.lease == Some(c.leases.admission.lease)
    case OpenRefused => token != 0 ==> Over(c, token)
    case OpenFailed(n, doubtful) =>
      Over(c, token) && Shut(c, token) && (doubtful ==> c.failure.Some? || ClaimedElsewhere(c, n))
    case OpenWaiting => true
  }

  /** The acquisition and what follows it. */
  method SettleOpening(k: RuntimeController, n: nat, token: nat, ghost c: Controller, ghost es: seq<Event>)
      returns (r: OpenResult, ghost es': seq<Event>)
    requires On(c, k.Snapshot(), es, Opening(n, token))
    modifies k
    ensures On(c, k.Snapshot(), es', Nothing) && OpenedAs(r, k.Snapshot(), token)
  {
    hide Inv, After, Step, Over, Gone, Live, NextPrep, PrepEnabled;
    es' := Others(k, c, es, Opening(n, token));
    ghost var d := k.Snapshot();
    var outcome: Acquired := *;
    var doubtful := Doubts(k.leases, outcome);
    SettleHolds(d, n, token, outcome);
    Taken(c, d, es', Opening(n, token), Settled(outcome));
    var ok := k.SettleAcquisition(outcome);
    es' := es' + [Prep(Settled(outcome))];
    if ok { return OpenOk, es'; }
    es' := Others(k, c, es', Undoing(n, token, doubtful));
    var finish;
    finish, es' := FinishOrJoin(k, Undoing(n, token, doubtful), Opener, c, es');
    return if finish.FinishWaiting? then OpenWaiting else OpenFailed(n, doubtful), es';
  }

  /**
   BeginPersistentPreparation. On success the preparation is live and holds the
   lease. In every other case its token is out for good, and a doubt about the
   lease is recorded unless the finish was claimed by somebody else.
   */
  method OpenPreparation(k: RuntimeController, token: nat) returns (r: OpenResult, ghost es: seq<Event>)
    requires Inv(k.Snapshot()) && (token != 0 ==> PhaseOf(k.TheTokens(), token) == Idle)
    modifies k
    ensures On(old(k.Snapshot()), k.Snapshot(), es, Nothing) && OpenedAs(r, k.Snapshot(), token)
  {
    ghost var c := k.Snapshot();
    Here(c);
    hide Inv, After, Over, NextBeginPreparation;
    if token == 0 { return OpenRefused, []; }
    BeginHolds(c, token);
    Taken(c, c, [], Nothing, BeginPreparation(token));
    assert [] + [Prep(BeginPreparation(token))] == [Prep(BeginPreparation(token))];
    var begun := k.BeginPersistentPreparation(token);
    es := [Prep(BeginPreparation(token))];
    if begun.Refuse? { return OpenRefused, es; }
    r, es := SettleOpening(k, begun.value, token, c, es);
  }

  // --------------------------------------------------------------------- drains

  lemma EndTaken(c: Controller, d: Controller, es: seq<Event>, h: Hold, e: EndEvent)
    requires On(c, d, es, h) && EndEnabled(d, e)
    ensures Inv(NextEnd(d, e)) && NextEnd(d, e) == After(c, es + [End(e)])
  {
    Advance(c, d, es, h, End(e));
    hide On, Inv, After, NextEnd, EndEnabled;
  }

  lemma CloseHolds(d: Controller, h: Hold, uncertain: bool, other: bool)
    requires h.Draining? && !h.drain.closed && Holds(h, d)
    ensures EndEnabled(d, CloseDrained(uncertain, other))
    ensures var r := NextEnd(d, CloseDrained(uncertain, other));
            && r.slots.draining.Some? && r.slots.draining.value.closed
            && r.slots.draining.value.runtime.token == h.drain.runtime.token
            && Holds(h.(drain := r.slots.draining.value), r)
  {
    hide LetGo;
  }

  lemma FinishHolds(d: Controller, h: Hold)
    requires Inv(d) && h.Draining? && h.drain.closed && Holds(h, d)
    ensures EndEnabled(d, FinishDrain)
    ensures var r, t := NextEnd(d, FinishDrain), h.drain.runtime.token;
            && Departed(r, t) && Shut(r, t) && (h.drain.broken ==> r.failure.Some?)
            && (h.inLogout ==> Holds(LoggedOut(t, true), r))
  {
    hide EpochOk, LeasesOk, FailureOk, PoisonOk, CallsOk, SeatsOk, SpentOk;
  }

  /** The teardown that follows a detach: close, then finishRuntimeDrain. */
  method DrainOwn(k: RuntimeController, h: Hold, ghost c: Controller, ghost es: seq<Event>)
      returns (failed: bool, ghost es': seq<Event>)
    requires h.Draining? && !h.drain.closed && On(c, k.Snapshot(), es, h)
    modifies k
    ensures var t := h.drain.runtime.token;
            && On(c, k.Snapshot(), es', Finished(t, failed, true))
            && (h.inLogout ==> Holds(LoggedOut(t, true), k.Snapshot()))
  {
    hide Inv, After, Step, Departed, NextEnd, EndEnabled;
    ghost var d := k.Snapshot();
    var uncertain: bool, other: bool := *, *;
    CloseHolds(d, h, uncertain, other);
    EndTaken(c, d, es, h, CloseDrained(uncertain, other));
    k.CloseDrained(uncertain, other);
    es' := es + [End(CloseDrained(uncertain, other))];
    var closed := h.(drain := k.draining.value);
    es' := Others(k, c, es', closed);
    d := k.Snapshot();
    FinishHolds(d, closed);
    EndTaken(c, d, es', closed, FinishDrain);
    k.FinishRuntimeDrain();
    es' := es' + [End(FinishDrain)];
    failed := closed.drain.broken;
  }

  // ---------------------------------------------------------------- AbandonRuntime

  datatype AbandonResult =
    | Receipt                     // the token was already closed and receipted
    | Pending                     // its preparation is still acquiring
    | CustodyHeld                 // its custody is active: the caller settles it
    | PreparationGone(failed: bool)
    | Quarantined                 // its candidate is marked and unwinds itself
    | RuntimeClosed(failed: bool)
    | NoSlot
    | AbandonWaiting

  lemma AbandonHolds(c: Controller, d: Controller, es: seq<Event>, token: nat)
    requires On(c, d, es, Nothing) && token != 0
    ensures var r := NextAbandon(d, token);
            Inv(r) && r == After(c, es + [End(Abandon(token))]) && Blocked(r, token) && SlotsOk(r.slots)
  {
    Advance(c, d, es, Nothing, End(Abandon(token)));
    AbandonBlocks(d, token);
    assert Step(d, End(Abandon(token))) == NextAbandon(d, token) by { hide On, Inv, After, NextAbandon; }
    hide After, EpochOk, LeasesOk, TokensOk, FailureOk, PoisonOk, Step, NextAbandon, Blocked, SlotsOk;
  }

  lemma ForgetHolds(c: Controller, d: Controller, es: seq<Event>, token: nat, told: bool)
    requires On(c, d, es, Finished(token, told, true)) && token != 0
    ensures StartEnabled(d, Forget(token))
    ensures On(c, NextStart(d, Forget(token)), es + [Start(Forget(token))], Finished(token, told, true))
  {
    Advance(c, d, es, Finished(token, told, true), Start(Forget(token)));
    OthersKeep(Finished(token, told, true), d, Start(Forget(token)));
    assert Step(d, Start(Forget(token))) == NextStart(d, Forget(token));
    hide Inv, After, Step, NextStart;
  }

  /** The last section of an abandonment: the tombstone goes, and the token stays out without it. */
  method TakeBack(k: RuntimeController, token: nat, told: bool, ghost c: Controller, ghost es: seq<Event>)
      returns (ghost es': seq<Event>)
    requires token != 0 && On(c, k.Snapshot(), es, Finished(token, told, true))
    modifies k
    ensures On(c, k.Snapshot(), es', Finished(token, told, true)) && token !in k.abandonedTokens
  {
    es' := Others(k, c, es, Finished(token, told, true));
    ForgetHolds(c, k.Snapshot(), es', token, told);
    hide Inv, After, Departed, StartEnabled;
    k.ForgetToken(token);
    es' := es' + [Start(Forget(token))];
  }

  /** Abandonment of a preparation: wait for the operation in flight, then finish it unless it is not ours to finish. */
  method AbandonPreparation(k: RuntimeController, h: Hold, ghost c: Controller, ghost es: seq<Event>)
      returns (r: AbandonResult, ghost es': seq<Event>)
    requires h.Abandoned? && h.owner != 0 && On(c, k.Snapshot(), es, h) && Blocked(k.Snapshot(), h.owner)
    modifies k
    ensures On(c, k.Snapshot(), es', Nothing)
    ensures r.Pending? || r.CustodyHeld? || r.PreparationGone? || r.AbandonWaiting?
    ensures !r.AbandonWaiting? ==> Over(k.Snapshot(), h.owner)
    ensures r.PreparationGone? ==> Departed(k.Snapshot(), h.owner) && Shut(k.Snapshot(), h.owner)
    ensures r.PreparationGone? && r.failed ==> k.cleanupFailure.Some?
  {
    hide Inv, After, Over, Gone;
    es' := Others(k, c, es, h);
    AbandonedIsOver(c, k.Snapshot(), es', h);
    var p := k.persistentPreparation;
    if p.Some? && p.value.serial == h.serial {
      if !p.value.settled { return Pending, es'; }
      if p.value.custodyActive { return CustodyHeld, es'; }
      if p.value.busy { return AbandonWaiting, es'; }
    }
    es' := Others(k, c, es', h);
    var finish;
    finish, es' := FinishOrJoin(k, h, Abandoner, c, es');
    if finish.FinishWaiting? { return AbandonWaiting, es'; }
    var failed := finish.FinishedHere? && finish.failed;
    es' := TakeBack(k, h.owner, failed, c, es');
    return PreparationGone(failed), es';
  }

  /** An abandoned preparation keeps its token out while it waits for its finisher. */
  lemma AbandonedIsOver(c: Controller, d: Controller, es: seq<Event>, h: Hold)
    requires h.Abandoned? && On(c, d, es, h)
    ensures Over(d, h.owner)
  {
    hide After, EpochOk, LeasesOk, FailureOk, PoisonOk, CallsOk, SeatsOk, SpentOk;
  }

  /**
   AbandonRuntime. Whatever it found and whatever the other threads did, once it
   returns the token can never be published, and it is not current unless a
   receipt says that its end was already reported.
   */
  method AbandonRuntime(k: RuntimeController, token: nat) returns (r: AbandonResult, ghost es: seq<Event>)
    requires Inv(k.Snapshot())
    modifies k
    ensures On(old(k.Snapshot()), k.Snapshot(), es, Nothing)
    ensures token != 0 && !r.AbandonWaiting? ==> Blocked(k.Snapshot(), token)
    ensures token != 0 && !r.AbandonWaiting? && !r.Receipt? ==> Over(k.Snapshot(), token)
    ensures r.PreparationGone? || r.RuntimeClosed? ==> Gone(k.Snapshot(), token) && Shut(k.Snapshot(), token)
    ensures (r.PreparationGone? || r.RuntimeClosed?) && r.failed ==> k.cleanupFailure.Some?
  {
    ghost var c := k.Snapshot();
    Here(c);
    es := [];
    if token == 0 { return NoSlot, es; }
    hide Inv, After, Blocked, Gone, NextAbandon, Step;
    var passes: nat := *;
    while passes > 0
      invariant On(c, k.Snapshot(), es, Nothing)
    {
      var joined;
      r, joined, es := AbandonOnce(k, token, c, es);
      if !joined { return; }
      es := Others(k, c, es, Nothing);
      passes := passes - 1;
    }
    return AbandonWaiting, es;
  }

  /** One pass with what follows it; `joined` if the pass has to be made again after a wait. */
  method AbandonOnce(k: RuntimeController, token: nat, ghost c: Controller, ghost es: seq<Event>)
      returns (r: AbandonResult, joined: bool, ghost es': seq<Event>)
    requires token != 0 && On(c, k.Snapshot(), es, Nothing)
    modifies k
    ensures On(c, k.Snapshot(), es', Nothing)
    ensures !joined && !r.AbandonWaiting? ==> Blocked(k.Snapshot(), token)
    ensures !joined && !r.AbandonWaiting? && !r.Receipt? ==> Over(k.Snapshot(), token)
    ensures !joined && (r.PreparationGone? || r.RuntimeClosed?) ==>
      Gone(k.Snapshot(), token) && Shut(k.Snapshot(), token)
    ensures !joined && (r.PreparationGone? || r.RuntimeClosed?) && r.failed ==> k.cleanupFailure.Some?
  {
    hide Inv, After, Blocked, Gone, NextAbandon, Step;
    ghost var d := k.Snapshot();
    AbandonHolds(c, d, es, token);
    var pass := k.Abandon(token);
    es' := es + [End(Abandon(token))];
    match pass
    case TookReceipt => return Receipt, false, es';
    case Join => return NoSlot, true, es';
    case QuarantinedCandidate => return Quarantined, false, es';
    case Unmatched(_) => return NoSlot, false, es';
    case OwnsPreparation =>
      r, es' := AbandonPreparation(k, Abandoned(k.persistentPreparation.value.serial, token), c, es');
      return r, false, es';
    case Detached =>
      var failed;
      failed, es' := DrainOwn(k, Draining(k.draining.value, false), c, es');
      es' := TakeBack(k, token, failed, c, es');
      return RuntimeClosed(failed), false, es';
  }

  // -------------------------------------------------------------------- CloseRuntime

  /** The runtime of this token is not being drained. */
  predicate Drained(s: Slots, token: nat)
  {
    !(s.draining.Some? && s.draining.value.runtime.token == token)
  }

  datatype CloseResult = CloseUnmatched | CloseDone(failed: bool) | CloseJoined | CloseWaiting

  /** A runtime that is being logged out or drained is on its way out for good. */
  lemma DownHolds(r: Controller, token: nat)
    requires Inv(r)
    ensures && (LogoutOf(r.slots, token) ==> Holds(Departing(token), r))
            && (r.slots.draining.Some? && r.slots.draining.value.runtime.token == token ==>
                Holds(Finished(token, false, false), r))
            && (r.slots.candidate.Some? || r.slots.draining.Some? ==> r.slots.current.None?)
  {
    hide EpochOk, LeasesOk, FailureOk, PoisonOk, CallsOk, SeatsOk, SpentOk;
  }

  /** The wait for a logout or for a drain that somebody else started. */
  method JoinClose(k: RuntimeController, token: nat, logout: bool, ghost c: Controller, ghost es: seq<Event>)
      returns (over: bool, ghost es': seq<Event>)
    requires On(c, k.Snapshot(), es, if logout then Departing(token) else Finished(token, false, false))
    modifies k
    ensures On(c, k.Snapshot(), es', Nothing)
    ensures over ==> Over(k.Snapshot(), token) && Drained(k.TheSlots(), token)
  {
    hide Inv, After, Blocked, Gone;
    es' := Others(k, c, es, if logout then Departing(token) else Finished(token, false, false));
    if logout {
      over := k.logout.None? || k.logout.value.token != token;
    } else {
      over := k.draining.None? || k.draining.value.runtime.token != token;
    }
  }

  /** CloseRuntime: once it returns, the token's runtime is not current. */
  method CloseRuntime(k: RuntimeController, token: nat) returns (r: CloseResult, ghost es: seq<Event>)
    requires Inv(k.Snapshot())
    modifies k
    ensures On(old(k.Snapshot()), k.Snapshot(), es, Nothing)
    ensures token != 0 && !r.CloseWaiting? ==> !IsCurrent(k.TheSlots(), token)
    ensures r.CloseDone? || r.CloseJoined? ==> Over(k.Snapshot(), token) && Drained(k.TheSlots(), token)
    ensures r.CloseDone? && r.failed ==> k.cleanupFailure.Some?
  {
    ghost var c := k.Snapshot();
    Here(c);
    es := [];
    if token == 0 { return CloseUnmatched, es; }
    hide Inv, After, Blocked, Gone, Step;
    var passes: nat := *;
    while passes > 0
      invariant On(c, k.Snapshot(), es, Nothing)
    {
      var again;
      r, again, es := CloseOnce(k, token, c, es);
      if !again { return; }
      es := Others(k, c, es, Nothing);
      passes := passes - 1;
    }
    return CloseWaiting, es;
  }

  method CloseOnce(k: RuntimeController, token: nat, ghost c: Controller, ghost es: seq<Event>)
      returns (r: CloseResult, again: bool, ghost es': seq<Event>)
    requires token != 0 && On(c, k.Snapshot(), es, Nothing)
    modifies k
    ensures On(c, k.Snapshot(), es', Nothing)
    ensures !again && !r.CloseWaiting? ==> !IsCurrent(k.TheSlots(), token)
    ensures !again && (r.CloseDone? || r.CloseJoined?) ==> Over(k.Snapshot(), token) && Drained(k.TheSlots(), token)
    ensures !again && r.CloseDone? && r.failed ==> k.cleanupFailure.Some?
  {
    hide Inv, After, Blocked, Gone, Step;
    Advance(c, k.Snapshot(), es, Nothing, End(Down(token)));
    var detached := k.CloseRuntime(token, false);
    DownHolds(k.Snapshot(), token);
    es' := es + [End(Down(token))];
    if detached {
      var failed;
      failed, es' := DrainOwn(k, Draining(k.draining.value, false), c, es');
      return CloseDone(failed), false, es';
    }
    var over, inLogout := false, k.logout.Some? && k.logout.value.token == token;
    if inLogout || (k.candidate.None? && k.draining.Some? && k.draining.value.runtime.token == token) {
      over, es' := JoinClose(k, token, inLogout, c, es');
      return if over then CloseJoined else CloseWaiting, false, es';
    }
    return CloseUnmatched, k.candidate.Some? && k.candidate.value.token == token, es';
  }

  // ---------------------------------------------------------------------- logout

  datatype LogoutResult = LogoutRefused | LogoutDone(failed: bool) | LogoutWaiting

  lemma LogoutBegins(c: Controller, r: Runtime)
    requires Inv(c) && EndEnabled(c, BeginLogout) && c.slots.current == Some(r)
    ensures On(c, NextEnd(c, BeginLogout), [End(BeginLogout)], LoggingOut(r.token))
  {
    Here(c);
    EndTaken(c, c, [], Nothing, BeginLogout);
    assert [] + [End(BeginLogout)] == [End(BeginLogout)];
    hide Inv, After;
  }

  lemma LogoutHolds(d: Controller, token: nat)
    requires Inv(d) && Holds(LoggingOut(token), d)
    ensures var r := Step(d, End(LogoutDown)); Holds(LoggedOut(token, r.slots.draining.None?), r)
  {
    hide EpochOk, LeasesOk, TokensOk, FailureOk, PoisonOk;
  }

  lemma LogoutEnds(d: Controller, token: nat)
    requires Inv(d) && Holds(LoggedOut(token, true), d)
    ensures EndEnabled(d, FinishLogout)
    ensures var r := NextEnd(d, FinishLogout);
            && Over(r, token) && r.slots.logout.None? && r.slots.draining.None? && token in r.tokens.receipts
            && (d.failure.Some? ==> r.failure.Some?)
  {
    hide EpochOk, LeasesOk, FailureOk, PoisonOk, CallsOk, SeatsOk, SpentOk;
  }

  /** closeRuntimeForLogout: the owner detaches its runtime, or joins whoever detached it first. */
  method CloseForLogout(k: RuntimeController, token: nat, ghost c: Controller, ghost es: seq<Event>)
      returns (over: bool, failed: bool, ghost es': seq<Event>)
    requires token != 0 && On(c, k.Snapshot(), es, LoggingOut(token))
    modifies k
    ensures On(c, k.Snapshot(), es', LoggedOut(token, over))
    ensures failed ==> k.cleanupFailure.Some?
  {
    hide Inv, After, Departed, Step;
    LogoutHolds(k.Snapshot(), token);
    Advance(c, k.Snapshot(), es, LoggingOut(token), End(LogoutDown));
    var detached := k.CloseRuntime(token, true);
    es' := es + [End(LogoutDown)];
    failed, over := false, k.draining.None?;
    if detached {
      failed, es' := DrainOwn(k, Draining(k.draining.value, true), c, es');
      over := true;
    } else if k.draining.Some? {
      es' := Others(k, c, es', LoggedOut(token, false));
      over := k.draining.None?;
    }
  }

  /**
   The controller's part of logout: the runtime is reserved, revoked, closed and
   receipted. Whoever detached it, the token is out once the call returns.
   */
  method LogoutRuntime(k: RuntimeController, mine: Runtime, cancelled: bool)
      returns (r: LogoutResult, ghost es: seq<Event>)
    requires Inv(k.Snapshot())
    modifies k
    ensures On(old(k.Snapshot()), k.Snapshot(), es, Nothing)
    ensures r.LogoutDone? ==>
      && k.logout.None? && k.draining.None? && mine.token in k.completedLifecycle
      && Over(k.Snapshot(), mine.token)
    ensures r.LogoutDone? && r.failed ==> k.cleanupFailure.Some?
    ensures r.LogoutRefused? ==> k.Snapshot() == old(k.Snapshot())
  {
    ghost var c := k.Snapshot();
    Here(c);
    es := [];
    var begun := k.BeginLogout(mine, cancelled);
    if begun.Refuse? { return LogoutRefused, es; }
    LogoutBegins(c, mine);
    es := [End(BeginLogout)];
    hide Inv, After, Over, NextEnd, EndEnabled, Step;
    es := Others(k, c, es, LoggingOut(mine.token));
    var over, failed;
    over, failed, es := CloseForLogout(k, mine.token, c, es);
    if !over { return LogoutWaiting, es; }
    LogoutEnds(k.Snapshot(), mine.token);
    EndTaken(c, k.Snapshot(), es, LoggedOut(mine.token, true), FinishLogout);
    k.FinishLogout();
    es := es + [End(FinishLogout)];
    return LogoutDone(failed), es;
  }

  // ------------------------------------------------------------------ FinishCustody

  datatype CustodyResult = CustodyRefused | CustodyFailed | CustodyFinished(failed: bool) | CustodyWaiting

  /** The checks of FinishCustody on the preparation of this token. */
  predicate AwaitsCustody(c: Controller, token: nat)
  {
    && c.slots.preparation.Some? && c.slots.preparation.value.token == token
    && c.slots.preparation.value.abandoned && c.slots.preparation.value.custodyActive
    && !c.slots.preparation.value.busy
  }

  lemma Fetches(d: Controller, token: nat)
    requires AwaitsCustody(d, token)
    ensures PrepEnabled(d, FetchFailedCustody)
    ensures Holds(Fetched(d.slots.preparation.value.serial), NextPrep(d, FetchFailedCustody))
  {
  }

  /**
   FinishCustody. A compensation that was not confirmed is always recorded as a
   failure; a confirmed one releases the preparation, and its token is out.
   */
  method FinishCustody(k: RuntimeController, token: nat, succeeded: bool)
      returns (r: CustodyResult, ghost es: seq<Event>)
    requires Inv(k.Snapshot())
    modifies k
    ensures On(old(k.Snapshot()), k.Snapshot(), es, Nothing)
    ensures r.CustodyRefused? <==> !AwaitsCustody(old(k.Snapshot()), token)
    ensures r.CustodyFailed? <==> AwaitsCustody(old(k.Snapshot()), token) && !succeeded
    ensures r.CustodyRefused? ==> k.Snapshot() == old(k.Snapshot())
    ensures r.CustodyFailed? ==> k.cleanupFailure.Some?
    ensures r.CustodyFinished? ==>
      Departed(k.Snapshot(), token) && Shut(k.Snapshot(), token) && (r.failed ==> k.cleanupFailure.Some?)
  {
    ghost var c := k.Snapshot();
    Here(c);
    es := [];
    if !AwaitsCustody(k.Snapshot(), token) { return CustodyRefused, es; }
    var n := k.persistentPreparation.value.serial;
    hide Inv, After, Step, Departed, NextPrep;
    if !succeeded {
      Fetches(c, token);
      Taken(c, c, [], Nothing, FetchFailedCustody);
      var fetched := k.FinishCustodyFailed(token);
      es := [] + [Prep(FetchFailedCustody)];
      es := Others(k, c, es, Fetched(n));
      assert PrepEnabled(k.Snapshot(), RecordFailedCustody(n));
      Taken(c, k.Snapshot(), es, Fetched(n), RecordFailedCustody(n));
      k.RecordFailedCustody(n);
      return CustodyFailed, es + [Prep(RecordFailedCustody(n))];
    }
    es := Others(k, c, es, Abandoned(n, token));
    var finish;
    finish, es := FinishOrJoin(k, Abandoned(n, token), Custodian, c, es);
    if finish.FinishWaiting? { return CustodyWaiting, es; }
    return CustodyFinished(finish.FinishedHere? && finish.failed), es;
  }

  // ---------------------------------------------------------- quarantine and stop

  lemma Drains(c: Controller, d: Controller, es: seq<Event>, e: EndEvent)
    requires On(c, d, es, Nothing)
    ensures Inv(Step(d, End(e))) && Step(d, End(e)) == After(c, es + [End(e)])
  {
    Advance(c, d, es, Nothing, End(e));
    hide On, Inv, After, Step;
  }

  /** A publication failure: exactly the given runtime is detached and drained, or nothing happens. */
  method QuarantineRuntime(k: RuntimeController, mine: Runtime)
      returns (owned: bool, failed: bool, ghost es: seq<Event>)
    requires Inv(k.Snapshot())
    modifies k
    ensures On(old(k.Snapshot()), k.Snapshot(), es, Nothing)
    ensures owned <==> old(k.current).Some? && old(k.current).value.serial == mine.serial
    ensures owned ==>
      && Over(k.Snapshot(), old(k.current).value.token) && Drained(k.TheSlots(), old(k.current).value.token)
      && (failed ==> k.cleanupFailure.Some?)
    ensures !owned ==> k.Snapshot() == old(k.Snapshot())
  {
    ghost var c := k.Snapshot();
    Here(c);
    Drains(c, c, [], Quarantine(mine.serial));
    es, failed := [], false;
    owned := k.QuarantineDetach(mine);
    if owned {
      hide Inv, After, Step, Blocked, Gone;
      failed, es := DrainOwn(k, Draining(k.draining.value, false), c, [] + [End(Quarantine(mine.serial))]);
    }
  }

  /** closeCurrentRuntime: it drains the runtime it finds, joins an end under way, or finds nothing to stop. */
  method StopRuntime(k: RuntimeController) returns (r: CloseResult, token: nat, ghost es: seq<Event>)
    requires Inv(k.Snapshot())
    modifies k
    ensures On(old(k.Snapshot()), k.Snapshot(), es, Nothing)
    ensures r.CloseUnmatched? ==> k.current.None? && k.candidate.None? && k.draining.None? && k.logout.None?
    ensures r.CloseDone? ==>
      Over(k.Snapshot(), token) && Drained(k.TheSlots(), token) && (r.failed ==> k.cleanupFailure.Some?)
  {
    ghost var c := k.Snapshot();
    Here(c);
    es, token := [], 0;
    hide Inv, After, Over, Step;
    var passes: nat := *;
    while passes > 0
      invariant On(c, k.Snapshot(), es, Nothing)
    {
      var again;
      r, token, again, es := StopOnce(k, c, es);
      if !again { return; }
      passes := passes - 1;
    }
    return CloseWaiting, token, es;
  }

  method StopOnce(k: RuntimeController, ghost c: Controller, ghost es: seq<Event>)
      returns (r: CloseResult, token: nat, again: bool, ghost es': seq<Event>)
    requires On(c, k.Snapshot(), es, Nothing)
    modifies k
    ensures On(c, k.Snapshot(), es', Nothing)
    ensures !again && r.CloseUnmatched? ==> k.current.None? && k.candidate.None? && k.draining.None? && k.logout.None?
    ensures !again && r.CloseDone? ==>
      Over(k.Snapshot(), token) && Drained(k.TheSlots(), token) && (r.failed ==> k.cleanupFailure.Some?)
  {
    hide Inv, After, Blocked, Gone, Step;
    Drains(c, k.Snapshot(), es, Stop);
    var detached := k.StopCurrent();
    es' := es + [End(Stop)];
    token, again := 0, false;
    if detached {
      token := k.draining.value.runtime.token;
      var failed;
      failed, es' := DrainOwn(k, Draining(k.draining.value, false), c, es');
      return CloseDone(failed), token, false, es';
    }
    if k.logout.None? && k.candidate.None? && k.draining.None? { return CloseUnmatched, token, false, es'; }
    again := k.logout.None? && k.candidate.Some?;
    es' := Others(k, c, es', Nothing);
    return if k.logout.None? && k.draining.None? then CloseJoined else CloseWaiting, token, again, es';
  }
}
