/**
 What a call of the controller keeps hold of between its critical sections,
 while every other thread of the process does anything but the call's own steps.
 */
module ControllerCalls {
  import opened Basics
  import opened Lifecycle
  import opened LifecycleInvariant
  import opened LifecycleTheorems
  import opened RuntimeControllers

  datatype Hold =
    | Nothing
    | Finished(out: nat, told: bool, shut: bool)             // the token is out for good
    | Calling(call: nat, phase: Phase, from: seq<Published>) // a start call at this phase, nothing published
    | Opening(serial: nat, owner: nat)                       // a preparation whose lease is being acquired
    | Undoing(serial: nat, owner: nat, doubtful: bool)       // one that its opening call has to finish or join
    | Abandoned(serial: nat, owner: nat)                     // one that was abandoned
    | Closing(serial: nat, owner: nat, stage: PrepStage, doubtful: bool, told: bool)
    | Fetched(serial: nat)                                   // its failed compensation passed the checks
    | Draining(drain: Drain, inLogout: bool)
    | LoggingOut(owner: nat)
    | LoggedOut(owner: nat, drained: bool)                   // the logout still stands, its runtime was detached
    | Departing(owner: nat)                                  // logged out by someone else
    | Resetting(op: ResetOp, leases: Leases, told: bool)

  /** Nothing was published under this token since. */
  predicate Unpublished(from: seq<Published>, ever: seq<Published>, token: nat)
  {
    from <= ever && forall i :: |from| <= i < |ever| ==> ever[i].token != token
  }

  predicate Prepares(c: Controller, serial: nat)
  {
    c.slots.preparation.Some? && c.slots.preparation.value.serial == serial
  }

  /** The token is out for good, and a tombstone of it may be forgotten. */
  predicate Departed(c: Controller, token: nat)
  {
    Over(c, token) && Gone(c, token)
  }

  /** No preparation and no drain of this token is left. */
  predicate Shut(c: Controller, token: nat)
  {
    && !(c.slots.preparation.Some? && c.slots.preparation.value.token == token)
    && !(c.slots.draining.Some? && c.slots.draining.value.runtime.token == token)
  }

  /** The preparation with this serial was finished, and its token is out. */
  predicate Undone(c: Controller, serial: nat, owner: nat)
  {
    !Prepares(c, serial) && serial < c.serial && Departed(c, owner) && Shut(c, owner)
  }

  /** Somebody other than the opening call claimed the finish. */
  predicate ClaimedElsewhere(c: Controller, serial: nat)
  {
    serial in c.custody.claims && c.custody.claims[serial] != Opener
  }

  ghost predicate Holds(h: Hold, c: Controller)
  {
    match h
    case Nothing => true
    case Finished(token, told, shut) =>
      Departed(c, token) && (told ==> c.failure.Some?) && (shut ==> Shut(c, token))
    case Calling(token, phase, from) =>
      PhaseOf(c.tokens, token) == phase && InCall(phase) && Unpublished(from, c.ever, token)
    case Opening(n, t) => Prepares(c, n) && !c.slots.preparation.value.settled && c.slots.preparation.value.token == t
    case Undoing(n, t, doubtful) =>
      if Prepares(c, n) then
        var p := c.slots.preparation.value;
        && p.token == t && p.settled && p.opening && p.doubtful == doubtful
        && (p.stage == Living || ClaimedElsewhere(c, n))
      else Undone(c, n, t) && ClaimedElsewhere(c, n)
    case Abandoned(n, t) =>
      if Prepares(c, n) then c.slots.preparation.value.token == t && c.slots.preparation.value.abandoned
      else Undone(c, n, t)
    case Closing(n, t, stage, doubtful, told) =>
      && Prepares(c, n) && c.slots.preparation.value.token == t
      && stage != Living && c.slots.preparation.value.stage == stage
      && c.slots.preparation.value.doubtful == doubtful && (told ==> c.failure.Some?)
    case Fetched(n) => n in c.custody.fetched
    case Draining(drain, inLogout) =>
      c.slots.draining == Some(drain) && (inLogout ==> LogoutOf(c.slots, drain.runtime.token))
    case LoggingOut(t) => LogoutOf(c.slots, t)
    case LoggedOut(t, drained) =>
      LogoutOf(c.slots, t) && c.slots.current.None? && (drained ==> c.slots.draining.None?)
    case Departing(t) => LogoutOf(c.slots, t) || (Departed(c, t) && Shut(c, t))
    case Resetting(op, leases, told) =>
      && c.slots.reset == Some(op) && op.stage != Ready && op.stage != Stuck
      && c.leases == leases && (told ==> c.failure.Some?)
  }

  /** The steps that only the holder takes. */
  predicate Owns(h: Hold, e: Event)
  {
    match h
    case Calling(token, _, _) => e.Start? && e.s.token == token
    case Opening(_, _) => e.Prep? && e.p.Settled?
    case Undoing(_, _, _) => e == Prep(FinishPreparation(Opener))
    case Closing(_, _, _, _, _) =>
      e.Prep? && (e.p.ReleasePreparation? || e.p.ReportPreparation? || e.p.ClearPreparation?)
    case Draining(_, inLogout) =>
      e.End? && (e.e.CloseDrained? || e.e.FinishDrain? || (inLogout && (e.e.LogoutDown? || e.e.FinishLogout?)))
    case LoggingOut(_) => e.End? && (e.e.LogoutDown? || e.e.FinishLogout?)
    case LoggedOut(_, _) => e.End? && (e.e.LogoutDown? || e.e.FinishLogout?)
    case Resetting(_, _, _) => e.Reset? && !e.r.BeginReset? && !e.r.FinishReset?
    case _ => false
  }

  // --------------------------------------------------- what others leave alone

  /** No other thread moves the dispatch of a token whose start call is running. */
  lemma OthersKeepPhase(c: Controller, e: Event, token: nat)
    requires !(e.Start? && e.s.token == token) && InCall(PhaseOf(c.tokens, token))
    ensures PhaseOf(Step(c, e).tokens, token) == PhaseOf(c.tokens, token)
  {
    hide LetGo, Acquire;
  }

  lemma KeepsCalling(h: Hold, c: Controller, e: Event)
    requires Inv(c) && h.Calling? && Holds(h, c) && !Owns(h, e)
    ensures Holds(h, Step(c, e))
  {
    OthersKeepPhase(c, e, h.call);
    StepPublishes(c, e);
    hide Step, Inv;
  }

  lemma PrepKeepsGone(c: Controller, e: PrepEvent, token: nat)
    requires PrepEnabled(c, e) && Gone(c, token)
    ensures Gone(NextPrep(c, e), token)
  {
    hide LetGo, Acquire, Live, MayClaim, Reportable;
  }

  lemma StartKeepsGone(c: Controller, e: StartEvent, token: nat)
    requires SlotsOk(c.slots) && OwnersOk(c) && StartEnabled(c, e) && Gone(c, token)
    ensures Gone(NextStart(c, e), token)
  {
    hide LetGo, Acquire;
  }

  lemma EndKeepsGone(c: Controller, e: EndEvent, token: nat)
    requires EndEnabled(c, e) && Gone(c, token)
    ensures Gone(NextEnd(c, e), token)
  {
    hide LetGo;
  }

  lemma ResetKeepsGone(c: Controller, e: ResetEvent, token: nat)
    requires ResetEnabled(c, e) && Gone(c, token)
    ensures Gone(NextReset(c, e), token)
  {
    hide LetGo, Acquire;
  }

  lemma StepKeepsGone(c: Controller, e: Event, token: nat)
    requires Inv(c) && Gone(c, token)
    ensures Gone(Step(c, e), token)
  {
    hide NextPrep, NextStart, NextEnd, NextReset, PrepEnabled, StartEnabled, EndEnabled, ResetEnabled,
      SlotsOk, OwnersOk, Gone;
    if Enabled(c, e) {
      match e
      case Prep(p) => PrepKeepsGone(c, p, token);
      case Start(s) => StartKeepsGone(c, s, token);
      case End(x) => EndKeepsGone(c, x, token);
      case Reset(r) => ResetKeepsGone(c, r, token);
    }
  }

  lemma StepKeepsDeparted(c: Controller, e: Event, token: nat)
    requires Inv(c) && Departed(c, token)
    ensures Departed(Step(c, e), token)
  {
    StepKeepsOver(c, e, token);
    StepKeepsGone(c, e, token);
    hide Step, Over, Gone;
  }

  lemma StepKeepsDrained(c: Controller, e: Event, token: nat)
    requires !IsCurrent(c.slots, token)
    requires !(c.slots.draining.Some? && c.slots.draining.value.runtime.token == token)
    ensures var d := Step(c, e).slots.draining; !(d.Some? && d.value.runtime.token == token)
  {
    hide LetGo, Acquire, NextStart, StartEnabled;
    if e.Start? && StartEnabled(c, e.s) { StartKeepsDrain(c, e.s); }
  }

  lemma StartKeepsDrain(c: Controller, e: StartEvent)
    requires StartEnabled(c, e)
    ensures NextStart(c, e).slots.draining == c.slots.draining
  {
  }

  lemma StepKeepsUnprepared(c: Controller, e: Event, token: nat)
    requires Inv(c) && Gone(c, token) && !(c.slots.preparation.Some? && c.slots.preparation.value.token == token)
    ensures var p := Step(c, e).slots.preparation; !(p.Some? && p.value.token == token)
  {
    if c.slots.preparation.Some? {
      StepCarries(c, e);
      hide Step, Inv;
    } else {
      StepOpens(c, e);
      hide Inv, Step;
    }
  }

  lemma StepKeepsShut(c: Controller, e: Event, token: nat)
    requires Inv(c) && Departed(c, token) && Shut(c, token)
    ensures Shut(Step(c, e), token)
  {
    StepKeepsDrained(c, e, token);
    StepKeepsUnprepared(c, e, token);
    hide Step, Inv;
  }

  lemma Departs(c: Controller, token: nat)
    requires Inv(c) && c.slots.preparation.Some? && c.slots.preparation.value.token == token
    ensures var r := c.(slots := c.slots.(preparation := None)); Departed(r, token) && Shut(r, token)
  {
    hide EpochOk, LeasesOk, FailureOk, PoisonOk;
  }

  lemma KeepsPreparation(h: Hold, c: Controller, e: Event)
    requires Inv(c) && (h.Opening? || h.Closing?) && Holds(h, c) && !Owns(h, e)
    ensures Holds(h, Step(c, e))
  {
    hide EpochOk, TokensOk, PoisonOk, ReleasedOnce, LetGo, Acquire;
  }

  /** What any event does to a preparation: it stays what it is until a finisher clears it or a start adopts it. */
  predicate Carries(c: Controller, r: Controller, e: Event)
    requires c.slots.preparation.Some?
  {
    var p, after := c.slots.preparation.value, r.slots.preparation;
    if after.None? then
      || (p.stage.Reported? && r == c.(slots := c.slots.(preparation := None)))
      || Adoptable(c.slots, p.token)
    else
      && after.value.serial == p.serial && after.value.token == p.token && (p.abandoned ==> after.value.abandoned)
      && (p.settled ==>
          after.value.settled && after.value.opening == p.opening && after.value.doubtful == p.doubtful)
      && (p.stage == Living && after.value.stage != Living ==>
          after.value.stage.Claimed? && e == Prep(FinishPreparation(after.value.stage.who)))
  }

  lemma PrepCarries(c: Controller, e: PrepEvent)
    requires SlotsOk(c.slots) && c.slots.preparation.Some? && PrepEnabled(c, e)
    ensures Carries(c, NextPrep(c, e), Prep(e))
  {
    hide LetGo, Acquire, Adoptable;
  }

  lemma StartCarries(c: Controller, e: StartEvent)
    requires Inv(c) && c.slots.preparation.Some? && StartEnabled(c, e)
    ensures Carries(c, NextStart(c, e), Start(e))
  {
    hide EpochOk, LeasesOk, CallsOk, SpentOk, FailureOk, PoisonOk, LetGo, Acquire;
  }

  lemma EndCarries(c: Controller, e: EndEvent)
    requires SlotsOk(c.slots) && c.slots.preparation.Some? && EndEnabled(c, e)
    ensures Carries(c, NextEnd(c, e), End(e))
  {
    hide LetGo, Adoptable;
  }

  lemma ResetCarries(c: Controller, e: ResetEvent)
    requires SlotsOk(c.slots) && c.slots.preparation.Some? && ResetEnabled(c, e)
    ensures Carries(c, NextReset(c, e), Reset(e))
  {
    hide LetGo, Acquire, Adoptable;
  }

  lemma StepCarries(c: Controller, e: Event)
    requires Inv(c) && c.slots.preparation.Some?
    ensures Carries(c, Step(c, e), e)
  {
    if Enabled(c, e) {
      match e
      case Prep(p) => PrepCarries(c, p);
      case Start(s) => StartCarries(c, s);
      case End(x) => EndCarries(c, x);
      case Reset(r) => ResetCarries(c, r);
      hide Carries, NextPrep, NextStart, NextEnd, NextReset, PrepEnabled, StartEnabled, EndEnabled, ResetEnabled;
    }
  }

  lemma StepKeepsClaims(c: Controller, e: Event, n: nat)
    requires Inv(c) && n in c.custody.claims
    ensures n in Step(c, e).custody.claims && Step(c, e).custody.claims[n] == c.custody.claims[n]
  {
    hide EpochOk, LeasesOk, TokensOk, PoisonOk, LetGo, Acquire, NextStart, NextEnd, NextReset;
    if e.Start? { StartKeepsClaims(c, e.s); }
    if e.End? { EndKeepsClaims(c, e.e); }
    if e.Reset? { ResetKeepsClaims(c, e.r); }
  }

  lemma StepKeepsFetched(c: Controller, e: Event, n: nat)
    requires n in c.custody.fetched
    ensures n in Step(c, e).custody.fetched
  {
    hide LetGo, Acquire, NextStart, NextEnd, NextReset;
    if e.Start? { StartKeepsClaims(c, e.s); }
    if e.End? { EndKeepsClaims(c, e.e); }
    if e.Reset? { ResetKeepsClaims(c, e.r); }
  }

  lemma StartKeepsClaims(c: Controller, e: StartEvent)
    ensures StartEnabled(c, e) ==> NextStart(c, e).custody == c.custody
  {
  }

  lemma EndKeepsClaims(c: Controller, e: EndEvent)
    ensures EndEnabled(c, e) ==> NextEnd(c, e).custody == c.custody
  {
  }

  lemma ResetKeepsClaims(c: Controller, e: ResetEvent)
    ensures ResetEnabled(c, e) ==> NextReset(c, e).custody == c.custody
  {
  }

  lemma KeepsEnding(h: Hold, c: Controller, e: Event)
    requires Inv(c) && (h.Undoing? || h.Abandoned?) && Holds(h, c) && !Owns(h, e)
    ensures Holds(h, Step(c, e))
  {
    StepKeepsInv(c, e);
    if h.serial in c.custody.claims { StepKeepsClaims(c, e, h.serial); }
    if Prepares(c, h.serial) {
      StepCarries(c, e);
      Departs(c, h.owner);
      hide Step, Departed, Shut, EpochOk, LeasesOk, TokensOk, PoisonOk, SlotsOk;
    } else {
      StepKeepsDeparted(c, e, h.owner);
      StepKeepsShut(c, e, h.owner);
      StepIsNotRevived(c, e, h.serial);
      hide Step, Departed, Inv, Shut;
    }
  }

  lemma StepDraws(c: Controller, e: Event)
    ensures c.serial <= Step(c, e).serial
  {
    hide LetGo, Acquire;
  }

  lemma StepOpens(c: Controller, e: Event)
    requires c.slots.preparation.None?
    ensures var p := Step(c, e).slots.preparation;
            p.None? || (&& p.value.serial == c.serial && e == Prep(BeginPreparation(p.value.token))
                        && PhaseOf(c.tokens, p.value.token) == Idle)
  {
    hide LetGo, Acquire;
  }

  /** A serial that was drawn is never given to a later preparation. */
  lemma StepIsNotRevived(c: Controller, e: Event, n: nat)
    requires Inv(c) && n < c.serial && !Prepares(c, n)
    ensures !Prepares(Step(c, e), n) && n < Step(c, e).serial
  {
    StepDraws(c, e);
    if c.slots.preparation.None? { StepOpens(c, e); } else { StepCarries(c, e); }
    hide Step, Inv;
  }

  lemma KeepsDraining(h: Hold, c: Controller, e: Event)
    requires Inv(c) && (h.Draining? || h.LoggingOut? || h.LoggedOut?) && Holds(h, c) && !Owns(h, e)
    ensures Holds(h, Step(c, e))
  {
    hide EpochOk, LeasesOk, TokensOk, FailureOk, PoisonOk, LetGo, Acquire;
  }

  lemma KeepsDeparting(h: Hold, c: Controller, e: Event)
    requires Inv(c) && h.Departing? && Holds(h, c)
    ensures Holds(h, Step(c, e))
  {
    if Departed(c, h.owner) && Shut(c, h.owner) {
      StepKeepsDeparted(c, e, h.owner);
      StepKeepsShut(c, e, h.owner);
      hide Step, Inv, Departed, Shut;
    } else {
      hide EpochOk, LeasesOk, FailureOk, PoisonOk, LetGo, Acquire, CallsOk, SeatsOk, SpentOk;
    }
  }

  lemma KeepsResetting(h: Hold, c: Controller, e: Event)
    requires Inv(c) && h.Resetting? && Holds(h, c) && !Owns(h, e)
    ensures Holds(h, Step(c, e))
  {
    hide EpochOk, LeasesOk, FailureOk, PoisonOk, LetGo, Acquire, CallsOk, SpentOk;
  }

  lemma OthersKeep(h: Hold, c: Controller, e: Event)
    requires Inv(c) && Holds(h, c) && !Owns(h, e)
    ensures Holds(h, Step(c, e))
  {
    match h
    case Nothing =>
    case Finished(t, told, shut) =>
      StepKeepsDeparted(c, e, t);
      if told { StepAdmitsNothing(c, e); }
      if shut { StepKeepsShut(c, e, t); }
      hide Step, Departed, Shut;
    case Calling(_, _, _) => KeepsCalling(h, c, e); hide Holds;
    case Opening(_, _) => KeepsPreparation(h, c, e); hide Holds;
    case Undoing(_, _, _) => KeepsEnding(h, c, e); hide Holds;
    case Abandoned(_, _) => KeepsEnding(h, c, e); hide Holds;
    case Closing(_, _, _, _, _) => KeepsPreparation(h, c, e); hide Holds;
    case Fetched(n) => StepKeepsFetched(c, e, n); hide Step;
    case Draining(_, _) => KeepsDraining(h, c, e); hide Holds;
    case LoggingOut(_) => KeepsDraining(h, c, e); hide Holds;
    case LoggedOut(_, _) => KeepsDraining(h, c, e); hide Holds;
    case Departing(_) => KeepsDeparting(h, c, e); hide Holds;
    case Resetting(_, _, _) => KeepsResetting(h, c, e); hide Holds;
  }

  // --------------------------------------------------------------- the run so far

  /** A call stands here: a run from where it began, with its hold. */
  ghost predicate On(c: Controller, d: Controller, es: seq<Event>, h: Hold)
  {
    Inv(c) && Inv(d) && d == After(c, es) && Holds(h, d)
  }

  /** A step of the call itself or of another thread. */
  lemma Advance(c: Controller, d: Controller, es: seq<Event>, h: Hold, e: Event)
    requires On(c, d, es, h)
    ensures Inv(Step(d, e)) && Step(d, e) == After(c, es + [e])
  {
    StepKeepsInv(d, e);
    AfterOne(c, es, e);
    hide Step, Inv, Holds;
  }

  lemma Here(c: Controller)
    requires Inv(c)
    ensures On(c, c, [], Nothing)
  {
  }

  /** Every other thread: any events but this call's own. */
  method Others(k: RuntimeController, ghost c: Controller, ghost es: seq<Event>, h: Hold)
      returns (ghost es': seq<Event>)
    requires On(c, k.Snapshot(), es, h)
    modifies k
    ensures On(c, k.Snapshot(), es', h)
  {
    hide Holds, Owns, Step, Inv, After;
    es' := es;
    var steps: nat := *;
    while steps > 0
      invariant On(c, k.Snapshot(), es', h)
    {
      var e: Event := *;
      if !Owns(h, e) {
        OthersKeep(h, k.Snapshot(), e);
        Advance(c, k.Snapshot(), es', h, e);
        k.Restore(Step(k.Snapshot(), e));
        es' := es' + [e];
      }
      steps := steps - 1;
    }
  }
}
