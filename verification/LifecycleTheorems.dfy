/** What the controller promises over every run. */
module LifecycleTheorems {
  import opened Basics
  import opened Lifecycle
  import opened LifecycleInvariant

  lemma InitialInv()
    ensures Inv(INITIAL)
  {
  }

  /**
   In every reachable state at most one of preparation, candidate, current,
   draining and reset is occupied, and a logout coexists only with the current
   or draining runtime of its own token.
   */
  lemma SlotsExclusive(es: seq<Event>)
    ensures var s := After(INITIAL, es).slots; Occupied(s) <= 1 && LogoutOk(s)
  {
    InitialInv();
    RunKeepsInv(INITIAL, es);
  }

  /**
   The current runtime carries the epoch, and no two runtimes that were ever
   current share a generation or a token.
   */
  lemma GenerationsUnique(es: seq<Event>)
    ensures var c := After(INITIAL, es);
            && (c.slots.current.Some? ==> c.slots.current.value.generation == c.epoch)
            && (forall i, j :: 0 <= i < j < |c.ever| ==> c.ever[i].generation < c.ever[j].generation <= c.epoch)
            && (forall i, j :: 0 <= i < j < |c.ever| ==> c.ever[i].token != c.ever[j].token)
  {
    hide After, SlotsOk, LeasesOk, TokensOk, FailureOk;
    InitialInv();
    RunKeepsInv(INITIAL, es);
    TokensPublishedOnce(es);
  }

  lemma {:induction false} TokensPublishedOnce(es: seq<Event>)
    ensures var c := After(INITIAL, es); forall i, j :: 0 <= i < j < |c.ever| ==> c.ever[i].token != c.ever[j].token
    decreases |es|
  {
    if es != [] {
      var before := After(INITIAL, es[..|es| - 1]);
      TokensPublishedOnce(es[..|es| - 1]);
      InitialInv();
      RunKeepsInv(INITIAL, es[..|es| - 1]);
      StepPublishes(before, es[|es| - 1]);
    }
  }

  /** Only a commit publishes, and it publishes the token whose dispatch was still holding a candidate. */
  lemma StepPublishes(c: Controller, e: Event)
    requires Inv(c)
    ensures Step(c, e).ever == c.ever
            || (&& e.Start? && e.s.Commit? && Commits(c, e.s.token) && !Spent(c.tokens, e.s.token)
                && Step(c, e).ever == c.ever + [Published(e.s.token, c.epoch)])
  {
    hide LeasesOk, FailureOk, PoisonOk, CallsOk, SpentOk, LetGo, Acquire;
  }

  // ------------------------------------------------------------------ leases

  function Held(lease: Option<nat>): (m: multiset<nat>)
  {
    if lease.None? then multiset{} else multiset{lease.value}
  }

  /** Every lease some slot owns, counted with multiplicity. */
  function Holders(s: Slots): (m: multiset<nat>)
  {
    (if s.preparation.None? then multiset{} else Held(s.preparation.value.lease))
    + (if s.candidate.None? then multiset{} else Held(s.candidate.value.lease))
    + (if s.current.None? then multiset{} else Held(s.current.value.lease))
    + (if s.draining.None? then multiset{} else Held(s.draining.value.runtime.lease))
    + (if s.reset.None? then multiset{} else Held(s.reset.value.lease))
  }

  lemma HoldersAreOwned(s: Slots)
    requires Occupied(s) <= 1
    ensures Holders(s) == Held(Owned(s))
  {
  }

  /** An event leaves the leases alone, acquires into a free admission, or releases the admitted lease. */
  predicate Moves(l: Leases, l': Leases)
  {
    || l' == l
    || l' == Acquire(l, Got, l'.doubt).0 || l' == Acquire(l, Uncertain, l'.doubt).0
    || l' == LetGo(l, Admitted(l), false, l'.doubt) || l' == LetGo(l, Admitted(l), true, l'.doubt)
  }

  lemma StepMovesLeases(c: Controller, e: Event)
    requires Inv(c)
    ensures Moves(c.leases, Step(c, e).leases)
  {
    hide EpochOk, TokensOk, FailureOk, PoisonOk, ReleasedOnce, ClosedOk, Admitted;
  }

  lemma StepKeepsLease(c: Controller, e: Event, lease: nat)
    requires Inv(c)
    ensures c.leases.released <= Step(c, e).leases.released
    ensures c.leases.admission == Taken(lease) ==>
      Step(c, e).leases.admission == Taken(lease) || lease in Step(c, e).leases.released
    ensures c.leases.admission == Poisoned ==> Step(c, e).leases == c.leases
  {
    StepMovesLeases(c, e);
    hide Step, Inv;
  }

  /**
   A lease that is held stays held by exactly one owner through every transfer
   until it is released, and is released at most once.
   */
  lemma {:induction false} LeaseLinear(c: Controller, es: seq<Event>, lease: nat)
    requires Inv(c) && c.leases.admission == Taken(lease)
    ensures var d := After(c, es);
            && (lease in d.leases.released
                || (d.leases.admission == Taken(lease) && Holders(d.slots) == multiset{lease}))
            && (lease in d.leases.released ==> lease !in Holders(d.slots))
            && (forall i, j :: 0 <= i < j < |d.leases.released| ==> d.leases.released[i] != d.leases.released[j])
    decreases |es|
  {
    hide Step;
    RunKeepsInv(c, es);
    HoldersAreOwned(After(c, es).slots);
    if es != [] {
      LeaseLinear(c, es[..|es| - 1], lease);
      RunKeepsInv(c, es[..|es| - 1]);
      StepKeepsLease(After(c, es[..|es| - 1]), es[|es| - 1], lease);
    }
  }

  /** After an uncertain release no lease on the root is ever held again. */
  lemma {:induction false} PoisonedForever(c: Controller, es: seq<Event>)
    requires Inv(c) && c.leases.admission == Poisoned
    ensures After(c, es).leases == c.leases && Holders(After(c, es).slots) == multiset{}
    decreases |es|
  {
    hide Step;
    RunKeepsInv(c, es);
    HoldersAreOwned(After(c, es).slots);
    if es != [] {
      PoisonedForever(c, es[..|es| - 1]);
      RunKeepsInv(c, es[..|es| - 1]);
      StepKeepsLease(After(c, es[..|es| - 1]), es[|es| - 1], 0);
    }
  }

  /** Every published runtime, ephemeral or not, owns the one lease that is held. */
  lemma CurrentOwnsTheLease(es: seq<Event>)
    requires After(INITIAL, es).slots.current.Some?
    ensures var c := After(INITIAL, es);
            c.slots.current.value.lease.Some? && c.leases.admission == Taken(c.slots.current.value.lease.value)
  {
    InitialInv();
    RunKeepsInv(INITIAL, es);
  }

  // ------------------------------------------------------------------ poison

  /** No error but a doubt about the lease: nothing else fails to close, and no custody is left unconfirmed. */
  predicate Quiet(e: Event)
  {
    match e
    case Prep(ReleasePreparation(_, other)) => !other
    case Prep(RecordFailedCustody(_)) => false
    case Start(CloseCandidate(_, _, other)) => !other
    case End(CloseDrained(_, other)) => !other
    case Reset(ReleaseReset(_, other)) => !other
    case Reset(ResetCloseFailed) => false
    case _ => true
  }

  /** The one who met the doubt, or a finisher who learned of it, can record it. */
  predicate Recordable(c: Controller)
  {
    match c.leases.doubt
    case NoDoubt => false
    case ResetAcquisition => false
    case PreparationAcquisition(n) => n in c.custody.claims && c.custody.claims[n] == Opener
    case _ => true
  }

  /** In quiet runs every error at hand is the doubt about the lease. */
  predicate QuietOk(c: Controller)
  {
    var s := c.slots;
    && (c.failure.Some? ==> c.leases.admission == Poisoned && Recordable(c))
    && (s.preparation.Some? && s.preparation.value.stage.Emptied? && s.preparation.value.stage.broken ==>
        c.leases.admission == Poisoned && c.leases.doubt == PreparationRelease)
    && (s.candidate.Some? ==>
        var phase := PhaseOf(c.tokens, s.candidate.value.token);
        (phase.Faulted? && phase.doubtful) || (phase.Unwinding? && phase.broken) ==>
          c.leases.admission == Poisoned
          && (c.leases.doubt == CandidateAcquisition || c.leases.doubt == CandidateRelease))
    && (s.draining.Some? && s.draining.value.broken ==>
        c.leases.admission == Poisoned && c.leases.doubt == DrainRelease)
    && (s.logout.Some? && s.logout.value.broken ==> c.failure.Some?)
    && (s.reset.Some? && s.reset.value.broken ==> c.leases.admission == Poisoned && c.leases.doubt == ResetRelease)
  }

  lemma PrepKeepsQuiet(c: Controller, e: PrepEvent)
    requires Inv(c) && QuietOk(c) && PrepEnabled(c, e) && Quiet(Prep(e))
    ensures QuietOk(NextPrep(c, e))
  {
    hide EpochOk, TokensOk, ReleasedOnce;
  }

  lemma AdmissionKeepsQuiet(c: Controller, e: StartEvent)
    requires Inv(c) && QuietOk(c) && StartEnabled(c, e) && IsAdmission(e)
    ensures QuietOk(NextStart(c, e))
  {
    AdmissionShape(c, e);
    hide NextStart, StartEnabled, EpochOk, LeasesOk, FailureOk, PoisonOk, CallsOk, SeatsOk, SpentOk;
  }

  lemma ProgressKeepsQuiet(c: Controller, e: StartEvent)
    requires Inv(c) && QuietOk(c) && StartEnabled(c, e) && !IsAdmission(e) && Quiet(Start(e))
    ensures QuietOk(NextStart(c, e))
  {
    hide EpochOk, FailureOk, ReleasedOnce, CallsOk, SpentOk, NextProbe, NextReserve, NextAdopt;
  }

  lemma StartKeepsQuiet(c: Controller, e: StartEvent)
    requires Inv(c) && QuietOk(c) && StartEnabled(c, e) && Quiet(Start(e))
    ensures QuietOk(NextStart(c, e))
  {
    hide Inv, QuietOk, StartEnabled, NextStart;
    if IsAdmission(e) { AdmissionKeepsQuiet(c, e); } else { ProgressKeepsQuiet(c, e); }
  }

  lemma AbandonKeepsQuiet(c: Controller, token: nat)
    requires Inv(c) && QuietOk(c)
    ensures QuietOk(NextAbandon(c, token))
  {
    hide EpochOk, FailureOk, LeasesOk, TokensOk, PoisonOk;
  }

  lemma EndKeepsQuiet(c: Controller, e: EndEvent)
    requires Inv(c) && QuietOk(c) && EndEnabled(c, e) && Quiet(End(e))
    ensures QuietOk(NextEnd(c, e))
  {
    hide EpochOk, FailureOk, ReleasedOnce, CallsOk, SpentOk, NextAbandon;
    if e.Abandon? { AbandonKeepsQuiet(c, e.token); }
  }

  lemma ResetKeepsQuiet(c: Controller, e: ResetEvent)
    requires Inv(c) && QuietOk(c) && ResetEnabled(c, e) && Quiet(Reset(e))
    ensures QuietOk(NextReset(c, e))
  {
    hide EpochOk, FailureOk, TokensOk, ReleasedOnce;
  }

  lemma {:induction false} QuietRun(es: seq<Event>)
    requires forall i :: 0 <= i < |es| ==> Quiet(es[i])
    ensures QuietOk(After(INITIAL, es))
    decreases |es|
  {
    hide Inv, QuietOk, NextPrep, NextStart, NextEnd, NextReset, PrepEnabled, StartEnabled, EndEnabled, ResetEnabled;
    if es == [] {
      QuietStart();
    } else {
      var before, e := After(INITIAL, es[..|es| - 1]), es[|es| - 1];
      QuietRun(es[..|es| - 1]);
      InitialInv();
      RunKeepsInv(INITIAL, es[..|es| - 1]);
      if Enabled(before, e) {
        match e
        case Prep(p) => PrepKeepsQuiet(before, p);
        case Start(s) => StartKeepsQuiet(before, s);
        case End(x) => EndKeepsQuiet(before, x);
        case Reset(r) => ResetKeepsQuiet(before, r);
      }
    }
  }

  lemma QuietStart()
    ensures QuietOk(INITIAL)
  {
  }

  /**
   Once no slot is occupied, a poisoned root has been recorded as a cleanup
   failure unless the doubt was met by a reset's acquisition, or by the
   acquisition of a preparation whose finish somebody other than the opening
   call claimed. Where no other error occurred the failure is recorded exactly
   then.
   */
  lemma PoisonRecordedIff(es: seq<Event>)
    requires var c := After(INITIAL, es); c.leases.admission == Poisoned && Idling(c.slots)
    ensures var c := After(INITIAL, es);
            && (!Unrecordable(c) ==> c.failure.Some?)
            && ((forall i :: 0 <= i < |es| ==> Quiet(es[i])) ==> (c.failure.Some? <==> !Unrecordable(c)))
  {
    InitialInv();
    RunKeepsInv(INITIAL, es);
    if forall i :: 0 <= i < |es| ==> Quiet(es[i]) { QuietRun(es); }
  }

  // ------------------------------------------------------------- abandonment

  /** The preparation this token would adopt is gone or can no longer be adopted. */
  predicate Unadoptable(s: Slots, token: nat)
  {
    s.preparation.None? || s.preparation.value.token != token || !Live(s.preparation.value)
  }

  /** Wherever the dispatch of a token stands, something ahead of it refuses publication. */
  predicate Blocked(c: Controller, token: nat)
  {
    var buried := token in c.tokens.tombstones;
    match PhaseOf(c.tokens, token)
    case Idle => buried
    case Prepared => buried || Unadoptable(c.slots, token)
    case Entered(persistent) => buried || (persistent && Unadoptable(c.slots, token))
    case Probed(persistent) => buried || (persistent && Unadoptable(c.slots, token))
    case Reserved(_) => c.slots.candidate.Some? && c.slots.candidate.value.abandoned
    case Holding(_) => c.slots.candidate.Some? && c.slots.candidate.value.abandoned
    case Faulted(_, _) => true
    case Unwinding(_, _) => true
    case Leaving => true
    case Dead => true
  }

  lemma AbandonBlocks(c: Controller, token: nat)
    requires Inv(c) && token != 0
    ensures Blocked(Step(c, End(Abandon(token))), token)
  {
    hide EpochOk, LeasesOk, FailureOk;
  }

  lemma PrepKeepsBlocked(c: Controller, e: PrepEvent, token: nat)
    requires SlotsOk(c.slots) && TokensOk(c) && PrepEnabled(c, e) && Blocked(c, token)
    ensures Blocked(NextPrep(c, e), token)
  {
    hide Acquire, LetGo, CallsOk, SpentOk;
  }

  lemma AdmissionKeepsBlocked(c: Controller, e: StartEvent, token: nat)
    requires SlotsOk(c.slots) && TokensOk(c) && StartEnabled(c, e) && Blocked(c, token) && IsAdmission(e)
    ensures Blocked(NextStart(c, e), token)
  {
    hide CallsOk, SpentOk, NextAcquireOwn, NextCloseCandidate, NextCommit;
  }

  lemma ProgressKeepsBlocked(c: Controller, e: StartEvent, token: nat)
    requires SlotsOk(c.slots) && TokensOk(c) && StartEnabled(c, e) && Blocked(c, token) && !IsAdmission(e)
    ensures Blocked(NextStart(c, e), token)
  {
    hide LetGo, Acquire, CallsOk, SpentOk, NextProbe, NextReserve, NextAdopt;
  }

  lemma StartKeepsBlocked(c: Controller, e: StartEvent, token: nat)
    requires SlotsOk(c.slots) && TokensOk(c) && StartEnabled(c, e) && Blocked(c, token)
    ensures Blocked(NextStart(c, e), token)
  {
    hide SlotsOk, TokensOk, StartEnabled, NextStart, Blocked;
    if IsAdmission(e) { AdmissionKeepsBlocked(c, e, token); } else { ProgressKeepsBlocked(c, e, token); }
  }

  lemma EndKeepsBlocked(c: Controller, e: EndEvent, token: nat)
    requires SlotsOk(c.slots) && TokensOk(c) && EndEnabled(c, e) && Blocked(c, token)
    ensures Blocked(NextEnd(c, e), token)
  {
    hide LetGo, CallsOk;
  }

  lemma ResetKeepsBlocked(c: Controller, e: ResetEvent, token: nat)
    requires ResetEnabled(c, e) && Blocked(c, token)
    ensures Blocked(NextReset(c, e), token)
  {
    hide Acquire, LetGo;
  }

  lemma StepKeepsBlocked(c: Controller, e: Event, token: nat)
    requires Inv(c) && Blocked(c, token)
    ensures Blocked(Step(c, e), token)
    ensures Step(c, e).ever == c.ever
            || exists other: Published :: other.token != token && Step(c, e).ever == c.ever + [other]
  {
    StepPublishes(c, e);
    hide NextPrep, NextStart, NextEnd, NextReset, PrepEnabled, StartEnabled, EndEnabled, ResetEnabled,
      EpochOk, LeasesOk, FailureOk, TokensOk;
    if Enabled(c, e) {
      match e
      case Prep(p) => PrepKeepsBlocked(c, p, token);
      case Start(s) => StartKeepsBlocked(c, s, token);
      case End(x) => EndKeepsBlocked(c, x, token);
      case Reset(r) => ResetKeepsBlocked(c, r, token);
    }
  }

  lemma StepTakesOver(c: Controller, e: Event)
    requires Inv(c)
    ensures var r := Step(c, e); r.slots.current.None? || r.slots.current == c.slots.current || r.ever != c.ever
  {
    hide EpochOk, LeasesOk, TokensOk, FailureOk, PoisonOk, LetGo, Acquire;
  }

  /** The token is not that of the current runtime and can never be published. */
  predicate Over(c: Controller, token: nat)
  {
    Blocked(c, token) && !IsCurrent(c.slots, token)
  }

  lemma StepKeepsOver(c: Controller, e: Event, token: nat)
    requires Inv(c) && Over(c, token)
    ensures Over(Step(c, e), token)
  {
    StepKeepsBlocked(c, e, token);
    StepTakesOver(c, e);
    StepKeepsInv(c, e);
    hide Step, Blocked, LeasesOk, TokensOk, FailureOk, PoisonOk, SlotsOk;
  }

  /** Once a token is blocked it is never published again, and it stays out if it is not current. */
  lemma {:induction false} BlockedForever(c: Controller, token: nat, es: seq<Event>)
    requires Inv(c) && Blocked(c, token)
    ensures var d := After(c, es);
            && c.ever <= d.ever && Blocked(d, token)
            && (forall i :: |c.ever| <= i < |d.ever| ==> d.ever[i].token != token)
            && (!IsCurrent(c.slots, token) ==> !IsCurrent(d.slots, token))
    decreases |es|
  {
    hide Step, Inv, Blocked;
    if es != [] {
      BlockedForever(c, token, es[..|es| - 1]);
      RunKeepsInv(c, es[..|es| - 1]);
      StepKeepsBlocked(After(c, es[..|es| - 1]), es[|es| - 1], token);
      if !IsCurrent(c.slots, token) {
        StepKeepsOver(After(c, es[..|es| - 1]), es[|es| - 1], token);
      }
    }
  }

  /**
   A token abandoned at any moment is never published from then on, whatever
   runs afterwards and wherever its dispatch stood.
   */
  lemma AbandonedNeverPublished(c: Controller, token: nat, es: seq<Event>)
    requires Inv(c) && token != 0
    ensures var d := After(Step(c, End(Abandon(token))), es);
            && c.ever <= d.ever && Blocked(d, token)
            && forall i :: |c.ever| <= i < |d.ever| ==> d.ever[i].token != token
  {
    StepKeepsInv(c, End(Abandon(token)));
    AbandonBlocks(c, token);
    StepPublishes(c, End(Abandon(token)));
    BlockedForever(Step(c, End(Abandon(token))), token, es);
    hide Step, Inv, Blocked, After;
  }

  // ---------------------------------------------------------------- teardown

  /** The events that are aimed at this runtime, or at whichever runtime is current. */
  predicate AimedAt(e: Event, r: Runtime)
  {
    match e
    case End(Abandon(token)) => token == r.token
    case End(Down(token)) => token == r.token
    case End(Quarantine(serial)) => serial == r.serial
    case End(LogoutDown) => true
    case End(Stop) => true
    case Reset(BeginReset(_)) => true
    case _ => false
  }

  lemma StepKeepsCurrent(c: Controller, e: Event, r: Runtime)
    requires Inv(c) && c.slots.current == Some(r) && !AimedAt(e, r)
    ensures Step(c, e).slots.current == Some(r) && Step(c, e).epoch == c.epoch
  {
    hide EpochOk, LeasesOk, FailureOk, CallsOk, SpentOk, Acquire, LetGo;
  }

  /** Abandoning, closing or quarantining one runtime never detaches another. */
  lemma {:induction false} OthersNeverDetach(c: Controller, es: seq<Event>, r: Runtime)
    requires Inv(c) && c.slots.current == Some(r)
    requires forall i :: 0 <= i < |es| ==> !AimedAt(es[i], r)
    ensures After(c, es).slots.current == Some(r) && After(c, es).epoch == c.epoch
    decreases |es|
  {
    hide Step, Inv, AimedAt;
    if es != [] {
      OthersNeverDetach(c, es[..|es| - 1], r);
      RunKeepsInv(c, es[..|es| - 1]);
      StepKeepsCurrent(After(c, es[..|es| - 1]), es[|es| - 1], r);
    }
  }

  /**
   The logout owner detaches only the runtime it logs out. A reset takes over any
   published runtime with its lease unless a failure or a logout stands against it.
   */
  lemma LogoutDetachesItsOwn(c: Controller, r: Runtime)
    requires Inv(c) && c.slots.current == Some(r)
    ensures Step(c, End(LogoutDown)).slots.current != Some(r) ==> LogoutOf(c.slots, r.token)
    ensures c.slots.logout.Some? ==> LogoutOf(c.slots, r.token)
    ensures forall t :: t != 0 && c.failure.None? && c.slots.logout.None? ==>
      r.lease.Some? && Step(c, Reset(BeginReset(t))).slots.reset == Some(ResetOp(t, Starting, true, false, r.lease))
  {
  }

  // ----------------------------------------------------------------- failure

  /**
   The one thing that can still be published once a failure is recorded: a live
   candidate that holds its lease, or that is about to acquire a free one.
   */
  predicate Committable(c: Controller)
  {
    && c.slots.candidate.Some? && !c.slots.candidate.value.abandoned
    && var phase := PhaseOf(c.tokens, c.slots.candidate.value.token);
       phase.Holding? || (phase.Reserved? && c.leases.admission == Free)
  }

  lemma StepAdmitsNothing(c: Controller, e: Event)
    requires c.failure.Some?
    ensures Step(c, e).failure == c.failure && Step(c, e).serial == c.serial
  {
    hide Acquire, LetGo;
  }

  lemma StartKeepsUncommittable(c: Controller, e: StartEvent)
    requires Inv(c) && c.failure.Some? && !Committable(c) && StartEnabled(c, e)
    ensures NextStart(c, e).ever == c.ever && !Committable(NextStart(c, e))
  {
    hide EpochOk, LeasesOk, CallsOk, SpentOk, FailureOk, PoisonOk, LetGo;
  }

  lemma RestKeepsUncommittable(c: Controller, e: Event)
    requires Inv(c) && c.failure.Some? && !Committable(c) && !e.Start? && Enabled(c, e)
    ensures !Committable(Step(c, e))
  {
    hide EpochOk, CallsOk, SpentOk, FailureOk, PoisonOk, ReleasedOnce, StartEnabled, NextStart;
  }

  lemma StepKeepsUncommittable(c: Controller, e: Event)
    requires Inv(c) && c.failure.Some? && !Committable(c)
    ensures Step(c, e).ever == c.ever && !Committable(Step(c, e))
  {
    StepPublishes(c, e);
    hide Inv, NextPrep, NextStart, NextEnd, NextReset, PrepEnabled, StartEnabled, EndEnabled, ResetEnabled;
    if Enabled(c, e) {
      if e.Start? { StartKeepsUncommittable(c, e.s); } else { RestKeepsUncommittable(c, e); }
    }
  }

  /**
   Once a cleanup failure is recorded nothing is ever admitted again: every
   preparation, candidate and reset draws a serial, and the counter stays put.
   */
  lemma {:induction false} NothingAdmittedAfterFailure(c: Controller, es: seq<Event>)
    requires Inv(c) && c.failure.Some?
    ensures After(c, es).failure == c.failure && After(c, es).serial == c.serial
    ensures !Committable(c) ==> After(c, es).ever == c.ever && !Committable(After(c, es))
    decreases |es|
  {
    hide Step, Inv, Committable;
    if es != [] {
      NothingAdmittedAfterFailure(c, es[..|es| - 1]);
      RunKeepsInv(c, es[..|es| - 1]);
      StepAdmitsNothing(After(c, es[..|es| - 1]), es[|es| - 1]);
      if !Committable(c) {
        StepKeepsUncommittable(After(c, es[..|es| - 1]), es[|es| - 1]);
      }
    }
  }

  lemma CommittableCommits(c: Controller)
    requires Inv(c) && Committable(c)
    ensures var token := c.slots.candidate.value.token;
            && token != 0
            && (PhaseOf(c.tokens, token).Holding? ==> Commits(c, token))
            && (PhaseOf(c.tokens, token).Reserved? ==>
                var r := Step(c, Start(AcquireOwn(token, Got))); Commits(r, token) && r.ever == c.ever)
  {
    hide EpochOk, LeasesOk, CallsOk, SpentOk, FailureOk, PoisonOk;
  }

  lemma CommitPublishes(c: Controller, token: nat)
    requires Commits(c, token) && token != 0
    ensures |Step(c, Start(Commit(token))).ever| == |c.ever| + 1
  {
  }

  lemma CommitLate(c: Controller) returns (es: seq<Event>)
    requires Inv(c) && Committable(c)
    ensures |After(c, es).ever| == |c.ever| + 1
  {
    var token := c.slots.candidate.value.token;
    CommittableCommits(c);
    es := [];
    assert After(c, es) == c;
    hide After, Step, Inv, Commits;
    if PhaseOf(c.tokens, token).Reserved? {
      AfterOne(c, es, Start(AcquireOwn(token, Got)));
      es := es + [Start(AcquireOwn(token, Got))];
    }
    CommitPublishes(After(c, es), token);
    AfterOne(c, es, Start(Commit(token)));
    es := es + [Start(Commit(token))];
  }

  /**
   Neither acquisition nor commit looks at the failure flag, so no runtime becomes
   current after a failure exactly when no committable candidate was in place.
   */
  lemma FailureFinalIff(c: Controller)
    requires Inv(c) && c.failure.Some?
    ensures (forall es :: After(c, es).ever == c.ever) <==> !Committable(c)
  {
    if Committable(c) {
      var es := CommitLate(c);
    } else {
      forall es ensures After(c, es).ever == c.ever {
        NothingAdmittedAfterFailure(c, es);
      }
    }
  }

  /**
   Without a custody that was settled both ways at once, every failure is
   recorded with no candidate in place, so it is final.
   */
  lemma FailureIsFinal(es: seq<Event>, later: seq<Event>)
    requires var c := After(INITIAL, es); c.failure.Some? && !BothWays(c)
    ensures var c, d := After(INITIAL, es), After(After(INITIAL, es), later);
            d.ever == c.ever && d.serial == c.serial && d.failure == c.failure
  {
    InitialInv();
    RunKeepsInv(INITIAL, es);
    NothingAdmittedAfterFailure(After(INITIAL, es), later);
  }

  lemma AfterOne(c: Controller, es: seq<Event>, e: Event)
    ensures After(c, es + [e]) == Step(After(c, es), e)
  {
    assert (es + [e])[..|es|] == es;
  }

  /** The preparation of token 1, abandoned while its custody is active. */
  const ABANDONED := Preparation(0, 1, true, false, false, true, true, false, false, false, Living, Some(0))

  predicate Untouched(x: Tokens, token: nat)
  {
    PhaseOf(x, token) == Idle && token !in x.tombstones && token !in x.calls
  }

  lemma Leased() returns (es: seq<Event>)
    ensures var c := After(INITIAL, es);
            && c.slots == EMPTY_SLOTS.(preparation := Some(Opened(0, 1).(settled := true, lease := Some(0))))
            && c.tokens.phases == map[1 := Prepared] && c.tokens.tombstones == {} && c.tokens.calls == {}
            && c.tokens.receipts == {}
            && c.leases.admission == Taken(0) && c.leases.next == 1 && c.leases.doubt == NoDoubt
            && c.epoch == 1 && c.serial == 1 && c.ever == [] && c.failure == None && c.custody == INITIAL.custody
  {
    es := [];
    assert After(INITIAL, es) == INITIAL;
    hide After;
    AfterOne(INITIAL, es, Prep(BeginPreparation(1)));
    es := es + [Prep(BeginPreparation(1))];
    AfterOne(INITIAL, es, Prep(Settled(Got)));
    es := es + [Prep(Settled(Got))];
  }

  lemma AbandonedCustody() returns (es: seq<Event>)
    ensures var c := After(INITIAL, es);
            && c.slots == EMPTY_SLOTS.(preparation := Some(ABANDONED)) && Untouched(c.tokens, 2)
            && c.leases.admission == Taken(0) && c.leases.next == 1 && c.leases.doubt == NoDoubt
            && c.epoch == 1 && c.serial == 1 && c.ever == [] && c.failure == None && c.custody == INITIAL.custody
  {
    es := Leased();
    hide After;
    AfterOne(INITIAL, es, Prep(ActivateCustody));
    es := es + [Prep(ActivateCustody)];
    AfterOne(INITIAL, es, End(Abandon(1)));
    es := es + [End(Abandon(1))];
  }

  lemma SettledBothWays() returns (es: seq<Event>)
    ensures var c := After(INITIAL, es);
            && c.slots == EMPTY_SLOTS && Untouched(c.tokens, 2)
            && c.leases.admission == Free && c.leases.next == 1 && c.epoch == 1 && c.serial == 1
            && c.ever == [] && c.failure == None && c.custody == Custody(map[0 := Custodian], map[0 := 1], false)
  {
    es := AbandonedCustody();
    hide After;
    AfterOne(INITIAL, es, Prep(FetchFailedCustody));
    es := es + [Prep(FetchFailedCustody)];
    AfterOne(INITIAL, es, Prep(FinishPreparation(Custodian)));
    es := es + [Prep(FinishPreparation(Custodian))];
    AfterOne(INITIAL, es, Prep(ReleasePreparation(false, false)));
    es := es + [Prep(ReleasePreparation(false, false))];
    AfterOne(INITIAL, es, Prep(ReportPreparation));
    es := es + [Prep(ReportPreparation)];
    AfterOne(INITIAL, es, Prep(ClearPreparation));
    es := es + [Prep(ClearPreparation)];
  }

  lemma SeatedNext() returns (es: seq<Event>)
    ensures var c := After(INITIAL, es);
            && c.slots == EMPTY_SLOTS.(candidate := Some(Runtime(1, 2, 1, Some(1), false)))
            && PhaseOf(c.tokens, 2) == Holding(1)
            && c.ever == [] && c.epoch == 1 && c.failure == None && c.custody.fetched == map[0 := 1]
  {
    es := SettledBothWays();
    hide After;
    AfterOne(INITIAL, es, Start(BeginCall(2, false)));
    es := es + [Start(BeginCall(2, false))];
    AfterOne(INITIAL, es, Start(Probe(2)));
    es := es + [Start(Probe(2))];
    AfterOne(INITIAL, es, Start(Reserve(2)));
    es := es + [Start(Reserve(2))];
    AfterOne(INITIAL, es, Start(AcquireOwn(2, Got)));
    es := es + [Start(AcquireOwn(2, Got))];
  }

  /** One custody settled as failed and as succeeded at once lets a runtime become current after the failure. */
  lemma CustodyRaceExample() returns (es: seq<Event>)
    ensures After(INITIAL, es).failure == Some(1)
    ensures After(INITIAL, es + [Start(Commit(2))]).ever == After(INITIAL, es).ever + [Published(2, 1)]
  {
    es := SeatedNext();
    hide After;
    AfterOne(INITIAL, es, Prep(RecordFailedCustody(0)));
    es := es + [Prep(RecordFailedCustody(0))];
    AfterOne(INITIAL, es, Start(Commit(2)));
  }

  /** The root is poisoned, nothing says so, and the next preparation is admitted. */
  predicate Unnoticed(c: Controller)
  {
    && c.leases.admission == Poisoned && c.failure == None && Idling(c.slots)
    && Step(c, Prep(BeginPreparation(2))).slots.preparation.Some?
  }

  /** A reset whose acquisition left the root in doubt. */
  lemma ResetPoisonExample() returns (es: seq<Event>)
    ensures Unnoticed(After(INITIAL, es)) && forall i :: 0 <= i < |es| ==> Quiet(es[i])
  {
    es := [];
    assert After(INITIAL, es) == INITIAL;
    hide After;
    AfterOne(INITIAL, es, Reset(BeginReset(1)));
    es := es + [Reset(BeginReset(1))];
    AfterOne(INITIAL, es, Reset(ResetAcquired(Uncertain)));
    es := es + [Reset(ResetAcquired(Uncertain))];
    AfterOne(INITIAL, es, Reset(ReleaseReset(false, false)));
    es := es + [Reset(ReleaseReset(false, false))];
    AfterOne(INITIAL, es, Reset(ReportReset));
    es := es + [Reset(ReportReset)];
    AfterOne(INITIAL, es, Reset(ClearReset));
    es := es + [Reset(ClearReset)];
  }

  lemma DoubtfulPreparation() returns (es: seq<Event>)
    ensures var c := After(INITIAL, es);
            && c.slots == EMPTY_SLOTS.(preparation := Some(Opened(0, 1).(
                 settled := true, opening := true, doubtful := true, abandoned := true)))
            && c.leases.admission == Poisoned && c.failure == None && Untouched(c.tokens, 2)
    ensures forall i :: 0 <= i < |es| ==> Quiet(es[i])
  {
    es := [];
    assert After(INITIAL, es) == INITIAL;
    hide After;
    AfterOne(INITIAL, es, Prep(BeginPreparation(1)));
    es := es + [Prep(BeginPreparation(1))];
    AfterOne(INITIAL, es, Prep(Settled(Uncertain)));
    es := es + [Prep(Settled(Uncertain))];
    AfterOne(INITIAL, es, End(Abandon(1)));
    es := es + [End(Abandon(1))];
  }

  /**
   An opening call whose acquisition left the root in doubt loses the claim to an
   abandonment, which finds no lease and no error of its own: nobody records it.
   */
  lemma AbandonedPoisonExample() returns (es: seq<Event>)
    ensures Unnoticed(After(INITIAL, es)) && forall i :: 0 <= i < |es| ==> Quiet(es[i])
  {
    es := DoubtfulPreparation();
    hide After;
    AfterOne(INITIAL, es, Prep(FinishPreparation(Abandoner)));
    es := es + [Prep(FinishPreparation(Abandoner))];
    AfterOne(INITIAL, es, Prep(ReleasePreparation(false, false)));
    es := es + [Prep(ReleasePreparation(false, false))];
    AfterOne(INITIAL, es, Prep(ReportPreparation));
    es := es + [Prep(ReportPreparation)];
    AfterOne(INITIAL, es, Prep(ClearPreparation));
    es := es + [Prep(ClearPreparation)];
  }

  /** With the claim won by the opening call itself the same doubt is recorded. */
  lemma OpenerRecordsExample() returns (es: seq<Event>)
    ensures var c := After(INITIAL, es); c.leases.admission == Poisoned && Idling(c.slots) && c.failure == Some(1)
  {
    es := DoubtfulPreparation();
    hide After;
    AfterOne(INITIAL, es, Prep(FinishPreparation(Opener)));
    es := es + [Prep(FinishPreparation(Opener))];
    AfterOne(INITIAL, es, Prep(ReleasePreparation(false, false)));
    es := es + [Prep(ReleasePreparation(false, false))];
    AfterOne(INITIAL, es, Prep(ReportPreparation));
    es := es + [Prep(ReportPreparation)];
    AfterOne(INITIAL, es, Prep(ClearPreparation));
    es := es + [Prep(ClearPreparation)];
  }
}
