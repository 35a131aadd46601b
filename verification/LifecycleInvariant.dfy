/** What every event of the runtime controller keeps, part by part. */
module LifecycleInvariant {
  import opened Basics
  import opened Lifecycle

  // ------------------------------------------------------------------- slots

  function Count(occupied: bool): (n: nat) { if occupied then 1 else 0 }

  /** How many of preparation, candidate, current, draining and reset are occupied. */
  function Occupied(s: Slots): (n: nat)
  {
    Count(s.preparation.Some?) + Count(s.candidate.Some?) + Count(s.current.Some?) + Count(s.draining.Some?)
    + Count(s.reset.Some?)
  }

  /** A logout stands alone or beside the current or draining runtime of its own token. */
  predicate LogoutOk(s: Slots)
  {
    s.logout.Some? ==>
      && s.preparation.None? && s.candidate.None? && s.reset.None?
      && (s.current.Some? ==> s.current.value.token == s.logout.value.token)
      && (s.draining.Some? ==> s.draining.value.runtime.token == s.logout.value.token)
  }

  predicate SlotsOk(s: Slots)
  {
    Occupied(s) <= 1 && LogoutOk(s)
  }

  lemma PrepKeepsSlots(c: Controller, e: PrepEvent)
    requires SlotsOk(c.slots) && PrepEnabled(c, e)
    ensures SlotsOk(NextPrep(c, e).slots)
  {
    hide Acquire, LetGo;
  }

  lemma StartKeepsSlots(c: Controller, e: StartEvent)
    requires SlotsOk(c.slots) && StartEnabled(c, e)
    ensures SlotsOk(NextStart(c, e).slots)
  {
    hide LetGo;
  }

  lemma EndKeepsSlots(c: Controller, e: EndEvent)
    requires SlotsOk(c.slots) && EndEnabled(c, e)
    ensures SlotsOk(NextEnd(c, e).slots)
  {
    hide LetGo;
  }

  lemma ResetKeepsSlots(c: Controller, e: ResetEvent)
    requires SlotsOk(c.slots) && ResetEnabled(c, e)
    ensures SlotsOk(NextReset(c, e).slots)
  {
  }

  // ------------------------------------------------------------- generations

  /**
   The epoch is the generation of the candidate and of the current runtime, and
   of the last published runtime exactly while it is current.
   */
  predicate EpochOk(c: Controller)
  {
    && (c.slots.candidate.Some? ==> c.slots.candidate.value.generation == c.epoch)
    && (c.slots.current.Some? ==>
        && c.slots.current.value.generation == c.epoch
        && c.ever != [] && c.ever[|c.ever| - 1] == Published(c.slots.current.value.token, c.epoch))
    && (forall i :: 0 <= i < |c.ever| ==>
        c.ever[i].generation < c.epoch || (c.slots.current.Some? && i == |c.ever| - 1))
    && (forall i, j :: 0 <= i < j < |c.ever| ==> c.ever[i].generation < c.ever[j].generation)
  }

  lemma PrepKeepsEpoch(c: Controller, e: PrepEvent)
    requires SlotsOk(c.slots) && EpochOk(c) && PrepEnabled(c, e)
    ensures EpochOk(NextPrep(c, e))
  {
    hide Acquire, LetGo;
  }

  lemma StartKeepsEpoch(c: Controller, e: StartEvent)
    requires SlotsOk(c.slots) && EpochOk(c) && StartEnabled(c, e)
    ensures EpochOk(NextStart(c, e))
  {
    hide LetGo;
  }

  lemma EndKeepsEpoch(c: Controller, e: EndEvent)
    requires SlotsOk(c.slots) && EpochOk(c) && EndEnabled(c, e)
    ensures EpochOk(NextEnd(c, e))
  {
    hide LetGo;
  }

  lemma ResetKeepsEpoch(c: Controller, e: ResetEvent)
    requires SlotsOk(c.slots) && EpochOk(c) && ResetEnabled(c, e)
    ensures EpochOk(NextReset(c, e))
  {
  }

  // -------------------------------------------------------------- admissions

  predicate IsAdmission(e: StartEvent)
  {
    e.Probe? || e.Reserve? || e.Adopt?
  }

  /** An admission either refuses, moving only its own dispatch, or seats a candidate on free slots. */
  predicate Refuses(c: Controller, r: Controller)
  {
    && r == c.(tokens := r.tokens)
    && (c.slots.candidate.Some? && Seated(PhaseOf(c.tokens, c.slots.candidate.value.token)) ==>
        PhaseOf(r.tokens, c.slots.candidate.value.token) == PhaseOf(c.tokens, c.slots.candidate.value.token))
  }

  predicate Seats(c: Controller, r: Controller)
  {
    && c.failure.None? && c.slots.logout.None? && Idling(c.slots.(preparation := None)) && r.slots.candidate.Some?
    && var seated := r.slots.candidate.value;
       && r == Seat(c, seated.token, seated.lease, if seated.lease.Some? then Holding(c.serial) else Reserved(c.serial))
       && (c.slots.preparation.Some? ==>
           Live(c.slots.preparation.value) && !c.slots.preparation.value.custodyActive
           && c.slots.preparation.value.lease.Some? && seated.lease == c.slots.preparation.value.lease)
       && (c.slots.preparation.None? ==> seated.lease.None?)
  }

  lemma AdmissionShape(c: Controller, e: StartEvent)
    requires StartEnabled(c, e) && IsAdmission(e)
    ensures Refuses(c, NextStart(c, e)) || Seats(c, NextStart(c, e))
  {
  }

  // ------------------------------------------------------------------ leases

  /** The lease owned by the one occupied slot. */
  function Owned(s: Slots): (lease: Option<nat>)
  {
    if s.preparation.Some? then s.preparation.value.lease
    else if s.candidate.Some? then s.candidate.value.lease
    else if s.current.Some? then s.current.value.lease
    else if s.draining.Some? then s.draining.value.runtime.lease
    else if s.reset.Some? then s.reset.value.lease
    else None
  }

  function Admitted(l: Leases): (lease: Option<nat>)
  {
    if l.admission.Taken? then Some(l.admission.lease) else None
  }

  predicate ReleasedOnce(l: Leases)
  {
    && (forall i :: 0 <= i < |l.released| ==> l.released[i] < l.next)
    && (forall i, j :: 0 <= i < j < |l.released| ==> l.released[i] != l.released[j])
    && (l.admission.Taken? ==> l.admission.lease < l.next && l.admission.lease !in l.released)
  }

  /** Which owners have a lease: whoever closed or never acquired has none, a published runtime has one. */
  predicate ClosedOk(c: Controller)
  {
    var s := c.slots;
    && (s.preparation.Some? ==>
        var p := s.preparation.value;
        && (!p.settled || p.stage.Emptied? || p.stage.Reported? ==> p.lease.None?)
        && (p.stage != Living ==> p.settled)
        && (p.settled && p.lease.None? && p.stage == Living ==> p.opening))
    && (s.candidate.Some? ==> (s.candidate.value.lease.Some? <==> PhaseOf(c.tokens, s.candidate.value.token).Holding?))
    && (s.current.Some? ==> s.current.value.lease.Some?)
    && (s.draining.Some? ==> (s.draining.value.runtime.lease.Some? <==> !s.draining.value.closed))
    && (s.reset.Some? && (s.reset.value.stage == Closed || s.reset.value.stage == Told) ==> s.reset.value.lease.None?)
  }

  /** The admitted lease has exactly one owner, and nothing else is owned. */
  predicate LeasesOk(c: Controller)
  {
    Owned(c.slots) == Admitted(c.leases) && ReleasedOnce(c.leases) && ClosedOk(c)
  }

  lemma LetGoOk(l: Leases, uncertain: bool, doubt: Doubt)
    requires ReleasedOnce(l)
    ensures ReleasedOnce(LetGo(l, Admitted(l), uncertain, doubt))
    ensures Admitted(LetGo(l, Admitted(l), uncertain, doubt)) == None
  {
  }

  lemma AcquireOk(l: Leases, outcome: Acquired, doubt: Doubt)
    requires ReleasedOnce(l) && Admitted(l) == None
    ensures ReleasedOnce(Acquire(l, outcome, doubt).0)
    ensures Admitted(Acquire(l, outcome, doubt).0) == Acquire(l, outcome, doubt).1
  {
  }

  lemma PrepKeepsLeases(c: Controller, e: PrepEvent)
    requires SlotsOk(c.slots) && TokensOk(c) && LeasesOk(c) && PrepEnabled(c, e)
    ensures LeasesOk(NextPrep(c, e))
  {
    hide ReleasedOnce, LetGo, Acquire, Admitted;
    if e.Settled? { AcquireOk(c.leases, e.outcome, PreparationAcquisition(c.slots.preparation.value.serial)); }
    if e.ReleasePreparation? { LetGoOk(c.leases, e.uncertain, PreparationRelease); }
  }

  lemma AdmissionKeepsLeases(c: Controller, e: StartEvent)
    requires SlotsOk(c.slots) && TokensOk(c) && LeasesOk(c) && StartEnabled(c, e) && IsAdmission(e)
    ensures LeasesOk(NextStart(c, e))
  {
    AdmissionShape(c, e);
    hide NextStart, StartEnabled, CallsOk, SeatsOk, SpentOk, ReleasedOnce, Admitted;
  }

  lemma ProgressKeepsLeases(c: Controller, e: StartEvent)
    requires SlotsOk(c.slots) && TokensOk(c) && LeasesOk(c) && StartEnabled(c, e) && !IsAdmission(e)
    ensures LeasesOk(NextStart(c, e))
  {
    hide NextProbe, NextReserve, NextAdopt, CallsOk, SpentOk, ReleasedOnce, LetGo, Acquire, Admitted;
    if e.CloseCandidate? { LetGoOk(c.leases, e.uncertain, CandidateRelease); }
    if e.AcquireOwn? { AcquireOk(c.leases, e.outcome, CandidateAcquisition); }
  }

  lemma StartKeepsLeases(c: Controller, e: StartEvent)
    requires SlotsOk(c.slots) && TokensOk(c) && LeasesOk(c) && StartEnabled(c, e)
    ensures LeasesOk(NextStart(c, e))
  {
    hide SlotsOk, LeasesOk, TokensOk, FailureOk, PoisonOk, StartEnabled, NextStart;
    if IsAdmission(e) { AdmissionKeepsLeases(c, e); } else { ProgressKeepsLeases(c, e); }
  }

  lemma EndKeepsLeases(c: Controller, e: EndEvent)
    requires SlotsOk(c.slots) && TokensOk(c) && LeasesOk(c) && EndEnabled(c, e)
    ensures LeasesOk(NextEnd(c, e))
  {
    hide ReleasedOnce, LetGo, Admitted;
    if e.CloseDrained? { LetGoOk(c.leases, e.uncertain, DrainRelease); }
  }

  lemma ResetKeepsLeases(c: Controller, e: ResetEvent)
    requires SlotsOk(c.slots) && LeasesOk(c) && ResetEnabled(c, e)
    ensures LeasesOk(NextReset(c, e))
  {
    hide ReleasedOnce, LetGo, Acquire, Admitted;
    if e.ResetAcquired? { AcquireOk(c.leases, e.outcome, ResetAcquisition); }
    if e.ReleaseReset? { LetGoOk(c.leases, e.uncertain, ResetRelease); }
  }

  // ------------------------------------------------------------------ tokens

  predicate SeatedAt(s: Slots, token: nat, serial: nat)
  {
    s.candidate.Some? && s.candidate.value.token == token && s.candidate.value.serial == serial
  }

  /** A start call in these phases is registered. */
  predicate InCall(phase: Phase)
  {
    phase != Idle && phase != Prepared && phase != Dead
  }

  ghost predicate CallsOk(x: Tokens)
  {
    forall t :: t in x.calls <==> t in x.phases && InCall(x.phases[t])
  }

  predicate SeatsOk(c: Controller)
  {
    forall t | t in c.tokens.phases && Seated(c.tokens.phases[t]) ::
      SeatedAt(c.slots, t, c.tokens.phases[t].serial)
  }

  /** A token with a receipt, or one that was ever published, has spent its dispatch. */
  predicate SpentOk(c: Controller)
  {
    && (forall t :: t in c.tokens.receipts ==> Spent(c.tokens, t))
    && (forall i :: 0 <= i < |c.ever| ==> Spent(c.tokens, c.ever[i].token))
  }

  predicate PreparedPhase(phase: Phase)
  {
    phase == Prepared || phase == Entered(true) || phase == Probed(true) || phase == Leaving || phase == Dead
  }

  predicate OwnersOk(c: Controller)
  {
    var s, x := c.slots, c.tokens;
    && (s.preparation.Some? ==> PreparedPhase(PhaseOf(x, s.preparation.value.token)))
    && (s.candidate.Some? ==> s.candidate.value.token != 0)
    && (s.candidate.Some? ==>
        var phase := PhaseOf(x, s.candidate.value.token);
        Seated(phase) && phase.serial == s.candidate.value.serial)
    && (s.current.Some? ==> Spent(x, s.current.value.token))
    && (s.draining.Some? ==> Spent(x, s.draining.value.runtime.token))
    && (s.logout.Some? ==> Spent(x, s.logout.value.token))
  }

  ghost predicate TokensOk(c: Controller)
  {
    CallsOk(c.tokens) && SeatsOk(c) && SpentOk(c) && OwnersOk(c)
  }

  lemma BeginKeepsOwners(c: Controller, token: nat)
    requires SlotsOk(c.slots) && SeatsOk(c) && OwnersOk(c) && PhaseOf(c.tokens, token) == Idle
    ensures SeatsOk(NextBeginPreparation(c, token)) && OwnersOk(NextBeginPreparation(c, token))
  {
    hide Idling;
  }

  lemma PrepKeepsOwners(c: Controller, e: PrepEvent)
    requires SlotsOk(c.slots) && SeatsOk(c) && OwnersOk(c) && PrepEnabled(c, e)
    ensures SeatsOk(NextPrep(c, e)) && OwnersOk(NextPrep(c, e))
  {
    hide Acquire, LetGo, Live, NextBeginPreparation;
    if e.BeginPreparation? { BeginKeepsOwners(c, e.token); }
  }

  lemma PrepKeepsSpent(c: Controller, e: PrepEvent)
    requires CallsOk(c.tokens) && SpentOk(c) && PrepEnabled(c, e)
    ensures CallsOk(NextPrep(c, e).tokens) && SpentOk(NextPrep(c, e))
  {
    hide Acquire, LetGo;
  }

  lemma PrepKeepsTokens(c: Controller, e: PrepEvent)
    requires SlotsOk(c.slots) && TokensOk(c) && PrepEnabled(c, e)
    ensures TokensOk(NextPrep(c, e))
  {
    hide CallsOk, SeatsOk, SpentOk, OwnersOk, PrepEnabled, NextPrep;
    PrepKeepsOwners(c, e);
    PrepKeepsSpent(c, e);
  }

  lemma StartKeepsSeats(c: Controller, e: StartEvent)
    requires SlotsOk(c.slots) && SeatsOk(c) && OwnersOk(c) && StartEnabled(c, e)
    ensures SeatsOk(NextStart(c, e))
  {
    hide LetGo;
  }

  lemma ProbeKeepsOwners(c: Controller, token: nat)
    requires SlotsOk(c.slots) && OwnersOk(c) && PhaseOf(c.tokens, token).Entered?
    ensures OwnersOk(NextProbe(c, token, PhaseOf(c.tokens, token).persistent))
  {
  }

  lemma ReserveKeepsOwners(c: Controller, token: nat)
    requires SlotsOk(c.slots) && OwnersOk(c) && PhaseOf(c.tokens, token).Probed? && token != 0
    ensures OwnersOk(NextReserve(c, token))
  {
  }

  lemma AdoptKeepsOwners(c: Controller, token: nat, valid: bool)
    requires SlotsOk(c.slots) && OwnersOk(c) && PhaseOf(c.tokens, token).Probed? && token != 0
    ensures OwnersOk(NextAdopt(c, token, valid))
  {
    hide Adoptable;
  }

  lemma AdmissionKeepsOwners(c: Controller, e: StartEvent)
    requires SlotsOk(c.slots) && OwnersOk(c) && StartEnabled(c, e) && IsAdmission(e)
    ensures OwnersOk(NextStart(c, e))
  {
    hide OwnersOk, NextProbe, NextReserve, NextAdopt;
    if e.Probe? {
      ProbeKeepsOwners(c, e.token);
    } else if e.Reserve? {
      ReserveKeepsOwners(c, e.token);
    } else {
      AdoptKeepsOwners(c, e.token, e.valid);
    }
  }

  lemma ProgressKeepsOwners(c: Controller, e: StartEvent)
    requires SlotsOk(c.slots) && SeatsOk(c) && OwnersOk(c) && StartEnabled(c, e) && !IsAdmission(e)
    ensures OwnersOk(NextStart(c, e))
  {
    hide LetGo, NextProbe, NextReserve, NextAdopt;
  }

  lemma StartKeepsCalls(c: Controller, e: StartEvent)
    requires CallsOk(c.tokens) && StartEnabled(c, e)
    ensures CallsOk(NextStart(c, e).tokens)
  {
    hide LetGo;
  }

  lemma AdmissionKeepsSpent(c: Controller, e: StartEvent)
    requires SpentOk(c) && StartEnabled(c, e) && IsAdmission(e)
    ensures SpentOk(NextStart(c, e))
  {
    hide Adoptable, Idling, NextAcquireOwn, NextCloseCandidate, NextCommit;
  }

  lemma ProgressKeepsSpent(c: Controller, e: StartEvent)
    requires SeatsOk(c) && SpentOk(c) && StartEnabled(c, e) && !IsAdmission(e)
    ensures SpentOk(NextStart(c, e))
  {
    hide LetGo, Acquire, NextProbe, NextReserve, NextAdopt;
  }

  lemma StartKeepsTokens(c: Controller, e: StartEvent)
    requires SlotsOk(c.slots) && TokensOk(c) && StartEnabled(c, e)
    ensures TokensOk(NextStart(c, e))
  {
    hide CallsOk, SeatsOk, SpentOk, OwnersOk, StartEnabled, NextStart;
    StartKeepsSeats(c, e);
    if IsAdmission(e) { AdmissionKeepsOwners(c, e); } else { ProgressKeepsOwners(c, e); }
    StartKeepsCalls(c, e);
    if IsAdmission(e) { AdmissionKeepsSpent(c, e); } else { ProgressKeepsSpent(c, e); }
  }

  lemma AbandonKeepsOwners(c: Controller, token: nat)
    requires SlotsOk(c.slots) && SeatsOk(c) && OwnersOk(c)
    ensures SeatsOk(NextAbandon(c, token)) && OwnersOk(NextAbandon(c, token))
  {
  }

  lemma EndKeepsOwners(c: Controller, e: EndEvent)
    requires SlotsOk(c.slots) && SeatsOk(c) && OwnersOk(c) && EndEnabled(c, e)
    ensures SeatsOk(NextEnd(c, e)) && OwnersOk(NextEnd(c, e))
  {
    hide LetGo, NextAbandon;
    if e.Abandon? { AbandonKeepsOwners(c, e.token); }
  }

  lemma AbandonKeepsSpent(c: Controller, token: nat)
    requires CallsOk(c.tokens) && SpentOk(c)
    ensures CallsOk(NextAbandon(c, token).tokens) && SpentOk(NextAbandon(c, token))
  {
  }

  lemma EndKeepsSpent(c: Controller, e: EndEvent)
    requires CallsOk(c.tokens) && SpentOk(c) && OwnersOk(c) && EndEnabled(c, e)
    ensures CallsOk(NextEnd(c, e).tokens) && SpentOk(NextEnd(c, e))
  {
    hide LetGo, NextAbandon;
    if e.Abandon? { AbandonKeepsSpent(c, e.token); }
  }

  lemma EndKeepsTokens(c: Controller, e: EndEvent)
    requires SlotsOk(c.slots) && TokensOk(c) && EndEnabled(c, e)
    ensures TokensOk(NextEnd(c, e))
  {
    hide CallsOk, SeatsOk, SpentOk, OwnersOk, EndEnabled, NextEnd;
    EndKeepsOwners(c, e);
    EndKeepsSpent(c, e);
  }

  lemma ResetKeepsTokens(c: Controller, e: ResetEvent)
    requires SlotsOk(c.slots) && TokensOk(c) && ResetEnabled(c, e)
    ensures TokensOk(NextReset(c, e))
  {
  }

  // ----------------------------------------------------------------- failure

  /** A failed custody settlement keeps its preparation in place unless a successful one ran as well. */
  predicate CustodyOk(c: Controller)
  {
    && (forall n :: n in c.custody.fetched ==> n < c.serial)
    && (forall n :: n in c.custody.claims ==> n < c.serial)
    && (forall n :: n in c.custody.fetched ==>
        Confirmed(c, n)
        || (c.slots.preparation.Some? && c.slots.preparation.value.serial == n
            && c.slots.preparation.value.abandoned && c.slots.preparation.value.custodyActive))
    && (c.slots.preparation.Some? ==>
        var p := c.slots.preparation.value;
        && p.serial < c.serial && (p.custodyActive || p.busy ==> p.settled)
        && (p.opening ==> !p.custodyActive && !p.busy) && (p.opening && p.settled ==> p.lease.None? || p.abandoned)
        && (if p.stage == Living then p.serial !in c.custody.claims
            else p.serial in c.custody.claims && c.custody.claims[p.serial] == p.stage.who)
        && (p.stage != Living && p.custodyActive ==> p.stage.who == Custodian))
  }

  /** FinishCustody claimed the finish of this preparation as a success. */
  predicate Confirmed(c: Controller, serial: nat)
  {
    serial in c.custody.claims && c.custody.claims[serial] == Custodian
  }

  predicate BothWays(c: Controller)
  {
    exists n :: n in c.custody.fetched && Confirmed(c, n)
  }

  predicate FailureOk(c: Controller)
  {
    && (c.failure.Some? && !c.custody.raced ==> c.slots.candidate.None?)
    && (c.custody.raced ==> BothWays(c))
    && CustodyOk(c)
  }

  lemma BeginKeepsFailure(c: Controller, token: nat)
    requires SlotsOk(c.slots) && FailureOk(c)
    ensures FailureOk(NextBeginPreparation(c, token))
  {
  }

  /** The events that touch the record of who settled what. */
  lemma SettlingKeepsFailure(c: Controller, e: PrepEvent)
    requires SlotsOk(c.slots) && FailureOk(c) && PrepEnabled(c, e)
    requires e.FinishPreparation? || e.FetchFailedCustody? || e.RecordFailedCustody?
    ensures FailureOk(NextPrep(c, e))
  {
    var r := NextPrep(c, e);
    if c.custody.raced {
      var n :| n in c.custody.fetched && Confirmed(c, n);
      assert n in r.custody.fetched && Confirmed(r, n);
    }
  }

  lemma PrepKeepsFailure(c: Controller, e: PrepEvent)
    requires SlotsOk(c.slots) && FailureOk(c) && PrepEnabled(c, e)
    ensures FailureOk(NextPrep(c, e))
  {
    hide Acquire, LetGo, NextBeginPreparation;
    if e.BeginPreparation? {
      BeginKeepsFailure(c, e.token);
    } else if e.FinishPreparation? || e.FetchFailedCustody? || e.RecordFailedCustody? {
      SettlingKeepsFailure(c, e);
    }
  }

  lemma AdmissionKeepsFailure(c: Controller, e: StartEvent)
    requires SlotsOk(c.slots) && TokensOk(c) && FailureOk(c) && StartEnabled(c, e) && IsAdmission(e)
    ensures FailureOk(NextStart(c, e))
  {
    AdmissionShape(c, e);
    hide NextStart, StartEnabled, TokensOk;
  }

  lemma ProgressKeepsFailure(c: Controller, e: StartEvent)
    requires SlotsOk(c.slots) && TokensOk(c) && FailureOk(c) && StartEnabled(c, e) && !IsAdmission(e)
    ensures FailureOk(NextStart(c, e))
  {
    hide NextProbe, NextReserve, NextAdopt, CallsOk, SpentOk, LetGo, Acquire;
  }

  lemma StartKeepsFailure(c: Controller, e: StartEvent)
    requires SlotsOk(c.slots) && TokensOk(c) && FailureOk(c) && StartEnabled(c, e)
    ensures FailureOk(NextStart(c, e))
  {
    hide SlotsOk, LeasesOk, TokensOk, FailureOk, PoisonOk, StartEnabled, NextStart;
    if IsAdmission(e) { AdmissionKeepsFailure(c, e); } else { ProgressKeepsFailure(c, e); }
  }

  lemma EndKeepsFailure(c: Controller, e: EndEvent)
    requires SlotsOk(c.slots) && FailureOk(c) && EndEnabled(c, e)
    ensures FailureOk(NextEnd(c, e))
  {
    hide LetGo;
  }

  lemma ResetKeepsFailure(c: Controller, e: ResetEvent)
    requires SlotsOk(c.slots) && FailureOk(c) && ResetEnabled(c, e)
    ensures FailureOk(NextReset(c, e))
  {
  }

  // ----------------------------------------------------------------- poison

  /** The doubt was met where nobody records it: by a reset's acquisition, or by an opening call that came second. */
  predicate Unrecordable(c: Controller)
  {
    match c.leases.doubt
    case ResetAcquisition => true
    case PreparationAcquisition(n) => n in c.custody.claims && c.custody.claims[n] != Opener
    case _ => false
  }

  /** Whoever has to record the doubt still holds its slot, with the error at hand. */
  predicate Pending(c: Controller)
  {
    var s := c.slots;
    match c.leases.doubt
    case NoDoubt => false
    case ResetAcquisition => false
    case PreparationAcquisition(n) =>
      s.preparation.Some? && s.preparation.value.serial == n && s.preparation.value.doubtful
      && !s.preparation.value.stage.Reported?
    case PreparationRelease =>
      s.preparation.Some? && s.preparation.value.stage.Emptied? && s.preparation.value.stage.broken
    case CandidateAcquisition =>
      s.candidate.Some?
      && var phase := PhaseOf(c.tokens, s.candidate.value.token);
         (phase.Faulted? && phase.doubtful) || (phase.Unwinding? && phase.broken)
    case CandidateRelease =>
      s.candidate.Some?
      && var phase := PhaseOf(c.tokens, s.candidate.value.token); phase.Unwinding? && phase.broken
    case DrainRelease => s.draining.Some? && s.draining.value.closed && s.draining.value.broken
    case ResetRelease => s.reset.Some? && s.reset.value.stage == Closed && s.reset.value.broken
  }

  /** A poisoned root is recorded, will be, or was met where nobody records it. */
  predicate PoisonOk(c: Controller)
  {
    && (c.leases.admission == Poisoned && c.failure.None? ==> Pending(c) || Unrecordable(c))
    && (c.slots.preparation.Some? && c.slots.preparation.value.doubtful ==>
        c.slots.preparation.value.settled && c.leases.admission == Poisoned
        && c.leases.doubt == PreparationAcquisition(c.slots.preparation.value.serial))
    && (c.leases.doubt.PreparationAcquisition? ==> c.leases.doubt.serial < c.serial)
  }

  lemma BeginKeepsPoison(c: Controller, token: nat)
    requires SlotsOk(c.slots) && OwnersOk(c) && PoisonOk(c) && PhaseOf(c.tokens, token) == Idle
    ensures PoisonOk(NextBeginPreparation(c, token))
  {
  }

  lemma PrepKeepsPoison(c: Controller, e: PrepEvent)
    requires SlotsOk(c.slots) && LeasesOk(c) && TokensOk(c) && FailureOk(c) && PoisonOk(c) && PrepEnabled(c, e)
    ensures PoisonOk(NextPrep(c, e))
  {
    hide ReleasedOnce, CallsOk, SeatsOk, SpentOk, NextBeginPreparation;
    if e.BeginPreparation? { BeginKeepsPoison(c, e.token); return; }
  }

  lemma AdmissionKeepsPoison(c: Controller, e: StartEvent)
    requires SlotsOk(c.slots) && LeasesOk(c) && TokensOk(c) && FailureOk(c) && PoisonOk(c)
    requires StartEnabled(c, e) && IsAdmission(e)
    ensures PoisonOk(NextStart(c, e))
  {
    AdmissionShape(c, e);
    hide NextStart, StartEnabled, CallsOk, SeatsOk, SpentOk, ReleasedOnce;
  }

  lemma ProgressKeepsPoison(c: Controller, e: StartEvent)
    requires SlotsOk(c.slots) && LeasesOk(c) && TokensOk(c) && FailureOk(c) && PoisonOk(c)
    requires StartEnabled(c, e) && !IsAdmission(e)
    ensures PoisonOk(NextStart(c, e))
  {
    hide NextProbe, NextReserve, NextAdopt, CallsOk, SpentOk, ReleasedOnce;
  }

  lemma StartKeepsPoison(c: Controller, e: StartEvent)
    requires SlotsOk(c.slots) && LeasesOk(c) && TokensOk(c) && FailureOk(c) && PoisonOk(c) && StartEnabled(c, e)
    ensures PoisonOk(NextStart(c, e))
  {
    hide SlotsOk, LeasesOk, TokensOk, FailureOk, PoisonOk, StartEnabled, NextStart;
    if IsAdmission(e) { AdmissionKeepsPoison(c, e); } else { ProgressKeepsPoison(c, e); }
  }

  lemma EndKeepsPoison(c: Controller, e: EndEvent)
    requires SlotsOk(c.slots) && LeasesOk(c) && TokensOk(c) && PoisonOk(c) && EndEnabled(c, e)
    ensures PoisonOk(NextEnd(c, e))
  {
    hide ReleasedOnce, CallsOk, SpentOk;
  }

  lemma ResetKeepsPoison(c: Controller, e: ResetEvent)
    requires SlotsOk(c.slots) && LeasesOk(c) && PoisonOk(c) && ResetEnabled(c, e)
    ensures PoisonOk(NextReset(c, e))
  {
    hide ReleasedOnce;
  }

  // -------------------------------------------------------------- every run

  ghost predicate Inv(c: Controller)
  {
    SlotsOk(c.slots) && EpochOk(c) && LeasesOk(c) && TokensOk(c) && FailureOk(c) && PoisonOk(c)
  }

  lemma StepKeepsInv(c: Controller, e: Event)
    requires Inv(c)
    ensures Inv(Step(c, e))
  {
    hide SlotsOk, EpochOk, LeasesOk, TokensOk, FailureOk, PoisonOk, NextPrep, NextStart, NextEnd, NextReset,
      PrepEnabled, StartEnabled, EndEnabled, ResetEnabled;
    if Enabled(c, e) {
      match e
      case Prep(p) =>
        PrepKeepsSlots(c, p); PrepKeepsEpoch(c, p); PrepKeepsLeases(c, p); PrepKeepsTokens(c, p);
        PrepKeepsFailure(c, p); PrepKeepsPoison(c, p);
      case Start(s) =>
        StartKeepsSlots(c, s); StartKeepsEpoch(c, s); StartKeepsLeases(c, s); StartKeepsTokens(c, s);
        StartKeepsFailure(c, s); StartKeepsPoison(c, s);
      case End(x) =>
        EndKeepsSlots(c, x); EndKeepsEpoch(c, x); EndKeepsLeases(c, x); EndKeepsTokens(c, x);
        EndKeepsFailure(c, x); EndKeepsPoison(c, x);
      case Reset(r) =>
        ResetKeepsSlots(c, r); ResetKeepsEpoch(c, r); ResetKeepsLeases(c, r); ResetKeepsTokens(c, r);
        ResetKeepsFailure(c, r); ResetKeepsPoison(c, r);
    }
  }

  lemma {:induction false} RunKeepsInv(c: Controller, es: seq<Event>)
    requires Inv(c)
    ensures Inv(After(c, es))
    decreases |es|
  {
    hide Inv, Step;
    if es != [] {
      RunKeepsInv(c, es[..|es| - 1]);
      StepKeepsInv(After(c, es[..|es| - 1]), es[|es| - 1]);
    }
  }
}
