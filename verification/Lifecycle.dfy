/**
 The runtime controller as a state machine. Every critical section of its
 mutex is one event; lease acquisition, Server.Start, Keybay and teardown
 happen between events with arbitrary outcomes.
 */
module Lifecycle {
  import opened Basics

  /** A runtime object. `serial` is its identity, `lease` the state lease it owns. */
  datatype Runtime = Runtime(serial: nat, token: nat, generation: nat, lease: Option<nat>, abandoned: bool)

  /**
   A detached runtime; `closed` once its resources were closed, `broken` if that
   reported an error, `down` if its receipt is a down receipt.
   */
  datatype Drain = Drain(runtime: Runtime, closed: bool, broken: bool, down: bool)

  /** Who finishes a preparation: the call that opened it, an abandonment, FinishCustody, or the idle probe. */
  datatype Claimer = Opener | Abandoner | Custodian | Prober

  datatype PrepStage =
    | Living
    | Claimed(who: Claimer)
    | Emptied(who: Claimer, broken: bool)
    | Reported(who: Claimer)

  /**
   `opening` while the opening call still has to finish what it opened, and
   `doubtful` if lease acquisition failed it with an uncertain cleanup.
   */
  datatype Preparation = Preparation(
    serial: nat, token: nat, settled: bool, opening: bool, doubtful: bool, abandoned: bool,
    custodyActive: bool, custodyCompleted: bool, busy: bool, hasStore: bool, stage: PrepStage, lease: Option<nat>)

  datatype ResetStage = Starting | Stuck | Ready | Finishing | Closed | Told

  datatype ResetOp = ResetOp(token: nat, stage: ResetStage, moved: bool, broken: bool, lease: Option<nat>)

  datatype Logout = Logout(token: nat, broken: bool)

  datatype Slots = Slots(
    preparation: Option<Preparation>, candidate: Option<Runtime>, current: Option<Runtime>,
    draining: Option<Drain>, logout: Option<Logout>, reset: Option<ResetOp>)

  /**
   How far the one dispatch of a token has come. A persistent start adopts the
   lease of its preparation; an ephemeral one is seated first and acquires its
   own, which may fail it.
   */
  datatype Phase =
    | Idle
    | Prepared
    | Entered(persistent: bool)
    | Probed(persistent: bool)
    | Reserved(serial: nat)
    | Faulted(serial: nat, doubtful: bool)
    | Holding(serial: nat)
    | Unwinding(serial: nat, broken: bool)
    | Leaving
    | Dead

  datatype Tokens = Tokens(tombstones: set<nat>, calls: set<nat>, receipts: set<nat>, phases: map<nat, Phase>)

  /** The in-process admission of the one configured state root. */
  datatype Admission = Free | Taken(lease: nat) | Poisoned

  /** Where the doubt that poisoned the root was met. */
  datatype Doubt =
    | NoDoubt
    | PreparationAcquisition(serial: nat)
    | CandidateAcquisition
    | ResetAcquisition
    | PreparationRelease
    | CandidateRelease
    | DrainRelease
    | ResetRelease

  datatype Leases = Leases(admission: Admission, next: nat, released: seq<nat>, doubt: Doubt)

  datatype Published = Published(token: nat, generation: nat)

  /**
   Who claimed the finish of which preparation, and the settlements of custody
   that were not confirmed: `fetched` preparations (by serial, with their token)
   passed their checks, and `raced` says that such a failure was recorded when a
   candidate was already in place.
   */
  datatype Custody = Custody(claims: map<nat, Claimer>, fetched: map<nat, nat>, raced: bool)

  datatype Controller = Controller(
    slots: Slots, tokens: Tokens, leases: Leases, epoch: nat, serial: nat,
    ever: seq<Published>, failure: Option<nat>, custody: Custody)

  datatype Acquired = Got | Refused | Uncertain

  datatype PrepEvent =
    | BeginPreparation(token: nat)
    | Settled(outcome: Acquired)
    | BeginOperation
    | EndOperation(store: bool)
    | ActivateCustody
    | CompleteCustody
    | FinishPreparation(who: Claimer)
    | FetchFailedCustody
    | RecordFailedCustody(serial: nat)
    | ReleasePreparation(uncertain: bool, other: bool)
    | ReportPreparation
    | ClearPreparation

  datatype StartEvent =
    | BeginCall(token: nat, persistent: bool)
    | Probe(token: nat)
    | Reserve(token: nat)
    | Adopt(token: nat, valid: bool)
    | AcquireOwn(token: nat, outcome: Acquired)
    | Commit(token: nat)
    | CloseCandidate(token: nat, uncertain: bool, other: bool)
    | Release(token: nat)
    | FinishCall(token: nat)
    | Retire(token: nat)
    | Forget(token: nat)

  datatype EndEvent =
    | Abandon(token: nat)
    | Down(token: nat)
    | LogoutDown
    | Stop
    | Quarantine(serial: nat)
    | CloseDrained(uncertain: bool, other: bool)
    | FinishDrain
    | BeginLogout
    | FinishLogout
    | LogoutReceipt(token: nat)
    | Acknowledge(token: nat)

  datatype ResetEvent =
    | BeginReset(token: nat)
    | ResetAcquired(outcome: Acquired)
    | ResetCloseFailed
    | ResetReady
    | AbortReset
    | FinishReset(token: nat)
    | ReleaseReset(uncertain: bool, other: bool)
    | ReportReset
    | ClearReset

  datatype Event = Prep(p: PrepEvent) | Start(s: StartEvent) | End(e: EndEvent) | Reset(r: ResetEvent)

  const EMPTY_SLOTS := Slots(None, None, None, None, None, None)

  const INITIAL := Controller(
    EMPTY_SLOTS, Tokens({}, {}, {}, map[]), Leases(Free, 0, [], NoDoubt), 1, 0, [], None,
    Custody(map[], map[], false))

  // ------------------------------------------------------------------- parts

  function PhaseOf(x: Tokens, token: nat): (phase: Phase)
  {
    if token in x.phases then x.phases[token] else Idle
  }

  /** The dispatch of a token can no longer create or publish a runtime. */
  predicate Spent(x: Tokens, token: nat)
  {
    PhaseOf(x, token) == Leaving || PhaseOf(x, token) == Dead
  }

  function To(x: Tokens, token: nat, phase: Phase): (r: Tokens)
  {
    x.(phases := x.phases[token := phase])
  }

  /** An admission check that found a tombstone consumes it and ends the dispatch step it belongs to. */
  function Consume(x: Tokens, token: nat, phase: Phase): (r: Tokens)
  {
    To(x, token, phase).(tombstones := x.tombstones - {token})
  }

  /** acquireStateLease; a root that is already poisoned refuses without a new doubt. */
  function Acquire(l: Leases, outcome: Acquired, doubt: Doubt): (r: (Leases, Option<nat>))
  {
    if l.admission != Free || outcome == Refused then (l, None)
    else if outcome == Uncertain then (l.(admission := Poisoned, doubt := doubt), None)
    else (l.(admission := Taken(l.next), next := l.next + 1), Some(l.next))
  }

  /** The acquisition just made left the root in doubt. */
  predicate Doubts(l: Leases, outcome: Acquired)
  {
    l.admission == Free && outcome == Uncertain
  }

  /** Releasing a lease that its owner has just given up. */
  function LetGo(l: Leases, lease: Option<nat>, uncertain: bool, doubt: Doubt): (r: Leases)
  {
    if lease.None? then l
    else if uncertain then l.(admission := Poisoned, doubt := doubt, released := l.released + [lease.value])
    else l.(admission := Free, released := l.released + [lease.value])
  }

  function Fail(c: Controller, token: nat): (r: Controller)
  {
    if c.failure.None? then c.(failure := Some(token)) else c
  }

  function FailIf(c: Controller, failed: bool, token: nat): (r: Controller)
  {
    if failed then Fail(c, token) else c
  }

  predicate Idling(s: Slots)
  {
    s.preparation.None? && s.candidate.None? && s.current.None? && s.draining.None? && s.reset.None?
  }

  predicate Live(p: Preparation)
  {
    !p.abandoned && p.stage == Living
  }

  predicate LogoutOf(s: Slots, token: nat)
  {
    s.logout.Some? && s.logout.value.token == token
  }

  // ------------------------------------------------------------- preparation

  function Opened(serial: nat, token: nat): (p: Preparation)
  {
    Preparation(serial, token, false, false, false, false, false, false, false, false, Living, None)
  }

  function NextBeginPreparation(c: Controller, token: nat): (r: Controller)
  {
    if c.failure.Some? then c.(tokens := To(c.tokens, token, Dead))
    else if token in c.tokens.tombstones then c.(tokens := Consume(c.tokens, token, Dead))
    else if !Idling(c.slots) || c.slots.logout.Some? then c.(tokens := To(c.tokens, token, Dead))
    else
      c.(slots := c.slots.(preparation := Some(Opened(c.serial, token))),
         tokens := To(c.tokens, token, Prepared),
         serial := c.serial + 1)
  }

  /** The claims of the four finishers; whoever comes second waits for the first. */
  predicate MayClaim(p: Preparation, who: Claimer)
  {
    && p.settled && p.stage == Living && !p.busy
    && match who
       case Opener => p.opening
       case Abandoner => p.abandoned && !p.custodyActive
       case Custodian => p.abandoned && p.custodyActive
       case Prober => p.lease.Some? && !p.custodyActive
  }

  /**
   What finishClaimedPersistentPreparation records: an error of its own cleanup,
   or the doubt of the acquisition if the opening call itself is the finisher.
   Another finisher does not know that error.
   */
  predicate Reportable(p: Preparation)
    requires p.stage.Emptied?
  {
    p.stage.broken || (p.stage.who == Opener && p.doubtful)
  }

  predicate PrepEnabled(c: Controller, e: PrepEvent)
  {
    var slot := c.slots.preparation;
    match e
    case BeginPreparation(token) => token != 0 && PhaseOf(c.tokens, token) == Idle
    case Settled(_) => slot.Some? && !slot.value.settled
    case BeginOperation =>
      slot.Some? && Live(slot.value) && slot.value.settled && slot.value.lease.Some? && !slot.value.busy
    case EndOperation(_) => slot.Some? && slot.value.busy
    case ActivateCustody =>
      && slot.Some? && Live(slot.value) && slot.value.settled && slot.value.lease.Some?
      && !slot.value.custodyActive && !slot.value.custodyCompleted
    case CompleteCustody => slot.Some? && Live(slot.value) && !slot.value.busy && slot.value.custodyActive
    case FinishPreparation(who) => slot.Some? && MayClaim(slot.value, who)
    case FetchFailedCustody => slot.Some? && slot.value.abandoned && slot.value.custodyActive && !slot.value.busy
    case RecordFailedCustody(serial) => serial in c.custody.fetched
    case ReleasePreparation(_, _) => slot.Some? && slot.value.stage.Claimed?
    case ReportPreparation => slot.Some? && slot.value.stage.Emptied?
    case ClearPreparation => slot.Some? && slot.value.stage.Reported?
  }

  function WithPreparation(c: Controller, p: Preparation): (r: Controller)
  {
    c.(slots := c.slots.(preparation := Some(p)))
  }

  function NextPrep(c: Controller, e: PrepEvent): (r: Controller)
    requires PrepEnabled(c, e)
  {
    match e
    case BeginPreparation(token) => NextBeginPreparation(c, token)
    case Settled(outcome) =>
      var p := c.slots.preparation.value;
      var (leases, lease) := Acquire(c.leases, outcome, PreparationAcquisition(p.serial));
      WithPreparation(c, p.(settled := true, lease := lease, opening := lease.None? || p.abandoned,
                            doubtful := Doubts(c.leases, outcome)))
        .(leases := leases)
    case BeginOperation => WithPreparation(c, c.slots.preparation.value.(busy := true))
    case EndOperation(store) =>
      var p := c.slots.preparation.value;
      WithPreparation(c, p.(busy := false, hasStore := p.hasStore || (store && p.custodyActive)))
    case ActivateCustody => WithPreparation(c, c.slots.preparation.value.(custodyActive := true))
    case CompleteCustody =>
      WithPreparation(c, c.slots.preparation.value.(custodyActive := false, custodyCompleted := true))
    case FinishPreparation(who) =>
      var p := c.slots.preparation.value;
      WithPreparation(c, p.(stage := Claimed(who))).(custody := c.custody.(claims := c.custody.claims[p.serial := who]))
    case FetchFailedCustody =>
      var p := c.slots.preparation.value;
      c.(custody := c.custody.(fetched := c.custody.fetched[p.serial := p.token]))
    case RecordFailedCustody(serial) =>
      Fail(c, c.custody.fetched[serial]).(custody := c.custody.(raced := c.custody.raced || c.slots.candidate.Some?))
    case ReleasePreparation(uncertain, other) =>
      var p := c.slots.preparation.value;
      var broken := (uncertain && p.lease.Some?) || other;
      WithPreparation(c, p.(stage := Emptied(p.stage.who, broken), lease := None, hasStore := false))
        .(leases := LetGo(c.leases, p.lease, uncertain, PreparationRelease))
    case ReportPreparation =>
      var p := c.slots.preparation.value;
      FailIf(WithPreparation(c, p.(stage := Reported(p.stage.who))), Reportable(p), p.token)
    case ClearPreparation => c.(slots := c.slots.(preparation := None))
  }

  // ------------------------------------------------------------------- start

  function NextProbe(c: Controller, token: nat, persistent: bool): (r: Controller)
  {
    var s := c.slots;
    if c.failure.Some? then c.(tokens := To(c.tokens, token, Leaving))
    else if token in c.tokens.tombstones then c.(tokens := Consume(c.tokens, token, Leaving))
    else if s.logout.Some? || s.reset.Some? || s.candidate.Some? || s.draining.Some? || s.current.Some?
      then c.(tokens := To(c.tokens, token, Leaving))
    else if s.preparation.Some? && s.preparation.value.token != token
      then c.(tokens := To(c.tokens, token, Leaving))
    else c.(tokens := To(c.tokens, token, Probed(persistent)))
  }

  function Seat(c: Controller, token: nat, lease: Option<nat>, phase: Phase): (r: Controller)
  {
    c.(slots := c.slots.(preparation := None, candidate := Some(Runtime(c.serial, token, c.epoch, lease, false))),
       tokens := To(c.tokens, token, phase),
       serial := c.serial + 1)
  }

  function NextReserve(c: Controller, token: nat): (r: Controller)
  {
    if c.failure.Some? then c.(tokens := To(c.tokens, token, Leaving))
    else if token in c.tokens.tombstones then c.(tokens := Consume(c.tokens, token, Leaving))
    else if c.slots.logout.Some? || !Idling(c.slots) then c.(tokens := To(c.tokens, token, Leaving))
    else Seat(c, token, None, Reserved(c.serial))
  }

  predicate Adoptable(s: Slots, token: nat)
  {
    && s.preparation.Some? && s.preparation.value.token == token && Live(s.preparation.value)
    && !s.preparation.value.busy && !s.preparation.value.custodyActive && s.preparation.value.custodyCompleted
    && s.preparation.value.hasStore && s.preparation.value.lease.Some?
  }

  function NextAdopt(c: Controller, token: nat, valid: bool): (r: Controller)
  {
    if c.failure.Some? then c.(tokens := To(c.tokens, token, Leaving))
    else if token in c.tokens.tombstones then c.(tokens := Consume(c.tokens, token, Leaving))
    else if c.slots.logout.Some? || !Idling(c.slots.(preparation := None))
      then c.(tokens := To(c.tokens, token, Leaving))
    else if !Adoptable(c.slots, token) || !valid then c.(tokens := To(c.tokens, token, Leaving))
    else Seat(c, token, c.slots.preparation.value.lease, Holding(c.serial))
  }

  /** commit: it checks the reservation, not the failure flag. */
  predicate Commits(c: Controller, token: nat)
  {
    && PhaseOf(c.tokens, token).Holding? && c.slots.candidate.Some? && !c.slots.candidate.value.abandoned
    && c.slots.candidate.value.serial == PhaseOf(c.tokens, token).serial
    && c.slots.current.None? && c.slots.draining.None?
  }

  function NextCommit(c: Controller, token: nat): (r: Controller)
  {
    if !Commits(c, token) then c
    else
      var r := c.slots.candidate.value;
      c.(slots := c.slots.(candidate := None, current := Some(r)),
         tokens := To(c.tokens, token, Leaving),
         ever := c.ever + [Published(r.token, r.generation)])
  }

  /**
   When abandonment and quiescence waits forget a tombstone: the preparation they
   joined is gone or was adopted, or the candidate or runtime came to its end.
   */
  predicate Gone(c: Controller, token: nat)
  {
    || Spent(c.tokens, token) || Seated(PhaseOf(c.tokens, token))
    || (var phase := PhaseOf(c.tokens, token);
        && (phase == Prepared || phase == Entered(true) || phase == Probed(true))
        && (c.slots.preparation.None? || c.slots.preparation.value.token != token))
  }

  /** The start call owns a candidate. */
  predicate Seated(phase: Phase)
  {
    phase.Reserved? || phase.Faulted? || phase.Holding? || phase.Unwinding?
  }

  predicate StartEnabled(c: Controller, e: StartEvent)
  {
    && e.token != 0
    && var phase := PhaseOf(c.tokens, e.token);
       match e
       case BeginCall(_, persistent) => phase == Idle || (phase == Prepared && persistent)
       case Probe(_) => phase.Entered?
       case Reserve(_) => phase == Probed(false)
       case Adopt(_, _) => phase == Probed(true)
       case AcquireOwn(_, _) => phase.Reserved?
       case Commit(_) => phase.Holding?
       case CloseCandidate(_, _, _) => phase.Reserved? || phase.Faulted? || phase.Holding?
       case Release(_) => phase.Unwinding?
       case FinishCall(_) => phase == Leaving || phase.Entered?
       case Retire(_) => phase == Idle || phase == Prepared || phase == Dead
       case Forget(_) => Gone(c, e.token)
  }

  predicate InCandidate(s: Slots, phase: Phase)
  {
    Seated(phase) && s.candidate.Some? && s.candidate.value.serial == phase.serial
  }

  /** prepareEphemeralRuntime: the seated candidate acquires the root's lease for itself. */
  function NextAcquireOwn(c: Controller, token: nat, outcome: Acquired): (r: Controller)
    requires PhaseOf(c.tokens, token).Reserved?
  {
    var serial := PhaseOf(c.tokens, token).serial;
    if !InCandidate(c.slots, PhaseOf(c.tokens, token)) then c
    else
      var (leases, lease) := Acquire(c.leases, outcome, CandidateAcquisition);
      c.(slots := c.slots.(candidate := Some(c.slots.candidate.value.(lease := lease))),
         tokens := To(c.tokens, token,
                      if lease.Some? then Holding(serial) else Faulted(serial, Doubts(c.leases, outcome))),
         leases := leases)
  }

  /** closeUnstarted or close of a candidate whose start failed; a doubtful start error joins its result. */
  function NextCloseCandidate(c: Controller, token: nat, uncertain: bool, other: bool): (r: Controller)
  {
    var phase := PhaseOf(c.tokens, token);
    if !InCandidate(c.slots, phase) then c
    else
      var r := c.slots.candidate.value;
      var broken := (phase.Faulted? && phase.doubtful) || (uncertain && r.lease.Some?) || other;
      c.(slots := c.slots.(candidate := Some(r.(lease := None))),
         tokens := To(c.tokens, token, Unwinding(phase.serial, broken)),
         leases := LetGo(c.leases, r.lease, uncertain, CandidateRelease))
  }

  function NextStart(c: Controller, e: StartEvent): (r: Controller)
    requires StartEnabled(c, e)
  {
    var x, t, phase := c.tokens, e.token, PhaseOf(c.tokens, e.token);
    match e
    case BeginCall(_, persistent) => c.(tokens := To(x, t, Entered(persistent)).(calls := x.calls + {t}))
    case Probe(_) => NextProbe(c, t, phase.persistent)
    case Reserve(_) => NextReserve(c, t)
    case Adopt(_, valid) => NextAdopt(c, t, valid)
    case AcquireOwn(_, outcome) => NextAcquireOwn(c, t, outcome)
    case Commit(_) => NextCommit(c, t)
    case CloseCandidate(_, uncertain, other) => NextCloseCandidate(c, t, uncertain, other)
    case Release(_) =>
      var freed := if InCandidate(c.slots, phase) then c.slots.(candidate := None) else c.slots;
      FailIf(c, phase.broken, t).(slots := freed, tokens := To(x, t, Leaving))
    case FinishCall(_) => c.(tokens := Consume(x, t, Dead).(calls := x.calls - {t}))
    case Retire(_) => if t in x.calls then c else c.(tokens := Consume(x, t, Dead))
    case Forget(_) => c.(tokens := x.(tombstones := x.tombstones - {t}))
  }

  // --------------------------------------------------------------------- end

  /** detachRuntimeLocked */
  function Detach(c: Controller, down: bool): (r: Controller)
    requires c.slots.current.Some?
  {
    c.(slots := c.slots.(current := None, draining := Some(Drain(c.slots.current.value, false, false, down))),
       epoch := c.epoch + 1)
  }

  predicate IsCurrent(s: Slots, token: nat)
  {
    s.current.Some? && s.current.value.token == token
  }

  /** What abandonment does to the slot that carries the token; a logout or a drain is joined instead. */
  function AbandonOwner(c: Controller, token: nat): (r: Controller)
  {
    var s := c.slots;
    if s.preparation.Some? && s.preparation.value.token == token then
      WithPreparation(c, s.preparation.value.(abandoned := true))
    else if LogoutOf(s, token) then c
    else if s.candidate.Some? && s.candidate.value.token == token then
      c.(slots := s.(candidate := Some(s.candidate.value.(abandoned := true))))
    else if s.draining.Some? && s.draining.value.runtime.token == token then c
    else if IsCurrent(s, token) then Detach(c, false)
    else c
  }

  /** One pass of AbandonRuntime's loop. */
  function NextAbandon(c: Controller, token: nat): (r: Controller)
  {
    var x := c.tokens;
    if token in x.receipts then
      c.(tokens := x.(receipts := x.receipts - {token}, tombstones := x.tombstones - {token}))
    else
      AbandonOwner(c.(tokens := x.(tombstones := x.tombstones + {token})), token)
  }

  /** One pass of closeRuntime's loop for a caller other than the logout owner. */
  function NextDown(c: Controller, token: nat): (r: Controller)
  {
    var s := c.slots;
    if LogoutOf(s, token) || s.candidate.Some? || s.draining.Some? then c
    else if IsCurrent(s, token) then Detach(c, true)
    else c
  }

  predicate EndEnabled(c: Controller, e: EndEvent)
  {
    var s := c.slots;
    match e
    case Abandon(token) => token != 0
    case Down(token) => token != 0
    case LogoutDown => s.logout.Some?
    case CloseDrained(_, _) => s.draining.Some? && !s.draining.value.closed
    case FinishDrain => s.draining.Some? && s.draining.value.closed
    case BeginLogout => s.current.Some? && s.logout.None?
    case FinishLogout => s.logout.Some? && s.current.None? && s.draining.None?
    case LogoutReceipt(token) =>
      token != 0 && (Spent(c.tokens, token) || PhaseOf(c.tokens, token) == Idle || PhaseOf(c.tokens, token) == Prepared)
    case _ => true
  }

  /** finishRuntimeDrain: the error is recorded, told to a logout of the same token, and receipted for a down. */
  function NextFinishDrain(c: Controller): (r: Controller)
    requires c.slots.draining.Some?
  {
    var s, x, d := c.slots, c.tokens, c.slots.draining.value;
    var logout := if LogoutOf(s, d.runtime.token) then Some(s.logout.value.(broken := d.broken)) else s.logout;
    FailIf(c, d.broken, d.runtime.token)
      .(slots := s.(draining := None, logout := logout),
        tokens := if d.down then x.(receipts := x.receipts + {d.runtime.token}) else x)
  }

  function NextEnd(c: Controller, e: EndEvent): (r: Controller)
    requires EndEnabled(c, e)
  {
    var s, x := c.slots, c.tokens;
    match e
    case Abandon(token) => NextAbandon(c, token)
    case Down(token) => NextDown(c, token)
    case LogoutDown =>
      if s.candidate.None? && s.draining.None? && IsCurrent(s, s.logout.value.token) then Detach(c, false) else c
    case Stop =>
      if s.logout.None? && s.candidate.None? && s.draining.None? && s.current.Some? then Detach(c, false) else c
    case Quarantine(serial) =>
      if s.current.Some? && s.current.value.serial == serial && s.current.value.generation == c.epoch
      then Detach(c, false) else c
    case CloseDrained(uncertain, other) =>
      var r := s.draining.value.runtime;
      var broken := (uncertain && r.lease.Some?) || other;
      var drained := s.draining.value.(runtime := r.(lease := None), closed := true, broken := broken);
      c.(slots := s.(draining := Some(drained)),
         leases := LetGo(c.leases, r.lease, uncertain, DrainRelease))
    case FinishDrain => NextFinishDrain(c)
    case BeginLogout => c.(slots := s.(logout := Some(Logout(s.current.value.token, false))))
    case FinishLogout =>
      FailIf(c, s.logout.value.broken, s.logout.value.token)
        .(slots := s.(logout := None), tokens := x.(receipts := x.receipts + {s.logout.value.token}))
    case LogoutReceipt(token) =>
      var spent := if Spent(x, token) then x else To(x, token, Dead);
      c.(tokens := spent.(receipts := x.receipts + {token}))
    case Acknowledge(token) => c.(tokens := x.(receipts := x.receipts - {token}))
  }

  // ------------------------------------------------------------------- reset

  function NextBeginReset(c: Controller, token: nat): (r: Controller)
  {
    var s := c.slots;
    if c.failure.Some? || !Idling(s.(current := None)) || s.logout.Some? then c
    else if s.current.None? then
      c.(slots := s.(reset := Some(ResetOp(token, Starting, false, false, None))), serial := c.serial + 1)
    else if s.current.value.lease.None? then c
    else
      c.(slots := s.(current := None, reset := Some(ResetOp(token, Starting, true, false, s.current.value.lease))),
         epoch := c.epoch + 1, serial := c.serial + 1)
  }

  predicate ResetEnabled(c: Controller, e: ResetEvent)
  {
    var slot := c.slots.reset;
    match e
    case BeginReset(token) => token != 0
    case ResetAcquired(_) =>
      slot.Some? && slot.value.stage == Starting && !slot.value.moved && slot.value.lease.None?
    case ResetCloseFailed => slot.Some? && slot.value.stage == Starting && slot.value.moved
    case ResetReady => slot.Some? && slot.value.stage == Starting && slot.value.lease.Some?
    case AbortReset => slot.Some? && slot.value.stage == Starting
    case FinishReset(_) => true
    case ReleaseReset(_, _) => slot.Some? && slot.value.stage == Finishing
    case ReportReset => slot.Some? && slot.value.stage == Closed
    case ClearReset => slot.Some? && slot.value.stage == Told
  }

  function WithReset(c: Controller, op: ResetOp): (r: Controller)
  {
    c.(slots := c.slots.(reset := Some(op)))
  }

  function NextReset(c: Controller, e: ResetEvent): (r: Controller)
    requires ResetEnabled(c, e)
  {
    var slot := c.slots.reset;
    match e
    case BeginReset(token) => NextBeginReset(c, token)
    case ResetAcquired(outcome) =>
      var (leases, lease) := Acquire(c.leases, outcome, ResetAcquisition);
      WithReset(c, slot.value.(lease := lease, stage := if lease.None? then Finishing else Starting))
        .(leases := leases)
    case ResetCloseFailed => Fail(WithReset(c, slot.value.(stage := Stuck)), slot.value.token)
    case ResetReady => WithReset(c, slot.value.(stage := Ready))
    case AbortReset => WithReset(c, slot.value.(stage := Finishing))
    case FinishReset(token) =>
      if slot.Some? && slot.value.token == token && slot.value.stage == Ready
      then WithReset(c, slot.value.(stage := Finishing)) else c
    case ReleaseReset(uncertain, other) =>
      var broken := (uncertain && slot.value.lease.Some?) || other;
      WithReset(c, slot.value.(stage := Closed, broken := broken, lease := None))
        .(leases := LetGo(c.leases, slot.value.lease, uncertain, ResetRelease))
    case ReportReset => FailIf(WithReset(c, slot.value.(stage := Told)), slot.value.broken, slot.value.token)
    case ClearReset => c.(slots := c.slots.(reset := None))
  }

  // -------------------------------------------------------------------- runs

  predicate Enabled(c: Controller, e: Event)
  {
    match e
    case Prep(p) => PrepEnabled(c, p)
    case Start(s) => StartEnabled(c, s)
    case End(x) => EndEnabled(c, x)
    case Reset(r) => ResetEnabled(c, r)
  }

  function Step(c: Controller, e: Event): (r: Controller)
  {
    if !Enabled(c, e) then c
    else
      match e
      case Prep(p) => NextPrep(c, p)
      case Start(s) => NextStart(c, s)
      case End(x) => NextEnd(c, x)
      case Reset(r) => NextReset(c, r)
  }

  /** The controller after a run; an event that is not enabled does nothing. */
  function After(c: Controller, es: seq<Event>): (r: Controller)
  {
    if es == [] then c else Step(After(c, es[..|es| - 1]), es[|es| - 1])
  }
}
