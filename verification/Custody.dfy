/**
 One persistent preparation between lease acquisition and its end: the key
 custody flags, the one initial envelope write, and abandonment racing it. Each
 critical section of the preparation's own mutex is one event, and so is the
 rename that puts the envelope on disk.
 */
module Custody {
  import opened Basics

  datatype Action = Provision | Open

  datatype Disposition = NoAction | CompensateKey | PreserveCoherentPair

  datatype Envelope = NotStarted | InFlight | NotCommitted | Committed

  datatype Operation = Inspect | Prepare

  /** Where the thread of the operation in flight stands. */
  datatype Worker = Away | Begun(op: Operation) | Attempting | Writing | Ending

  /** The channel an abandonment waits on before it reports. */
  datatype Wait = Nothing | OperationDone(op: nat) | WriteDone

  datatype Pending = Pending(held: bool, wait: Wait, captured: Disposition)

  datatype Flags = Flags(
    settled: bool, abandoned: bool, custodyActive: bool, custodyCompleted: bool, writeAttempted: bool,
    resolved: Option<Option<Action>>, dekSupplied: bool, prepareAttempted: bool, hasStore: bool, ended: bool)

  /**
   `renamed` is what the disk says; `reports` are the dispositions abandonment
   returned to the supervisor, newest last.
   */
  datatype State = State(
    flags: Flags, envelope: Envelope, operation: Option<nat>, operations: nat, worker: Worker, renamed: bool,
    pending: set<Pending>, reports: seq<Disposition>)

  datatype Event =
    | Settle
    | Activate
    | Resolve(action: Option<Action>)
    | MarkWrite
    | SupplyKey
    | BeginOperation(op: Operation)
    | Claim
    | OpenExisting(ok: bool)
    | BeginWrite
    | Rename
    | RecordCommit
    | SettleWrite
    | EndOperation
    | Complete
    | Finish
    | Abandon
    | Report(p: Pending)

  const INITIAL := State(
    Flags(false, false, false, false, false, None, false, false, false, false), NotStarted, None, 0, Away, false, {},
    [])

  predicate Live(s: State)
  {
    !s.flags.abandoned && !s.flags.ended
  }

  function DispositionOf(s: State): (d: Disposition)
  {
    if s.envelope == Committed then PreserveCoherentPair
    else if s.flags.writeAttempted then CompensateKey
    else NoAction
  }

  /** abandonDisposition: what it returns besides setting the flag. */
  function Capture(s: State): (p: Pending)
  {
    if !s.flags.settled then Pending(false, Nothing, NoAction)
    else
      var wait :=
        if s.operation.Some? then OperationDone(s.operation.value)
        else if s.envelope == InFlight then WriteDone
        else Nothing;
      Pending(s.flags.custodyActive, wait, DispositionOf(s))
  }

  predicate Closed(s: State, wait: Wait)
  {
    match wait
    case Nothing => true
    case OperationDone(op) => s.operation != Some(op)
    case WriteDone => s.envelope != InFlight
  }

  /** The claim that lets at most one attempt past: repeated calls reuse the store or are refused. */
  predicate Claims(s: State)
  {
    && s.flags.custodyActive && !s.flags.custodyCompleted && s.flags.resolved.Some? && s.flags.resolved.value.Some?
    && !s.flags.hasStore && !s.flags.prepareAttempted
  }

  predicate WriteAllowed(s: State)
  {
    Live(s) && s.flags.writeAttempted && s.flags.dekSupplied && s.envelope == NotStarted
  }

  predicate Enabled(s: State, e: Event)
  {
    match e
    case Settle => !s.flags.settled
    case Activate => Live(s) && s.flags.settled && !s.flags.custodyActive && !s.flags.custodyCompleted
    case Resolve(_) => Live(s) && s.flags.custodyActive && s.flags.resolved.None?
    case MarkWrite => Live(s) && s.flags.custodyActive
    case SupplyKey => Live(s) && s.flags.custodyActive && !s.flags.dekSupplied && s.envelope == NotStarted
    case BeginOperation(_) => Live(s) && s.flags.settled && s.operation.None?
    case Claim => s.worker.Begun?
    case OpenExisting(_) => s.worker == Attempting && s.flags.resolved == Some(Some(Open))
    case BeginWrite => s.worker == Attempting && s.flags.resolved == Some(Some(Provision))
    case Rename => s.worker == Writing && s.envelope == InFlight && !s.renamed
    case RecordCommit => s.worker == Writing && s.envelope == InFlight && s.renamed
    case SettleWrite => s.worker == Writing && (s.renamed ==> s.envelope == Committed)
    case EndOperation => s.worker == Ending
    case Complete =>
      && Live(s) && s.operation.None? && s.flags.custodyActive && s.flags.resolved.Some?
      && (s.flags.writeAttempted ==> s.envelope == Committed)
    case Finish =>
      s.flags.settled && !s.flags.ended && s.operation.None? && (s.flags.custodyActive ==> s.flags.abandoned)
    case Abandon => true
    case Report(p) => p in s.pending && Closed(s, p.wait)
  }

  function Next(s: State, e: Event): (r: State)
    requires Enabled(s, e)
  {
    match e
    case Settle => s.(flags := s.flags.(settled := true))
    case Activate => s.(flags := s.flags.(custodyActive := true))
    case Resolve(action) => s.(flags := s.flags.(resolved := Some(action)))
    case MarkWrite => s.(flags := s.flags.(writeAttempted := true))
    case SupplyKey => s.(flags := s.flags.(dekSupplied := true))
    case BeginOperation(op) =>
      s.(operation := Some(s.operations), operations := s.operations + 1, worker := Begun(op))
    case Claim =>
      if s.worker.op == Prepare && Claims(s)
      then s.(flags := s.flags.(prepareAttempted := true), worker := Attempting)
      else s.(worker := Ending)
    case OpenExisting(ok) =>
      s.(flags := s.flags.(dekSupplied := false, hasStore := ok && s.flags.dekSupplied && Live(s)), worker := Ending)
    case BeginWrite =>
      if WriteAllowed(s) then s.(flags := s.flags.(dekSupplied := false), envelope := InFlight, worker := Writing)
      else s.(worker := Ending)
    case Rename => s.(renamed := true)
    case RecordCommit => s.(envelope := Committed)
    case SettleWrite =>
      s.(envelope := if s.envelope == InFlight then NotCommitted else s.envelope,
         flags := s.flags.(hasStore := s.envelope == Committed), worker := Ending)
    case EndOperation => s.(operation := None, worker := Away)
    case Complete => s.(flags := s.flags.(custodyActive := false, custodyCompleted := true, dekSupplied := false))
    case Finish => s.(flags := s.flags.(ended := true, dekSupplied := false, hasStore := false))
    case Abandon => s.(flags := s.flags.(abandoned := true), pending := s.pending + {Capture(s)})
    case Report(p) =>
      var disposition := if p.wait == Nothing then p.captured else DispositionOf(s);
      s.(pending := s.pending - {p},
         reports := if p.held && s.flags.settled then s.reports + [disposition] else s.reports)
  }

  function Step(s: State, e: Event): (r: State)
  {
    if Enabled(s, e) then Next(s, e) else s
  }

  function After(s: State, es: seq<Event>): (r: State)
  {
    if es == [] then s else Step(After(s, es[..|es| - 1]), es[|es| - 1])
  }

  // --------------------------------------------------------------- invariant

  /** The recorded outcome of the write against the disk. */
  predicate WriteOk(s: State)
  {
    && (s.worker == Away <==> s.operation.None?)
    && (s.operation.Some? ==> s.operation.value < s.operations)
    && (s.envelope == InFlight ==> s.worker == Writing)
    && (s.worker == Writing ==> s.envelope == InFlight || s.envelope == Committed)
    && (s.envelope == Committed ==> s.renamed)
    && (s.renamed ==> s.envelope == Committed || s.envelope == InFlight)
    && (s.envelope != NotStarted ==> s.flags.writeAttempted)
  }

  /** Nothing about key and envelope can change any more. */
  predicate Frozen(s: State)
  {
    s.flags.abandoned && s.worker == Away
  }

  predicate PendingOk(s: State, p: Pending)
  {
    && s.flags.abandoned
    && (p.wait == Nothing && p.held ==> Frozen(s) && p.captured == DispositionOf(s))
    && (p.wait.OperationDone? ==> p.wait.op < s.operations && (s.operation == Some(p.wait.op) || Frozen(s)))
    && p.wait != WriteDone
  }

  /** What a report says is what the key write and the disk say. */
  predicate Truthful(s: State, d: Disposition)
  {
    && (d == PreserveCoherentPair <==> s.renamed)
    && (d == CompensateKey <==> s.flags.writeAttempted && !s.renamed)
    && (d == NoAction <==> !s.flags.writeAttempted)
  }

  predicate Inv(s: State)
  {
    && WriteOk(s)
    && (forall p :: p in s.pending ==> PendingOk(s, p))
    && (s.reports != [] ==> Frozen(s))
    && (forall i :: 0 <= i < |s.reports| ==> Truthful(s, s.reports[i]))
  }

  lemma StepKeepsInv(s: State, e: Event)
    requires Inv(s)
    ensures Inv(Step(s, e))
  {
  }

  /** Once abandoned with no operation in flight, key and envelope are final. */
  lemma StepKeepsFrozen(s: State, e: Event)
    requires Inv(s) && Frozen(s)
    ensures var r := Step(s, e);
            Frozen(r) && r.renamed == s.renamed && r.envelope == s.envelope
            && r.flags.writeAttempted == s.flags.writeAttempted
  {
  }

  lemma {:induction false} RunKeepsInv(s: State, es: seq<Event>)
    requires Inv(s)
    ensures Inv(After(s, es))
    decreases |es|
  {
    hide Inv, Step;
    if es != [] {
      RunKeepsInv(s, es[..|es| - 1]);
      StepKeepsInv(After(s, es[..|es| - 1]), es[|es| - 1]);
    }
  }

  lemma {:induction false} RunKeepsFrozen(s: State, es: seq<Event>)
    requires Inv(s) && Frozen(s)
    ensures var r := After(s, es);
            Frozen(r) && r.renamed == s.renamed && r.envelope == s.envelope
            && r.flags.writeAttempted == s.flags.writeAttempted
    decreases |es|
  {
    hide Inv, Step;
    if es != [] {
      RunKeepsFrozen(s, es[..|es| - 1]);
      RunKeepsInv(s, es[..|es| - 1]);
      StepKeepsFrozen(After(s, es[..|es| - 1]), es[|es| - 1]);
    }
  }

  /**
   Abandonment against a racing envelope write: preserve is reported exactly
   when the rename committed, compensate exactly when a key write was attempted
   without one, and whatever runs after a report no rename follows it.
   */
  lemma ReportsAreFinal(es: seq<Event>, later: seq<Event>, i: nat)
    requires i < |After(INITIAL, es).reports|
    ensures Truthful(After(INITIAL, es), After(INITIAL, es).reports[i])
    ensures Truthful(After(After(INITIAL, es), later), After(INITIAL, es).reports[i])
    ensures After(After(INITIAL, es), later).renamed == After(INITIAL, es).renamed
  {
    RunKeepsInv(INITIAL, es);
    RunKeepsFrozen(After(INITIAL, es), later);
  }

  lemma AfterOne(s: State, es: seq<Event>, e: Event)
    ensures After(s, es + [e]) == Step(After(s, es), e)
  {
    assert (es + [e])[..|es|] == es;
  }

  const RACING_FLAGS := Flags(true, false, true, false, true, Some(Some(Provision)), false, true, false, false)

  /** The envelope write is in flight when abandonment captures its provisional answer. */
  const RACE := Pending(true, OperationDone(0), CompensateKey)

  lemma KeySupplied() returns (es: seq<Event>)
    ensures After(INITIAL, es)
            == INITIAL.(flags := RACING_FLAGS.(dekSupplied := true, prepareAttempted := false))
  {
    hide After;
    es := [];
    InitialRun();
    AfterOne(INITIAL, es, Settle);
    es := es + [Settle];
    AfterOne(INITIAL, es, Activate);
    es := es + [Activate];
    AfterOne(INITIAL, es, Resolve(Some(Provision)));
    es := es + [Resolve(Some(Provision))];
    AfterOne(INITIAL, es, MarkWrite);
    es := es + [MarkWrite];
    AfterOne(INITIAL, es, SupplyKey);
    es := es + [SupplyKey];
  }

  lemma InitialRun()
    ensures After(INITIAL, []) == INITIAL
  {
  }

  lemma Racing() returns (es: seq<Event>)
    ensures After(INITIAL, es)
            == State(RACING_FLAGS.(abandoned := true), InFlight, Some(0), 1, Writing, false, {RACE}, [])
  {
    hide After;
    es := KeySupplied();
    AfterOne(INITIAL, es, BeginOperation(Prepare));
    es := es + [BeginOperation(Prepare)];
    AfterOne(INITIAL, es, Claim);
    es := es + [Claim];
    AfterOne(INITIAL, es, BeginWrite);
    es := es + [BeginWrite];
    AfterOne(INITIAL, es, Abandon);
    es := es + [Abandon];
  }

  /** The provisional answer was the same, yet the final report goes with the rename. */
  lemma PreserveReachable() returns (es: seq<Event>)
    ensures After(INITIAL, es).reports == [PreserveCoherentPair] && After(INITIAL, es).renamed
  {
    hide After;
    es := Racing();
    AfterOne(INITIAL, es, Rename);
    es := es + [Rename];
    AfterOne(INITIAL, es, RecordCommit);
    es := es + [RecordCommit];
    AfterOne(INITIAL, es, SettleWrite);
    es := es + [SettleWrite];
    AfterOne(INITIAL, es, EndOperation);
    es := es + [EndOperation];
    AfterOne(INITIAL, es, Report(RACE));
    es := es + [Report(RACE)];
  }

  lemma CompensateReachable() returns (es: seq<Event>)
    ensures After(INITIAL, es).reports == [CompensateKey] && !After(INITIAL, es).renamed
  {
    hide After;
    es := Racing();
    AfterOne(INITIAL, es, SettleWrite);
    es := es + [SettleWrite];
    AfterOne(INITIAL, es, EndOperation);
    es := es + [EndOperation];
    AfterOne(INITIAL, es, Report(RACE));
    es := es + [Report(RACE)];
  }

  // ---------------------------------------------------------- in-place form

  datatype Refusal = Abandoned | Terminating | NotSettled | Busy | NotActive | AlreadySupplied | Incomplete

  /** persistentPreparation; the ghost fields are the worker's position, the disk and the callers waiting. */
  class PersistentPreparation {
    var settled: bool
    var abandoned: bool
    var custodyActive: bool
    var custodyCompleted: bool
    var custodyWriteAttempted: bool
    var resolved: Option<Option<Action>>
    var dekSupplied: bool
    var statePrepareAttempted: bool
    var hasStore: bool
    var ended: bool
    var envelopeOutcome: Envelope
    var operation: Option<nat>
    var operations: nat

    ghost var worker: Worker
    ghost var renamed: bool
    ghost var pending: set<Pending>
    ghost var reports: seq<Disposition>

    ghost function TheFlags(): Flags
      reads this
    {
      Flags(settled, abandoned, custodyActive, custodyCompleted, custodyWriteAttempted, resolved, dekSupplied,
            statePrepareAttempted, hasStore, ended)
    }

    ghost function Snapshot(): State
      reads this
    {
      State(TheFlags(), envelopeOutcome, operation, operations, worker, renamed, pending, reports)
    }

    constructor ()
      ensures Snapshot() == INITIAL && Inv(Snapshot())
    {
      settled, abandoned, custodyActive, custodyCompleted, custodyWriteAttempted := false, false, false, false, false;
      resolved, dekSupplied, statePrepareAttempted, hasStore, ended := None, false, false, false, false;
      envelopeOutcome, operation, operations := NotStarted, None, 0;
      worker, renamed, pending, reports := Away, false, {}, [];
    }

    /** requireLiveLocked: abandoned wins over terminating. */
    method RequireLive() returns (refusal: Option<Refusal>)
      ensures refusal.None? <==> Live(Snapshot())
      ensures abandoned ==> refusal == Some(Abandoned)
    {
      if abandoned { return Some(Abandoned); }
      if ended { return Some(Terminating); }
      return None;
    }

    method MarkCustodyActive() returns (refusal: Option<Refusal>)
      modifies this`custodyActive
      ensures refusal.None? <==> Enabled(old(Snapshot()), Activate)
      ensures Snapshot() == Step(old(Snapshot()), Activate)
    {
      refusal := RequireLive();
      if refusal.Some? { return; }
      if !settled { return Some(NotSettled); }
      if custodyActive || custodyCompleted { return Some(Busy); }
      custodyActive := true;
    }

    method MarkCustodyWriteAttempted() returns (refusal: Option<Refusal>)
      modifies this`custodyWriteAttempted
      ensures refusal.None? <==> Enabled(old(Snapshot()), MarkWrite)
      ensures Snapshot() == Step(old(Snapshot()), MarkWrite)
    {
      refusal := RequireLive();
      if refusal.Some? { return; }
      if !custodyActive { return Some(NotActive); }
      custodyWriteAttempted := true;
    }

    method SupplyPreparedDEK() returns (refusal: Option<Refusal>)
      modifies this`dekSupplied
      ensures refusal.None? <==> Enabled(old(Snapshot()), SupplyKey)
      ensures Snapshot() == Step(old(Snapshot()), SupplyKey)
    {
      refusal := RequireLive();
      if refusal.Some? { return; }
      if !custodyActive { return Some(NotActive); }
      if dekSupplied || envelopeOutcome != NotStarted { return Some(AlreadySupplied); }
      dekSupplied := true;
    }

    method Begin(op: Operation) returns (refusal: Option<Refusal>)
      modifies this`operation, this`operations, this`worker
      ensures refusal.None? <==> Enabled(old(Snapshot()), BeginOperation(op))
      ensures Snapshot() == Step(old(Snapshot()), BeginOperation(op))
    {
      refusal := RequireLive();
      if refusal.Some? { return; }
      if !settled { return Some(NotSettled); }
      if operation.Some? { return Some(Busy); }
      operation, operations, worker := Some(operations), operations + 1, Begun(op);
    }

    /** The first critical section of runInitialEnvelopeWrite. */
    method BeginInitialWrite() returns (refusal: Option<Refusal>)
      requires Enabled(Snapshot(), BeginWrite)
      modifies this`dekSupplied, this`envelopeOutcome, this`worker
      ensures Snapshot() == Step(old(Snapshot()), BeginWrite)
      ensures refusal.None? <==> WriteAllowed(old(Snapshot()))
    {
      refusal := RequireLive();
      if refusal.None? && (!custodyWriteAttempted || !dekSupplied) { refusal := Some(Incomplete); }
      if refusal.None? && envelopeOutcome != NotStarted { refusal := Some(AlreadySupplied); }
      if refusal.Some? {
        worker := Ending;
        return;
      }
      dekSupplied, envelopeOutcome, worker := false, InFlight, Writing;
    }

    /** The last critical section of runInitialEnvelopeWrite. */
    method SettleInitialWrite() returns (committed: bool)
      requires Enabled(Snapshot(), SettleWrite) && Inv(Snapshot())
      modifies this`envelopeOutcome, this`hasStore, this`worker
      ensures Snapshot() == Step(old(Snapshot()), SettleWrite)
      ensures committed <==> renamed
    {
      if envelopeOutcome == InFlight { envelopeOutcome := NotCommitted; }
      committed := envelopeOutcome == Committed;
      hasStore, worker := committed, Ending;
    }

    method CustodyDisposition() returns (d: Disposition)
      ensures d == DispositionOf(Snapshot())
      ensures Inv(Snapshot()) && Frozen(Snapshot()) ==> Truthful(Snapshot(), d)
    {
      if envelopeOutcome == Committed { return PreserveCoherentPair; }
      if custodyWriteAttempted { return CompensateKey; }
      return NoAction;
    }

    method AbandonDisposition() returns (held: bool, wait: Wait, d: Disposition)
      modifies this`abandoned, this`pending
      ensures Snapshot() == Step(old(Snapshot()), Abandon)
      ensures Pending(held, wait, d) == Capture(old(Snapshot()))
    {
      ghost var captured := Capture(Snapshot());
      abandoned := true;
      pending := pending + {captured};
      if !settled { return false, Nothing, NoAction; }
      wait := Nothing;
      if operation.Some? {
        wait := OperationDone(operation.value);
      } else if envelopeOutcome == InFlight {
        wait := WriteDone;
      }
      held := custodyActive;
      d := CustodyDisposition();
    }

    method CompletePersistentCustody() returns (refusal: Option<Refusal>)
      modifies this`custodyActive, this`custodyCompleted, this`dekSupplied
      ensures refusal.None? <==> Enabled(old(Snapshot()), Complete)
      ensures Snapshot() == Step(old(Snapshot()), Complete)
    {
      refusal := RequireLive();
      if refusal.Some? { return; }
      if operation.Some? { return Some(Busy); }
      if !custodyActive || resolved.None? { return Some(NotActive); }
      if custodyWriteAttempted && envelopeOutcome != Committed { return Some(Incomplete); }
      custodyActive, custodyCompleted, dekSupplied := false, true, false;
    }
  }
}
