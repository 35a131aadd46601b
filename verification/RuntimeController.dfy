/**
 The runtime controller with its fields updated in place. Each method is one
 critical section and is proved equal to its event, so every sequence of calls
 is a run of Lifecycle.
 */
module RuntimeControllers {
  import opened Basics
  import opened Lifecycle
  import opened LifecycleInvariant

  datatype Refusal = InvalidToken | CleanupFailed | StartupAbandoned | LifecycleBusy | RuntimeStale | NotPrepared

  datatype Outcome<T> = Done(value: T) | Refuse(reason: Refusal)

  /** A reservation seats a new candidate or finds the active runtime. */
  datatype Reservation = NewCandidate(runtime: Runtime) | ActiveRuntime(runtime: Runtime)

  /** What one pass of AbandonRuntime tells its loop. */
  datatype AbandonPass =
    | TookReceipt | OwnsPreparation | Join | QuarantinedCandidate | Detached | Unmatched(pending: bool)

  class RuntimeController {
    var candidate: Option<Runtime>
    var current: Option<Runtime>
    var draining: Option<Drain>
    var logout: Option<Logout>
    var reset: Option<ResetOp>
    var persistentPreparation: Option<Preparation>
    var startCalls: set<nat>
    var abandonedTokens: set<nat>
    var completedLifecycle: set<nat>
    var cleanupFailure: Option<nat>
    var nodeEpoch: nat
    var nextSerial: nat

    // The environment's side: how far each dispatch is, who holds the lease, and what happened so far.
    var phases: map<nat, Phase>
    var leases: Leases
    var ever: seq<Published>
    var custody: Custody

    constructor ()
      ensures Snapshot() == INITIAL && Inv(Snapshot())
    {
      candidate, current, draining, logout, reset, persistentPreparation := None, None, None, None, None, None;
      startCalls, abandonedTokens, completedLifecycle, cleanupFailure := {}, {}, {}, None;
      nodeEpoch, nextSerial := 1, 0;
      phases, leases, ever, custody := map[], Leases(Free, 0, [], NoDoubt), [], Custody(map[], map[], false);
    }

    function TheSlots(): Slots
      reads this
    {
      Slots(persistentPreparation, candidate, current, draining, logout, reset)
    }

    function TheTokens(): Tokens
      reads this
    {
      Tokens(abandonedTokens, startCalls, completedLifecycle, phases)
    }

    function Snapshot(): Controller
      reads this
    {
      Controller(TheSlots(), TheTokens(), leases, nodeEpoch, nextSerial, ever, cleanupFailure, custody)
    }

    method RestoreSlots(s: Slots)
      modifies this`persistentPreparation, this`candidate, this`current, this`draining, this`logout, this`reset
      ensures TheSlots() == s
    {
      persistentPreparation, candidate, current := s.preparation, s.candidate, s.current;
      draining, logout, reset := s.draining, s.logout, s.reset;
    }

    method RestoreTokens(x: Tokens)
      modifies this`abandonedTokens, this`startCalls, this`completedLifecycle, this`phases
      ensures TheTokens() == x
    {
      abandonedTokens, startCalls, completedLifecycle, phases := x.tombstones, x.calls, x.receipts, x.phases;
    }

    /** The fields as other threads leave them. */
    method Restore(c: Controller)
      modifies this
      ensures Snapshot() == c
    {
      RestoreSlots(c.slots);
      RestoreTokens(c.tokens);
      leases, nodeEpoch, nextSerial, ever, cleanupFailure := c.leases, c.epoch, c.serial, c.ever, c.failure;
      custody := c.custody;
    }

    /** recordCleanupFailureLocked: the first failure sticks. */
    method RecordCleanupFailure(token: nat, failed: bool)
      modifies this`cleanupFailure
      ensures Snapshot() == FailIf(old(Snapshot()), failed, token)
    {
      if failed && cleanupFailure.None? {
        cleanupFailure := Some(token);
      }
    }

    /** The checks every admission starts with; a tombstone is consumed by the check that finds it. */
    method CheckAdmission(token: nat) returns (refusal: Option<Refusal>)
      requires token != 0
      modifies this`abandonedTokens
      ensures refusal == Some(CleanupFailed) <==> cleanupFailure.Some?
      ensures refusal == Some(StartupAbandoned) <==> cleanupFailure.None? && token in old(abandonedTokens)
      ensures refusal.None? || refusal == Some(CleanupFailed) || refusal == Some(StartupAbandoned)
      ensures abandonedTokens == if refusal == Some(StartupAbandoned) then old(abandonedTokens) - {token}
                                 else old(abandonedTokens)
    {
      if cleanupFailure.Some? { return Some(CleanupFailed); }
      if token in abandonedTokens {
        abandonedTokens := abandonedTokens - {token};
        return Some(StartupAbandoned);
      }
      return None;
    }

    method BeginStartCall(token: nat, persistent: bool) returns (r: Outcome<()>)
      modifies this`startCalls, this`phases
      ensures r.Refuse? ==> Snapshot() == old(Snapshot()) && (token == 0 || token in old(startCalls))
      ensures r.Done? && StartEnabled(old(Snapshot()), BeginCall(token, persistent)) ==>
        Snapshot() == NextStart(old(Snapshot()), BeginCall(token, persistent))
    {
      if token == 0 { return Refuse(InvalidToken); }
      if token in startCalls { return Refuse(LifecycleBusy); }
      startCalls := startCalls + {token};
      phases := phases[token := Entered(persistent)];
      return Done(());
    }

    method FinishStartCall(token: nat)
      requires StartEnabled(Snapshot(), FinishCall(token)) && Inv(Snapshot())
      modifies this`startCalls, this`abandonedTokens, this`phases
      ensures Snapshot() == NextStart(old(Snapshot()), FinishCall(token))
    {
      if token in startCalls {
        startCalls := startCalls - {token};
        abandonedTokens := abandonedTokens - {token};
        phases := phases[token := Dead];
      }
    }

    method RetireAbandonedRuntimeToken(token: nat)
      requires token != 0 ==> StartEnabled(Snapshot(), Retire(token))
      modifies this`abandonedTokens, this`phases
      ensures Snapshot() == Step(old(Snapshot()), Start(Retire(token)))
    {
      if token == 0 { return; }
      if token !in startCalls {
        abandonedTokens := abandonedTokens - {token};
        phases := phases[token := Dead];
      }
    }

    method CheckIdle() returns (idle: bool)
      ensures idle <==> Idling(TheSlots()) && logout.None?
    {
      return !(persistentPreparation.Some? || candidate.Some? || current.Some? || draining.Some? || logout.Some?
               || reset.Some?);
    }

    /** The first critical section of BeginPersistentPreparation. */
    method BeginPersistentPreparation(token: nat) returns (r: Outcome<nat>)
      modifies this`persistentPreparation, this`abandonedTokens, this`nextSerial, this`phases
      ensures token == 0 ==> r == Refuse(InvalidToken) && Snapshot() == old(Snapshot())
      ensures token != 0 ==> Snapshot() == NextBeginPreparation(old(Snapshot()), token)
      ensures r.Done? <==> token != 0 && nextSerial == old(nextSerial) + 1
      ensures r.Done? ==> r.value == old(nextSerial) && persistentPreparation == Some(Opened(r.value, token))
      ensures r.Refuse? && token != 0 ==> PhaseOf(TheTokens(), token) == Dead
    {
      if token == 0 { return Refuse(InvalidToken); }
      var refusal := CheckAdmission(token);
      var idle := CheckIdle();
      if refusal.None? && !idle {
        refusal := Some(LifecycleBusy);
      }
      if refusal.Some? {
        phases := phases[token := Dead];
        return Refuse(refusal.value);
      }
      persistentPreparation := Some(Opened(nextSerial, token));
      nextSerial := nextSerial + 1;
      phases := phases[token := Prepared];
      return Done(nextSerial - 1);
    }

    /** activeRuntimeForConfig; `persistent` is the kind of start that probes. */
    method ActiveRuntimeForConfig(token: nat, persistent: bool) returns (r: Outcome<Option<Runtime>>)
      modifies this`abandonedTokens, this`phases
      ensures token == 0 ==> r == Refuse(InvalidToken) && Snapshot() == old(Snapshot())
      ensures token != 0 ==> Snapshot() == NextProbe(old(Snapshot()), token, persistent)
      ensures token != 0 ==> (r == Done(None) <==> PhaseOf(TheTokens(), token) == Probed(persistent))
      ensures token != 0 && r != Done(None) ==> PhaseOf(TheTokens(), token) == Leaving
      ensures r.Done? && r.value.Some? ==> r.value == current
    {
      if token == 0 { return Refuse(InvalidToken); }
      var refusal := CheckAdmission(token);
      if refusal.None? && (logout.Some? || reset.Some? || candidate.Some? || draining.Some?) {
        refusal := Some(LifecycleBusy);
      }
      if refusal.None? && persistentPreparation.Some?
         && (persistentPreparation.value.token != token || current.Some?) {
        refusal := Some(LifecycleBusy);
      }
      phases := phases[token := if refusal.None? && current.None? then Probed(persistent) else Leaving];
      return if refusal.Some? then Refuse(refusal.value) else Done(current);
    }

    /** A new candidate of the present generation takes the slot, and the preparation it came from leaves. */
    method SeatCandidate(token: nat, lease: Option<nat>, phase: Phase) returns (seated: Runtime)
      modifies this`candidate, this`persistentPreparation, this`nextSerial, this`phases
      ensures Snapshot() == Seat(old(Snapshot()), token, lease, phase)
      ensures candidate == Some(seated) && persistentPreparation.None?
      ensures seated == Runtime(old(nextSerial), token, nodeEpoch, lease, false)
    {
      seated := Runtime(nextSerial, token, nodeEpoch, lease, false);
      candidate, persistentPreparation := Some(seated), None;
      phases := phases[token := phase];
      nextSerial := nextSerial + 1;
    }

    method Reserve(token: nat) returns (r: Outcome<Reservation>)
      modifies this`candidate, this`persistentPreparation, this`abandonedTokens, this`nextSerial, this`phases
      ensures token == 0 ==> r == Refuse(InvalidToken) && Snapshot() == old(Snapshot())
      ensures token != 0 ==> Snapshot() == NextReserve(old(Snapshot()), token)
      ensures r.Done? && r.value.ActiveRuntime? ==> current == Some(r.value.runtime)
      ensures r.Done? && r.value.NewCandidate? ==>
        && candidate == Some(r.value.runtime) && r.value.runtime.token == token
        && PhaseOf(TheTokens(), token) == Reserved(r.value.runtime.serial)
      ensures token != 0 && !(r.Done? && r.value.NewCandidate?) ==> PhaseOf(TheTokens(), token) == Leaving
    {
      if token == 0 { return Refuse(InvalidToken); }
      var refusal := CheckAdmission(token);
      if refusal.None?
         && (logout.Some? || reset.Some? || persistentPreparation.Some? || candidate.Some? || draining.Some?) {
        refusal := Some(LifecycleBusy);
      }
      if refusal.Some? || current.Some? {
        phases := phases[token := Leaving];
        return if refusal.Some? then Refuse(refusal.value) else Done(ActiveRuntime(current.value));
      }
      var seated := SeatCandidate(token, None, Reserved(nextSerial));
      r := Done(NewCandidate(seated));
    }

    /** The checks of adoption on the slots and on the preparation itself. */
    method CheckAdoptable(token: nat, pathsValid: bool) returns (refusal: Option<Refusal>)
      ensures refusal.None? <==>
        logout.None? && Idling(TheSlots().(preparation := None)) && Adoptable(TheSlots(), token) && pathsValid
    {
      if current.Some? || candidate.Some? || draining.Some? || logout.Some? || reset.Some? {
        return Some(LifecycleBusy);
      }
      if persistentPreparation.None? { return Some(RuntimeStale); }
      var preparation := persistentPreparation.value;
      if preparation.token != token { return Some(LifecycleBusy); }
      if preparation.abandoned { return Some(StartupAbandoned); }
      if preparation.stage != Living { return Some(RuntimeStale); }
      if preparation.busy || preparation.custodyActive || !preparation.custodyCompleted {
        return Some(LifecycleBusy);
      }
      if !preparation.hasStore || preparation.lease.None? || !pathsValid { return Some(NotPrepared); }
      return None;
    }

    /** adoptPersistentPreparation: store and lease change owner inside one critical section. */
    method AdoptPersistentPreparation(token: nat, pathsValid: bool) returns (r: Outcome<Runtime>)
      modifies this`candidate, this`persistentPreparation, this`abandonedTokens, this`nextSerial, this`phases
      ensures token == 0 ==> r == Refuse(InvalidToken) && Snapshot() == old(Snapshot())
      ensures token != 0 ==> Snapshot() == NextAdopt(old(Snapshot()), token, pathsValid)
      ensures r.Done? ==>
        && candidate == Some(r.value) && old(persistentPreparation).Some? && persistentPreparation.None?
        && r.value.lease == old(persistentPreparation).value.lease && r.value.lease.Some?
        && r.value.token == token && PhaseOf(TheTokens(), token) == Holding(r.value.serial)
      ensures token != 0 && r.Refuse? ==> PhaseOf(TheTokens(), token) == Leaving
    {
      if token == 0 { return Refuse(InvalidToken); }
      var refusal := CheckAdmission(token);
      if refusal.None? {
        refusal := CheckAdoptable(token, pathsValid);
      }
      if refusal.Some? {
        phases := phases[token := Leaving];
        return Refuse(refusal.value);
      }
      var seated := SeatCandidate(token, persistentPreparation.value.lease, Holding(nextSerial));
      r := Done(seated);
    }

    /** commit of the candidate that the start call of `token` holds. */
    method Commit(token: nat, mine: Runtime) returns (r: Outcome<()>)
      requires PhaseOf(TheTokens(), token) == Holding(mine.serial)
      modifies this`candidate, this`current, this`phases, this`ever
      ensures Snapshot() == NextCommit(old(Snapshot()), token)
      ensures r.Done? <==> Commits(old(Snapshot()), token)
    {
      if candidate.None? || candidate.value.serial != mine.serial || current.Some? || draining.Some? {
        return Refuse(LifecycleBusy);
      }
      if candidate.value.abandoned { return Refuse(StartupAbandoned); }
      current := candidate;
      candidate := None;
      phases := phases[token := Leaving];
      ever := ever + [Published(current.value.token, current.value.generation)];
      return Done(());
    }

    /** The acquisition of an ephemeral start, made for the candidate it already holds. */
    method AcquireOwn(token: nat, mine: Runtime, outcome: Acquired) returns (ok: bool)
      requires token != 0 && PhaseOf(TheTokens(), token) == Reserved(mine.serial)
      requires candidate.Some? && candidate.value.serial == mine.serial
      modifies this`candidate, this`leases, this`phases
      ensures Snapshot() == Step(old(Snapshot()), Start(StartEvent.AcquireOwn(token, outcome)))
      ensures ok ==> PhaseOf(TheTokens(), token) == Holding(mine.serial)
      ensures !ok ==> PhaseOf(TheTokens(), token) == Faulted(mine.serial, Doubts(old(leases), outcome))
    {
      var (after, lease) := Acquire(leases, outcome, CandidateAcquisition);
      candidate := Some(candidate.value.(lease := lease));
      phases := phases[token := if lease.Some? then Holding(mine.serial)
                                else Faulted(mine.serial, Doubts(leases, outcome))];
      leases := after;
      return lease.Some?;
    }

    /** The resources of an unpublished candidate are closed before it is released. */
    method CloseCandidate(token: nat, mine: Runtime, uncertain: bool, other: bool)
      requires StartEnabled(Snapshot(), StartEvent.CloseCandidate(token, uncertain, other))
      requires PhaseOf(TheTokens(), token).serial == mine.serial
      requires candidate.Some? && candidate.value.serial == mine.serial
      modifies this`candidate, this`leases, this`phases
      ensures Snapshot() == NextStart(old(Snapshot()), StartEvent.CloseCandidate(token, uncertain, other))
      ensures PhaseOf(TheTokens(), token).Unwinding? && PhaseOf(TheTokens(), token).serial == mine.serial
    {
      var doubtful := phases[token].Faulted? && phases[token].doubtful;
      var broken := doubtful || (uncertain && candidate.value.lease.Some?) || other;
      leases := LetGo(leases, candidate.value.lease, uncertain, CandidateRelease);
      candidate := Some(candidate.value.(lease := None));
      phases := phases[token := Unwinding(mine.serial, broken)];
    }

    /** release: the error of the cleanup is recorded, then the slot is freed. */
    method Release(token: nat, mine: Runtime)
      requires StartEnabled(Snapshot(), StartEvent.Release(token))
      requires PhaseOf(TheTokens(), token).serial == mine.serial
      modifies this`candidate, this`cleanupFailure, this`phases
      ensures Snapshot() == NextStart(old(Snapshot()), StartEvent.Release(token))
    {
      RecordCleanupFailure(token, phases[token].broken);
      if candidate.Some? && candidate.value.serial == mine.serial {
        candidate := None;
      }
      phases := phases[token := Leaving];
    }

    method IsAbandoned(mine: Runtime) returns (abandoned: bool)
      ensures abandoned <==> !(candidate.Some? && candidate.value.serial == mine.serial && !candidate.value.abandoned)
    {
      return candidate.None? || candidate.value.serial != mine.serial || candidate.value.abandoned;
    }

    method BeginLogout(mine: Runtime, cancelled: bool) returns (r: Outcome<nat>)
      modifies this`logout
      ensures r.Done? <==> current == Some(mine) && mine.token != 0 && !cancelled && old(logout).None?
      ensures r.Done? ==>
        EndEnabled(old(Snapshot()), EndEvent.BeginLogout)
        && Snapshot() == NextEnd(old(Snapshot()), EndEvent.BeginLogout)
      ensures r.Refuse? ==> Snapshot() == old(Snapshot())
    {
      if mine.token == 0 || current != Some(mine) || cancelled { return Refuse(RuntimeStale); }
      if logout.Some? { return Refuse(LifecycleBusy); }
      logout := Some(Logout(mine.token, false));
      return Done(mine.token);
    }

    method FinishLogout()
      requires EndEnabled(Snapshot(), EndEvent.FinishLogout)
      modifies this`logout, this`cleanupFailure, this`completedLifecycle
      ensures Snapshot() == NextEnd(old(Snapshot()), EndEvent.FinishLogout)
    {
      RecordCleanupFailure(logout.value.token, logout.value.broken);
      completedLifecycle := completedLifecycle + {logout.value.token};
      logout := None;
    }

    /** detachRuntimeLocked: the slot empties and the epoch moves in one critical section. */
    method DetachRuntime(down: bool)
      requires current.Some?
      modifies this`current, this`draining, this`nodeEpoch
      ensures Snapshot() == Detach(old(Snapshot()), down)
    {
      draining := Some(Drain(current.value, false, false, down));
      current := None;
      nodeEpoch := nodeEpoch + 1;
    }

    /** close of the detached runtime; its lease goes, for certain or not. */
    method CloseDrained(uncertain: bool, other: bool)
      requires EndEnabled(Snapshot(), EndEvent.CloseDrained(uncertain, other))
      modifies this`draining, this`leases
      ensures Snapshot() == NextEnd(old(Snapshot()), EndEvent.CloseDrained(uncertain, other))
    {
      var r := draining.value.runtime;
      leases := LetGo(leases, r.lease, uncertain, DrainRelease);
      draining := Some(draining.value.(
        runtime := r.(lease := None), closed := true, broken := (uncertain && r.lease.Some?) || other));
    }

    method FinishRuntimeDrain()
      requires EndEnabled(Snapshot(), FinishDrain)
      modifies this`draining, this`logout, this`cleanupFailure, this`completedLifecycle
      ensures Snapshot() == NextEnd(old(Snapshot()), FinishDrain)
    {
      var drain := draining.value;
      RecordCleanupFailure(drain.runtime.token, drain.broken);
      if logout.Some? && logout.value.token == drain.runtime.token {
        logout := Some(logout.value.(broken := drain.broken));
      }
      if drain.down {
        completedLifecycle := completedLifecycle + {drain.runtime.token};
      }
      draining := None;
    }

    /** What the result of a pass says about the slots it leaves. */
    ghost predicate Tells(pass: AbandonPass, token: nat)
      reads this
    {
      match pass
      case OwnsPreparation =>
        && persistentPreparation.Some? && persistentPreparation.value.token == token
        && persistentPreparation.value.abandoned
      case QuarantinedCandidate => candidate.Some?
      case Detached => draining.Some? && draining.value.runtime.token == token && !draining.value.closed
      case Unmatched(_) => !IsCurrent(TheSlots(), token)
      case _ => true
    }

    /** The part of AbandonRuntime that looks for the slot carrying the token. */
    method AbandonSlot(token: nat) returns (pass: AbandonPass)
      modifies this`persistentPreparation, this`candidate, this`current, this`draining, this`nodeEpoch
      ensures Snapshot() == AbandonOwner(old(Snapshot()), token)
      ensures pass.Detached? <==> current != old(current)
      ensures pass.Detached? ==> IsCurrent(old(TheSlots()), token)
      ensures !pass.TookReceipt? && Tells(pass, token)
    {
      if persistentPreparation.Some? && persistentPreparation.value.token == token {
        persistentPreparation := Some(persistentPreparation.value.(abandoned := true));
        return OwnsPreparation;
      }
      pass := AbandonLater(token);
    }

    /** The slots that come after the preparation. */
    method AbandonLater(token: nat) returns (pass: AbandonPass)
      requires !(persistentPreparation.Some? && persistentPreparation.value.token == token)
      modifies this`candidate, this`current, this`draining, this`nodeEpoch
      ensures Snapshot() == AbandonOwner(old(Snapshot()), token)
      ensures pass.Detached? <==> current != old(current)
      ensures pass.Detached? ==> IsCurrent(old(TheSlots()), token)
      ensures !pass.TookReceipt? && !pass.OwnsPreparation? && Tells(pass, token)
    {
      if logout.Some? && logout.value.token == token { return Join; }
      if candidate.Some? && candidate.value.token == token {
        candidate := Some(candidate.value.(abandoned := true));
        return QuarantinedCandidate;
      }
      if draining.Some? && draining.value.runtime.token == token { return Join; }
      if current.None? || current.value.token != token { return Unmatched(token in startCalls); }
      DetachRuntime(false);
      return Detached;
    }

    /** One pass of AbandonRuntime's loop; Join means wait and try again. */
    method Abandon(token: nat) returns (pass: AbandonPass)
      modifies this`persistentPreparation, this`candidate, this`current, this`draining, this`nodeEpoch,
        this`abandonedTokens, this`completedLifecycle
      ensures token == 0 ==> Snapshot() == old(Snapshot())
      ensures token != 0 ==> Snapshot() == NextAbandon(old(Snapshot()), token)
      ensures pass.Detached? <==> current != old(current)
      ensures pass.Detached? ==> IsCurrent(old(TheSlots()), token)
      ensures pass.TookReceipt? <==> token != 0 && token in old(completedLifecycle)
      ensures token != 0 ==> Tells(pass, token)
    {
      hide AbandonOwner;
      if token == 0 { return Unmatched(false); }
      if token in completedLifecycle {
        completedLifecycle := completedLifecycle - {token};
        abandonedTokens := abandonedTokens - {token};
        return TookReceipt;
      }
      abandonedTokens := abandonedTokens + {token};
      pass := AbandonSlot(token);
    }

    /** One pass of closeRuntime's loop. */
    method CloseRuntime(token: nat, logoutOwner: bool) returns (detached: bool)
      requires logoutOwner ==> LogoutOf(TheSlots(), token)
      modifies this`current, this`draining, this`nodeEpoch
      ensures !logoutOwner ==> Snapshot() == Step(old(Snapshot()), End(EndEvent.Down(token)))
      ensures logoutOwner && token != 0 ==> Snapshot() == Step(old(Snapshot()), End(EndEvent.LogoutDown))
      ensures detached <==> current != old(current)
      ensures detached ==>
        && IsCurrent(old(TheSlots()), token) && draining.Some? && !draining.value.closed
        && draining.value.runtime.token == token
      ensures !detached && token != 0 && IsCurrent(TheSlots(), token) ==>
        candidate.Some? || draining.Some? || (!logoutOwner && LogoutOf(TheSlots(), token))
    {
      if token == 0 { return false; }
      if !logoutOwner && logout.Some? && logout.value.token == token { return false; }
      if candidate.Some? || draining.Some? || current.None? || current.value.token != token { return false; }
      DetachRuntime(!logoutOwner);
      return true;
    }

    /** detachRuntimeForPublicationFailure: exact object and exact epoch. */
    method QuarantineDetach(mine: Runtime) returns (owned: bool)
      modifies this`current, this`draining, this`nodeEpoch
      ensures Snapshot() == Step(old(Snapshot()), End(EndEvent.Quarantine(mine.serial)))
      ensures owned <==> current != old(current)
      ensures owned ==> draining.Some? && !draining.value.closed && draining.value.runtime == old(current).value
      ensures owned <==>
        && old(current).Some? && old(current).value.serial == mine.serial
        && old(current).value.generation == old(nodeEpoch)
    {
      if current.None? || current.value.serial != mine.serial || current.value.generation != nodeEpoch {
        return false;
      }
      DetachRuntime(false);
      return true;
    }

    /** The critical section of BeginLocalReset: an active runtime's lease moves straight to the reset. */
    method BeginLocalReset(token: nat) returns (r: Outcome<bool>)
      modifies this`current, this`reset, this`nodeEpoch, this`nextSerial
      ensures Snapshot() == Step(old(Snapshot()), Reset(BeginReset(token)))
      ensures r.Done? <==> reset != old(reset)
      ensures r.Done? ==> r.value == old(current).Some?
      ensures r == Done(true) ==>
        && old(current).Some? && current.None?
        && reset == Some(ResetOp(token, Starting, true, false, old(current).value.lease))
        && nodeEpoch == old(nodeEpoch) + 1
    {
      if token == 0 { return Refuse(InvalidToken); }
      if cleanupFailure.Some? { return Refuse(CleanupFailed); }
      if reset.Some? || persistentPreparation.Some? || candidate.Some? || draining.Some? || logout.Some? {
        return Refuse(LifecycleBusy);
      }
      if current.Some? && current.value.lease.None? { return Refuse(CleanupFailed); }
      var stopped := current.Some?;
      reset := Some(ResetOp(token, Starting, stopped, false, if stopped then current.value.lease else None));
      if stopped {
        current := None;
        nodeEpoch := nodeEpoch + 1;
      }
      nextSerial := nextSerial + 1;
      return Done(stopped);
    }

    /** The end of lease acquisition in BeginPersistentPreparation; true if there is nothing to undo. */
    method SettleAcquisition(outcome: Acquired) returns (ok: bool)
      requires PrepEnabled(Snapshot(), Settled(outcome))
      modifies this`persistentPreparation, this`leases
      ensures Snapshot() == NextPrep(old(Snapshot()), Settled(outcome))
      ensures persistentPreparation.Some? && ok == !persistentPreparation.value.opening
      ensures ok ==> persistentPreparation.value.lease.Some? && !persistentPreparation.value.abandoned
    {
      var p := persistentPreparation.value;
      var (after, lease) := Acquire(leases, outcome, PreparationAcquisition(p.serial));
      persistentPreparation := Some(p.(settled := true, lease := lease, opening := lease.None? || p.abandoned,
                                       doubtful := Doubts(leases, outcome)));
      leases := after;
      return lease.Some? && !p.abandoned;
    }

    /** The claim of finishPersistentPreparation: one finisher only. */
    method ClaimFinish(serial: nat, who: Claimer) returns (claimed: bool)
      modifies this`persistentPreparation, this`custody
      ensures claimed <==>
        && old(persistentPreparation).Some? && old(persistentPreparation).value.serial == serial
        && PrepEnabled(old(Snapshot()), FinishPreparation(who))
      ensures claimed ==> Snapshot() == NextPrep(old(Snapshot()), FinishPreparation(who))
      ensures !claimed ==> Snapshot() == old(Snapshot())
    {
      if persistentPreparation.None? || persistentPreparation.value.serial != serial { return false; }
      var p := persistentPreparation.value;
      if !MayClaim(p, who) { return false; }
      persistentPreparation := Some(p.(stage := Claimed(who)));
      custody := custody.(claims := custody.claims[serial := who]);
      return true;
    }

    /** The checks of FinishCustody for a compensation that was not confirmed. */
    method FinishCustodyFailed(token: nat) returns (r: Outcome<nat>)
      modifies this`custody
      ensures r.Done? <==>
        && old(persistentPreparation).Some? && old(persistentPreparation).value.token == token
        && PrepEnabled(old(Snapshot()), FetchFailedCustody)
      ensures r.Done? ==> Snapshot() == NextPrep(old(Snapshot()), FetchFailedCustody)
      ensures r.Done? ==> r.value in custody.fetched && custody.fetched[r.value] == token
      ensures r.Refuse? ==> Snapshot() == old(Snapshot())
    {
      if persistentPreparation.None? || persistentPreparation.value.token != token { return Refuse(RuntimeStale); }
      var p := persistentPreparation.value;
      if !p.abandoned || !p.custodyActive { return Refuse(RuntimeStale); }
      if p.busy { return Refuse(LifecycleBusy); }
      custody := custody.(fetched := custody.fetched[p.serial := token]);
      return Done(p.serial);
    }

    /** The record of a compensation that was not confirmed, made after its checks. */
    method RecordFailedCustody(serial: nat)
      requires PrepEnabled(Snapshot(), PrepEvent.RecordFailedCustody(serial))
      modifies this`cleanupFailure, this`custody
      ensures Snapshot() == NextPrep(old(Snapshot()), PrepEvent.RecordFailedCustody(serial))
      ensures cleanupFailure.Some?
    {
      RecordCleanupFailure(custody.fetched[serial], true);
      custody := custody.(raced := custody.raced || candidate.Some?);
    }

    /** cleanupResources: the store closes and the lease goes, for certain or not. */
    method ReleasePreparation(uncertain: bool, other: bool)
      requires PrepEnabled(Snapshot(), PrepEvent.ReleasePreparation(uncertain, other))
      modifies this`persistentPreparation, this`leases
      ensures Snapshot() == NextPrep(old(Snapshot()), PrepEvent.ReleasePreparation(uncertain, other))
    {
      var p := persistentPreparation.value;
      leases := LetGo(leases, p.lease, uncertain, PreparationRelease);
      persistentPreparation := Some(p.(
        stage := Emptied(p.stage.who, (uncertain && p.lease.Some?) || other), lease := None, hasStore := false));
    }

    /** finishClaimedPersistentPreparation records what the finisher knows. */
    method ReportPreparation()
      requires PrepEnabled(Snapshot(), PrepEvent.ReportPreparation)
      modifies this`persistentPreparation, this`cleanupFailure
      ensures Snapshot() == NextPrep(old(Snapshot()), PrepEvent.ReportPreparation)
    {
      var p := persistentPreparation.value;
      RecordCleanupFailure(p.token, p.stage.broken || (p.stage.who == Opener && p.doubtful));
      persistentPreparation := Some(p.(stage := Reported(p.stage.who)));
    }

    method ClearPreparation()
      requires PrepEnabled(Snapshot(), PrepEvent.ClearPreparation)
      modifies this`persistentPreparation
      ensures Snapshot() == NextPrep(old(Snapshot()), PrepEvent.ClearPreparation)
    {
      persistentPreparation := None;
    }

    /** The tombstone that an abandonment leaves is taken back once the token is finished. */
    method ForgetToken(token: nat)
      requires StartEnabled(Snapshot(), Forget(token))
      modifies this`abandonedTokens
      ensures Snapshot() == NextStart(old(Snapshot()), Forget(token))
    {
      abandonedTokens := abandonedTokens - {token};
    }

    /** The claim of FinishLocalReset. */
    method FinishLocalReset(token: nat) returns (r: Outcome<()>)
      modifies this`reset
      ensures Snapshot() == Step(old(Snapshot()), Reset(FinishReset(token)))
      ensures r.Done? <==> old(reset).Some? && old(reset).value.token == token && old(reset).value.stage == Ready
    {
      if reset.None? || reset.value.token != token { return Refuse(RuntimeStale); }
      if reset.value.stage != Ready { return Refuse(LifecycleBusy); }
      reset := Some(reset.value.(stage := Finishing));
      return Done(());
    }

    /** The reset acquires a lease of its own when no runtime handed one over. */
    method AcquireForReset(outcome: Acquired) returns (ok: bool)
      requires ResetEnabled(Snapshot(), ResetAcquired(outcome))
      modifies this`reset, this`leases
      ensures Snapshot() == NextReset(old(Snapshot()), ResetAcquired(outcome))
      ensures reset.Some? && reset.value.stage == (if ok then Starting else Finishing) && ok == reset.value.lease.Some?
    {
      var (after, lease) := Acquire(leases, outcome, ResetAcquisition);
      reset := Some(reset.value.(lease := lease, stage := if lease.None? then Finishing else Starting));
      leases := after;
      return lease.Some?;
    }

    /** The failure of the close that follows the move; the reset keeps its slot and its lease. */
    method FailResetClose()
      requires ResetEnabled(Snapshot(), ResetCloseFailed)
      modifies this`reset, this`cleanupFailure
      ensures Snapshot() == NextReset(old(Snapshot()), ResetCloseFailed)
    {
      RecordCleanupFailure(reset.value.token, true);
      reset := Some(reset.value.(stage := Stuck));
    }

    /** The marker is durable, or the reset is given up before it touches custody. */
    method SettleReset(durable: bool)
      requires ResetEnabled(Snapshot(), if durable then ResetReady else AbortReset)
      modifies this`reset
      ensures Snapshot() == NextReset(old(Snapshot()), if durable then ResetReady else AbortReset)
    {
      reset := Some(reset.value.(stage := if durable then Ready else Finishing));
    }

    /** The release of the reset's lease in finishLocalResetOperation. */
    method ReleaseReset(uncertain: bool, other: bool)
      requires ResetEnabled(Snapshot(), ResetEvent.ReleaseReset(uncertain, other))
      modifies this`reset, this`leases
      ensures Snapshot() == NextReset(old(Snapshot()), ResetEvent.ReleaseReset(uncertain, other))
    {
      var broken := (uncertain && reset.value.lease.Some?) || other;
      leases := LetGo(leases, reset.value.lease, uncertain, ResetRelease);
      reset := Some(reset.value.(stage := Closed, broken := broken, lease := None));
    }

    method ReportReset()
      requires ResetEnabled(Snapshot(), ResetEvent.ReportReset)
      modifies this`reset, this`cleanupFailure
      ensures Snapshot() == NextReset(old(Snapshot()), ResetEvent.ReportReset)
    {
      RecordCleanupFailure(reset.value.token, reset.value.broken);
      reset := Some(reset.value.(stage := Told));
    }

    method ClearReset()
      requires ResetEnabled(Snapshot(), ResetEvent.ClearReset)
      modifies this`reset
      ensures Snapshot() == NextReset(old(Snapshot()), ResetEvent.ClearReset)
    {
      reset := None;
    }

    /** One pass of closeCurrentRuntime's loop. */
    method StopCurrent() returns (detached: bool)
      modifies this`current, this`draining, this`nodeEpoch
      ensures Snapshot() == Step(old(Snapshot()), End(EndEvent.Stop))
      ensures detached <==> current != old(current)
      ensures detached ==> draining.Some? && !draining.value.closed && draining.value.runtime == old(current).value
      ensures !detached && current.Some? ==> logout.Some? || candidate.Some? || draining.Some?
    {
      if logout.Some? || candidate.Some? || draining.Some? || current.None? { return false; }
      DetachRuntime(false);
      return true;
    }
  }
}
