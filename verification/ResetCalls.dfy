/** BeginLocalReset and FinishLocalReset from entry to return, with every other thread in between. */
module ResetCalls {
  import opened Basics
  import opened Lifecycle
  import opened LifecycleInvariant
  import opened LifecycleTheorems
  import opened RuntimeControllers
  import opened ControllerCalls

  datatype BeginResult =
    | BeginOk(stopped: bool)
    | BeginRefused
    | BeginAborted(failed: bool)
    | BeginStuck                  // closing the runtime failed: the reset keeps its slot and its lease

  lemma ResetTaken(c: Controller, d: Controller, es: seq<Event>, h: Hold, e: ResetEvent)
    requires On(c, d, es, h) && ResetEnabled(d, e)
    ensures Inv(NextReset(d, e)) && NextReset(d, e) == After(c, es + [Reset(e)])
  {
    Advance(c, d, es, h, Reset(e));
    hide On, Inv, After, NextReset, ResetEnabled;
  }

  lemma ReleaseHolds(d: Controller, h: Hold, uncertain: bool, other: bool)
    requires h.Resetting? && h.op.stage == Finishing && Holds(h, d)
    ensures ResetEnabled(d, ReleaseReset(uncertain, other))
    ensures var r := NextReset(d, ReleaseReset(uncertain, other));
            && r.slots.reset.Some? && r.slots.reset.value.stage == Closed
            && Holds(Resetting(r.slots.reset.value, r.leases, h.told), r)
  {
    hide LetGo;
  }

  lemma ReportHolds(d: Controller, h: Hold)
    requires h.Resetting? && h.op.stage == Closed && Holds(h, d)
    ensures ResetEnabled(d, ReportReset)
    ensures Holds(h.(op := h.op.(stage := Told), told := h.told || h.op.broken), NextReset(d, ReportReset))
  {
  }

  method ReleaseLease(k: RuntimeController, h: Hold, ghost c: Controller, ghost es: seq<Event>)
      returns (closed: Hold, ghost es': seq<Event>)
    requires h.Resetting? && h.op.stage == Finishing && On(c, k.Snapshot(), es, h)
    modifies k
    ensures closed.Resetting? && closed.op.stage == Closed && On(c, k.Snapshot(), es', closed)
    ensures k.leases.admission == Poisoned && h.leases.admission != Poisoned ==> closed.op.broken
  {
    hide Inv, After, Step, ResetEnabled;
    ghost var d := k.Snapshot();
    var uncertain: bool, other: bool := *, *;
    ReleaseHolds(d, h, uncertain, other);
    ResetTaken(c, d, es, h, ReleaseReset(uncertain, other));
    k.ReleaseReset(uncertain, other);
    es' := es + [Reset(ReleaseReset(uncertain, other))];
    closed := Resetting(k.reset.value, k.leases, h.told);
  }

  method ReportClosed(k: RuntimeController, h: Hold, ghost c: Controller, ghost es: seq<Event>)
      returns (ghost es': seq<Event>)
    requires h.Resetting? && h.op.stage == Closed && On(c, k.Snapshot(), es, h)
    modifies k
    ensures On(c, k.Snapshot(), es', h.(op := h.op.(stage := Told), told := h.told || h.op.broken))
  {
    hide Inv, After, Step, ResetEnabled, NextReset;
    ghost var d := k.Snapshot();
    ReportHolds(d, h);
    ResetTaken(c, d, es, h, ReportReset);
    k.ReportReset();
    es' := es + [Reset(ReportReset)];
  }

  lemma ClearHolds(d: Controller, h: Hold)
    requires h.Resetting? && h.op.stage == Told && Holds(h, d)
    ensures ResetEnabled(d, ClearReset)
    ensures NextReset(d, ClearReset).slots.reset.None? && NextReset(d, ClearReset).failure == d.failure
  {
  }

  /** finishLocalResetOperation: the lease goes, a failure is recorded, then the slot is free. */
  method FinishOperation(k: RuntimeController, h: Hold, ghost c: Controller, ghost es: seq<Event>)
      returns (failed: bool, ghost es': seq<Event>)
    requires h.Resetting? && h.op.stage == Finishing && On(c, k.Snapshot(), es, h)
    modifies k
    ensures On(c, k.Snapshot(), es', Nothing) && k.reset.None?
    ensures failed ==> k.cleanupFailure.Some?
  {
    hide Inv, After, Step, ResetEnabled, NextReset;
    var closed;
    closed, es' := ReleaseLease(k, h, c, es);
    es' := Others(k, c, es', closed);
    es' := ReportClosed(k, closed, c, es');
    var told := closed.(op := closed.op.(stage := Told), told := closed.told || closed.op.broken);
    es' := Others(k, c, es', told);
    ghost var d := k.Snapshot();
    ClearHolds(d, told);
    ResetTaken(c, d, es', told, ClearReset);
    k.ClearReset();
    es' := es' + [Reset(ClearReset)];
    failed := told.told;
  }

  // ------------------------------------------------------------------ BeginLocalReset

  /** The reset owns the admitted lease, ready for custody to be deleted. */
  predicate Armed(c: Controller, token: nat)
  {
    && c.slots.reset.Some? && c.slots.reset.value.token == token && c.slots.reset.value.stage == Ready
    && c.leases.admission.Taken? && c.slots.reset.value.lease == Some(c.leases.admission.lease)
  }

  lemma BeginHolds(c: Controller, token: nat)
    requires Inv(c)
    ensures var r := Step(c, Reset(BeginReset(token)));
            r.slots.reset != c.slots.reset ==>
              && r.slots.reset.Some? && Holds(Resetting(r.slots.reset.value, c.leases, false), r)
              && var op := r.slots.reset.value;
                 && op.token == token && op.stage == Starting && op.moved == op.lease.Some? == c.slots.current.Some?
                 && (c.slots.current.Some? ==> op.lease == c.slots.current.value.lease)
  {
    hide EpochOk, TokensOk, FailureOk, PoisonOk;
  }

  lemma AcquireHolds(d: Controller, h: Hold, outcome: Acquired)
    requires h.Resetting? && h.op.stage == Starting && !h.op.moved && Holds(h, d) && Inv(d)
    ensures ResetEnabled(d, ResetAcquired(outcome)) || h.op.lease.Some?
    ensures ResetEnabled(d, ResetAcquired(outcome)) ==>
      var r := NextReset(d, ResetAcquired(outcome));
      && r.slots.reset.Some? && Holds(Resetting(r.slots.reset.value, r.leases, h.told), r)
      && r.slots.reset.value.token == h.op.token
  {
    hide Acquire, Inv;
  }

  lemma SettleHolds(d: Controller, h: Hold, durable: bool)
    requires Inv(d) && h.Resetting? && h.op.stage == Starting && Holds(h, d) && h.op.lease.Some?
    ensures ResetEnabled(d, if durable then ResetReady else AbortReset)
    ensures var r := NextReset(d, if durable then ResetReady else AbortReset);
            && r.leases == h.leases
            && (durable ==> Armed(r, h.op.token) && r.slots.reset.value.lease == h.op.lease)
            && (!durable ==> Holds(h.(op := h.op.(stage := Finishing)), r))
  {
    hide EpochOk, TokensOk, FailureOk, PoisonOk, ReleasedOnce;
  }

  lemma StuckHolds(d: Controller, h: Hold)
    requires h.Resetting? && h.op.stage == Starting && h.op.moved && Holds(h, d)
    ensures ResetEnabled(d, ResetCloseFailed)
    ensures var r := NextReset(d, ResetCloseFailed);
            r.failure.Some? && r.slots.reset == Some(h.op.(stage := Stuck)) && r.leases == h.leases
  {
  }

  /** Opening the reset's filesystem and making its marker durable, with the lease in hand. */
  method Arm(k: RuntimeController, h: Hold, ghost c: Controller, ghost es: seq<Event>)
      returns (durable: bool, failed: bool, ghost es': seq<Event>)
    requires h.Resetting? && h.op.stage == Starting && h.op.lease.Some? && On(c, k.Snapshot(), es, h)
    modifies k
    ensures On(c, k.Snapshot(), es', Nothing)
    ensures durable ==> Armed(k.Snapshot(), h.op.token) && k.leases == h.leases && k.reset.value.lease == h.op.lease
    ensures !durable ==> k.reset.None? && (failed ==> k.cleanupFailure.Some?)
  {
    hide Inv, After, Step, ResetEnabled, NextReset;
    es' := Others(k, c, es, h);
    ghost var d := k.Snapshot();
    durable, failed := *, false;
    SettleHolds(d, h, durable);
    ResetTaken(c, d, es', h, if durable then ResetReady else AbortReset);
    k.SettleReset(durable);
    es' := es' + [Reset(if durable then ResetReady else AbortReset)];
    if !durable {
      failed, es' := FinishOperation(k, h.(op := h.op.(stage := Finishing)), c, es');
    }
  }

  /**
   BeginLocalReset. On success the reset is ready and owns the lease; if it took
   over a runtime, that is the runtime's own lease, and no step of any thread
   touched the root's admission in between.
   */
  method BeginLocalReset(k: RuntimeController, token: nat) returns (r: BeginResult, ghost es: seq<Event>)
    requires Inv(k.Snapshot())
    modifies k
    ensures On(old(k.Snapshot()), k.Snapshot(), es, Nothing)
    ensures r.BeginOk? ==> Armed(k.Snapshot(), token)
    ensures r == BeginOk(true) ==>
      old(k.current).Some? && k.reset.value.lease == old(k.current).value.lease && k.leases == old(k.leases)
    ensures r.BeginAborted? ==> k.reset.None? && (r.failed ==> k.cleanupFailure.Some?)
    ensures r.BeginStuck? ==> k.cleanupFailure.Some? && k.reset.Some? && k.leases == old(k.leases)
    ensures r.BeginRefused? ==> k.Snapshot() == old(k.Snapshot())
  {
    ghost var c := k.Snapshot();
    Here(c);
    BeginHolds(c, token);
    Advance(c, c, [], Nothing, Reset(BeginReset(token)));
    assert [] + [Reset(BeginReset(token))] == [Reset(BeginReset(token))];
    var begun := k.BeginLocalReset(token);
    if begun.Refuse? { return BeginRefused, []; }
    hide Inv, After, Step, NextBeginReset;
    es := [Reset(BeginReset(token))];
    r, es := Prepare(k, Resetting(k.reset.value, k.leases, false), c, es);
  }

  /** What follows the critical section: the runtime closes, or a lease is acquired, and then the marker. */
  method Prepare(k: RuntimeController, h: Hold, ghost c: Controller, ghost es: seq<Event>)
      returns (r: BeginResult, ghost es': seq<Event>)
    requires h.Resetting? && h.op.stage == Starting && h.op.moved == h.op.lease.Some? && On(c, k.Snapshot(), es, h)
    modifies k
    ensures On(c, k.Snapshot(), es', Nothing) && !r.BeginRefused?
    ensures r.BeginOk? ==> Armed(k.Snapshot(), h.op.token) && r.stopped == h.op.moved
    ensures r == BeginOk(true) ==> k.reset.value.lease == h.op.lease && k.leases == h.leases
    ensures r.BeginAborted? ==> k.reset.None? && (r.failed ==> k.cleanupFailure.Some?)
    ensures r.BeginStuck? ==> k.cleanupFailure.Some? && k.reset.Some? && k.leases == h.leases
  {
    hide Inv, After, Step, ResetEnabled, NextReset;
    es' := Others(k, c, es, h);
    var mine, durable, failed := h, true, false;
    if h.op.moved {
      var closes: bool := *;
      if !closes {
        StuckHolds(k.Snapshot(), h);
        ResetTaken(c, k.Snapshot(), es', h, ResetCloseFailed);
        k.FailResetClose();
        return BeginStuck, es' + [Reset(ResetCloseFailed)];
      }
    } else {
      durable, mine, es' := AcquireLease(k, h, c, es');
      if !durable {
        failed, es' := FinishOperation(k, mine, c, es');
        return BeginAborted(failed), es';
      }
    }
    durable, failed, es' := Arm(k, mine, c, es');
    return if durable then BeginOk(h.op.moved) else BeginAborted(failed), es';
  }

  method AcquireLease(k: RuntimeController, h: Hold, ghost c: Controller, ghost es: seq<Event>)
      returns (ok: bool, h': Hold, ghost es': seq<Event>)
    requires h.Resetting? && h.op.stage == Starting && !h.op.moved && h.op.lease.None? && On(c, k.Snapshot(), es, h)
    modifies k
    ensures h'.Resetting? && h'.op.token == h.op.token && On(c, k.Snapshot(), es', h')
    ensures h'.op.stage == (if ok then Starting else Finishing) && ok == h'.op.lease.Some?
  {
    hide Inv, After, Step, ResetEnabled, NextReset;
    ghost var d := k.Snapshot();
    var outcome: Acquired := *;
    AcquireHolds(d, h, outcome);
    ResetTaken(c, d, es, h, ResetAcquired(outcome));
    ok := k.AcquireForReset(outcome);
    es' := es + [Reset(ResetAcquired(outcome))];
    h' := Resetting(k.reset.value, k.leases, h.told);
  }

  // ----------------------------------------------------------------- FinishLocalReset

  datatype EndResult = EndRefused | EndDone(failed: bool)

  lemma ClaimHolds(c: Controller, token: nat)
    requires Inv(c) && c.slots.reset.Some? && c.slots.reset.value.token == token && c.slots.reset.value.stage == Ready
    ensures Holds(Resetting(c.slots.reset.value.(stage := Finishing), c.leases, false),
                  Step(c, Reset(FinishReset(token))))
  {
    hide Inv;
  }

  /** FinishLocalReset: one caller claims a ready reset, and once it returns the slot is free. */
  method FinishLocalReset(k: RuntimeController, token: nat) returns (r: EndResult, ghost es: seq<Event>)
    requires Inv(k.Snapshot())
    modifies k
    ensures On(old(k.Snapshot()), k.Snapshot(), es, Nothing)
    ensures r.EndDone? <==> old(k.reset).Some? && old(k.reset).value.token == token && old(k.reset).value.stage == Ready
    ensures r.EndRefused? ==> k.Snapshot() == old(k.Snapshot())
    ensures r.EndDone? ==> k.reset.None? && (r.failed ==> k.cleanupFailure.Some?)
  {
    ghost var c := k.Snapshot();
    Here(c);
    Advance(c, c, [], Nothing, Reset(FinishReset(token)));
    assert [] + [Reset(FinishReset(token))] == [Reset(FinishReset(token))];
    var claimed := k.FinishLocalReset(token);
    es := [];
    if claimed.Refuse? { return EndRefused, es; }
    ClaimHolds(c, token);
    hide Inv, After, Step, ResetEnabled, NextReset;
    es := [Reset(FinishReset(token))];
    var h := Resetting(k.reset.value, k.leases, false);
    es := Others(k, c, es, h);
    var failed;
    failed, es := FinishOperation(k, h, c, es);
    return EndDone(failed), es;
  }
}
