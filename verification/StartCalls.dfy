/**
 A whole start call, from its entry to its return, with every other thread of
 the process running between its critical sections.
 */
module StartCalls {
  import opened Basics
  import opened Lifecycle
  import opened LifecycleInvariant
  import opened LifecycleTheorems
  import opened RuntimeControllers
  import opened ControllerCalls

  datatype StartResult = Started | AlreadyActive | StartFailed

  lemma {:induction false} AfterAppend(c: Controller, xs: seq<Event>, ys: seq<Event>)
    ensures After(c, xs + ys) == After(After(c, xs), ys)
    decreases |ys|
  {
    hide Step;
    if ys == [] {
      assert xs + ys == xs;
    } else {
      assert (xs + ys)[..|xs + ys| - 1] == xs + ys[..|ys| - 1];
      AfterAppend(c, xs, ys[..|ys| - 1]);
    }
  }

  /** A critical section of the call itself, unless it is the commit. */
  lemma OwnStep(c: Controller, d: Controller, es: seq<Event>, h: Hold, e: Event, phase: Phase)
    requires h.Calling? && On(c, d, es, h) && !(e.Start? && e.s.Commit?)
    requires InCall(phase) && PhaseOf(Step(d, e).tokens, h.call) == phase
    ensures On(c, Step(d, e), es + [e], h.(phase := phase))
  {
    Advance(c, d, es, h, e);
    StepPublishes(d, e);
    hide Step, Inv, After;
  }

  lemma SeatOf(c: Controller, token: nat)
    requires Inv(c) && Seated(PhaseOf(c.tokens, token))
    ensures SeatedAt(c.slots, token, PhaseOf(c.tokens, token).serial)
    ensures c.slots.current.None? && c.slots.draining.None? && c.slots.candidate.value.generation == c.epoch
  {
    hide LeasesOk, FailureOk, PoisonOk;
  }

  lemma NotSeated(c: Controller, token: nat)
    requires Inv(c) && PhaseOf(c.tokens, token) == Dead
    ensures token !in c.tokens.calls && !(c.slots.candidate.Some? && c.slots.candidate.value.token == token)
  {
    hide LeasesOk, FailureOk, PoisonOk;
  }

  lemma AdmissionSteps(c: Controller, d: Controller, es: seq<Event>, h: Hold, valid: bool)
    requires h.Calling? && h.call != 0 && On(c, d, es, h)
    ensures h.phase.Entered? ==> Step(d, Start(Probe(h.call))) == NextProbe(d, h.call, h.phase.persistent)
    ensures h.phase == Probed(false) ==> Step(d, Start(Reserve(h.call))) == NextReserve(d, h.call)
    ensures h.phase == Probed(true) ==> Step(d, Start(Adopt(h.call, valid))) == NextAdopt(d, h.call, valid)
  {
    hide Inv, After, NextProbe, NextReserve, NextAdopt;
  }

  /** The probe that precedes admission. */
  method ProbeActive(k: RuntimeController, h: Hold, ghost c: Controller, ghost es: seq<Event>)
      returns (free: bool, active: bool, ghost es': seq<Event>)
    requires h.Calling? && h.call != 0 && h.phase.Entered? && On(c, k.Snapshot(), es, h)
    modifies k
    ensures On(c, k.Snapshot(), es', h.(phase := if free then Probed(h.phase.persistent) else Leaving))
  {
    ghost var e, d := Start(Probe(h.call)), k.Snapshot();
    hide On, NextProbe, Step;
    AdmissionSteps(c, d, es, h, false);
    var probe := k.ActiveRuntimeForConfig(h.call, h.phase.persistent);
    free, active := probe == Done(None), probe.Done?;
    OwnStep(c, d, es, h, e, if free then Probed(h.phase.persistent) else Leaving);
    es' := es + [e];
  }

  method AdoptSeat(k: RuntimeController, token: nat, pathsValid: bool) returns (seat: Option<Runtime>)
    requires token != 0
    modifies k
    ensures k.Snapshot() == NextAdopt(old(k.Snapshot()), token, pathsValid)
    ensures PhaseOf(k.Snapshot().tokens, token) == if seat.Some? then Holding(seat.value.serial) else Leaving
    ensures seat.Some? ==> seat.value.token == token
  {
    hide NextAdopt;
    var r := k.AdoptPersistentPreparation(token, pathsValid);
    seat := if r.Done? then Some(r.value) else None;
  }

  /** Adoption of the preparation by a persistent start. */
  method AdmitPersistent(k: RuntimeController, h: Hold, ghost c: Controller, ghost es: seq<Event>)
      returns (seat: Option<Runtime>, ghost es': seq<Event>)
    requires h.Calling? && h.call != 0 && h.phase == Probed(true) && On(c, k.Snapshot(), es, h)
    modifies k
    ensures seat.Some? ==> seat.value.token == h.call
    ensures On(c, k.Snapshot(), es', h.(phase := if seat.Some? then Holding(seat.value.serial) else Leaving))
  {
    var pathsValid: bool := *;
    ghost var e, d := Start(Adopt(h.call, pathsValid)), k.Snapshot();
    hide On, NextAdopt, Step, RuntimeController.Snapshot;
    AdmissionSteps(c, d, es, h, pathsValid);
    seat := AdoptSeat(k, h.call, pathsValid);
    OwnStep(c, d, es, h, e, if seat.Some? then Holding(seat.value.serial) else Leaving);
    es' := es + [e];
  }

  method ReserveSeat(k: RuntimeController, token: nat) returns (seat: Option<Runtime>, active: bool)
    requires token != 0
    modifies k
    ensures k.Snapshot() == NextReserve(old(k.Snapshot()), token)
    ensures PhaseOf(k.Snapshot().tokens, token) == if seat.Some? then Reserved(seat.value.serial) else Leaving
    ensures seat.Some? ==> seat.value.token == token
  {
    hide NextReserve;
    var r := k.Reserve(token);
    active := r.Done? && r.value.ActiveRuntime?;
    seat := if r.Done? && r.value.NewCandidate? then Some(r.value.runtime) else None;
  }

  /** Reservation by an ephemeral start. */
  method AdmitEphemeral(k: RuntimeController, h: Hold, ghost c: Controller, ghost es: seq<Event>)
      returns (seat: Option<Runtime>, active: bool, ghost es': seq<Event>)
    requires h.Calling? && h.call != 0 && h.phase == Probed(false) && On(c, k.Snapshot(), es, h)
    modifies k
    ensures seat.Some? ==> seat.value.token == h.call
    ensures On(c, k.Snapshot(), es', h.(phase := if seat.Some? then Reserved(seat.value.serial) else Leaving))
  {
    ghost var e, d := Start(Reserve(h.call)), k.Snapshot();
    hide On, NextReserve, Step, RuntimeController.Snapshot;
    AdmissionSteps(c, d, es, h, false);
    seat, active := ReserveSeat(k, h.call);
    OwnStep(c, d, es, h, e, if seat.Some? then Reserved(seat.value.serial) else Leaving);
    es' := es + [e];
  }

  /** prepareEphemeralRuntime: it may fail before the acquisition, in it, or with the lease in hand. */
  method PrepareEphemeral(k: RuntimeController, mine: Runtime, h: Hold, ghost c: Controller, ghost es: seq<Event>)
      returns (ok: bool, phase: Phase, ghost es': seq<Event>)
    requires h.Calling? && h.call != 0 && h.phase == Reserved(mine.serial) && On(c, k.Snapshot(), es, h)
    modifies k
    ensures phase.Reserved? || phase.Faulted? || phase.Holding?
    ensures phase.serial == mine.serial && (ok ==> phase.Holding?) && On(c, k.Snapshot(), es', h.(phase := phase))
  {
    var invalid: bool := *;
    if invalid { return false, h.phase, es; }
    ghost var d := k.Snapshot();
    SeatOf(d, h.call);
    var outcome: Acquired := *;
    ghost var e := Start(AcquireOwn(h.call, outcome));
    assert PhaseOf(d.tokens, h.call) == h.phase;
    hide On, Step;
    var doubtful := Doubts(k.leases, outcome);
    ok := k.AcquireOwn(h.call, mine, outcome);
    phase := if ok then Holding(mine.serial) else Faulted(mine.serial, doubtful);
    OwnStep(c, d, es, h, e, phase);
    es' := es + [e];
    if ok { ok := *; }
  }

  /** Construction around Server.Start: any step may fail, and abandonment is looked for between steps. */
  method Construct(k: RuntimeController, mine: Runtime, h: Hold, ghost c: Controller, ghost es: seq<Event>)
      returns (ok: bool, ghost es': seq<Event>)
    requires On(c, k.Snapshot(), es, h)
    modifies k
    ensures On(c, k.Snapshot(), es', h)
  {
    hide On;
    es' := es;
    ok := true;
    for step := 0 to 4
      invariant On(c, k.Snapshot(), es', h)
    {
      es' := Others(k, c, es', h);
      ok := *;
      if !ok { return; }
      var abandoned := k.IsAbandoned(mine);
      if abandoned { return false, es'; }
    }
  }

  /** Closing the candidate's resources; its lease goes, for certain or not. */
  method CloseOwn(k: RuntimeController, mine: Runtime, h: Hold, ghost c: Controller, ghost es: seq<Event>)
      returns (broken: bool, ghost es': seq<Event>)
    requires h.Calling? && h.call != 0 && (h.phase.Reserved? || h.phase.Faulted? || h.phase.Holding?)
    requires h.phase.serial == mine.serial && On(c, k.Snapshot(), es, h)
    modifies k
    ensures On(c, k.Snapshot(), es', h.(phase := Unwinding(mine.serial, broken)))
    ensures h.phase.Faulted? && h.phase.doubtful ==> broken
  {
    var uncertain: bool, other: bool := *, *;
    ghost var e, d := Start(CloseCandidate(h.call, uncertain, other)), k.Snapshot();
    SeatOf(d, h.call);
    k.CloseCandidate(h.call, mine, uncertain, other);
    broken := k.phases[h.call].broken;
    OwnStep(c, d, es, h, e, Unwinding(mine.serial, broken));
    es' := es + [e];
    hide On, Inv;
  }

  /** The release records what closing left behind, and the doubt of an acquisition before it. */
  method ReleaseOwn(k: RuntimeController, mine: Runtime, h: Hold, ghost c: Controller, ghost es: seq<Event>)
      returns (ghost es': seq<Event>)
    requires h.Calling? && h.call != 0 && h.phase.Unwinding? && h.phase.serial == mine.serial
    requires On(c, k.Snapshot(), es, h)
    modifies k
    ensures On(c, k.Snapshot(), es', h.(phase := Leaving))
    ensures h.phase.broken ==> k.cleanupFailure.Some?
  {
    ghost var e, d := Start(Release(h.call)), k.Snapshot();
    k.Release(h.call, mine);
    OwnStep(c, d, es, h, e, Leaving);
    es' := es + [e];
    hide On, Inv;
  }

  /** The deferred cleanup of a failed start: close, let others run, release. */
  method Unwind(k: RuntimeController, mine: Runtime, h: Hold, ghost c: Controller, ghost es: seq<Event>)
      returns (ghost es': seq<Event>)
    requires h.Calling? && h.call != 0 && (h.phase.Reserved? || h.phase.Faulted? || h.phase.Holding?)
    requires h.phase.serial == mine.serial && On(c, k.Snapshot(), es, h)
    modifies k
    ensures On(c, k.Snapshot(), es', h.(phase := Leaving))
    ensures h.phase.Faulted? && h.phase.doubtful ==> k.cleanupFailure.Some?
  {
    hide On;
    var broken;
    broken, es' := CloseOwn(k, mine, h, c, es);
    es' := Others(k, c, es', h.(phase := Unwinding(mine.serial, broken)));
    es' := ReleaseOwn(k, mine, h.(phase := Unwinding(mine.serial, broken)), c, es');
  }

  /** Everything up to a seat: the probe, the admission, and the acquisition of an ephemeral start. */
  method Enter(k: RuntimeController, h: Hold, ghost c: Controller, ghost es: seq<Event>)
      returns (seat: Option<Runtime>, ok: bool, active: bool, phase: Phase, ghost es': seq<Event>)
    requires h.Calling? && h.call != 0 && h.phase.Entered? && On(c, k.Snapshot(), es, h)
    modifies k
    ensures On(c, k.Snapshot(), es', h.(phase := phase))
    ensures seat.None? ==> phase == Leaving
    ensures seat.Some? ==>
      && seat.value.token == h.call && (phase.Reserved? || phase.Faulted? || phase.Holding?)
      && phase.serial == seat.value.serial && (ok ==> phase.Holding?)
  {
    hide On;
    es' := Others(k, c, es, h);
    var free;
    free, active, es' := ProbeActive(k, h, c, es');
    if !free { return None, false, active, Leaving, es'; }
    var probed := h.(phase := Probed(h.phase.persistent));
    es' := Others(k, c, es', probed);
    ok, phase := true, Leaving;
    if h.phase.persistent {
      seat, es' := AdmitPersistent(k, probed, c, es');
      if seat.Some? { phase := Holding(seat.value.serial); }
    } else {
      seat, active, es' := AdmitEphemeral(k, probed, c, es');
      if seat.Some? {
        es' := Others(k, c, es', h.(phase := Reserved(seat.value.serial)));
        ok, phase, es' := PrepareEphemeral(k, seat.value, h.(phase := Reserved(seat.value.serial)), c, es');
      }
    }
  }

  /** The commit publishes under this token exactly when it succeeds. */
  lemma CommitStep(c: Controller, d: Controller, es: seq<Event>, h: Hold)
    requires h.Calling? && h.call != 0 && h.phase.Holding? && On(c, d, es, h)
    ensures !Commits(d, h.call) ==> NextCommit(d, h.call) == d
    ensures Commits(d, h.call) ==>
      var r := NextCommit(d, h.call);
      && Inv(r) && r == After(c, es + [Start(Commit(h.call))]) && PhaseOf(r.tokens, h.call) == Leaving
      && h.from <= r.ever && r.ever == d.ever + [Published(h.call, d.epoch)]
  {
    var e := Start(Commit(h.call));
    SeatOf(d, h.call);
    Advance(c, d, es, h, e);
    assert Step(d, e) == NextCommit(d, h.call);
    hide Inv, After, Step;
  }

  /** commit, told as a step of the run. */
  method Publish(k: RuntimeController, mine: Runtime, h: Hold, ghost c: Controller, ghost es: seq<Event>)
      returns (committed: bool)
    requires h.Calling? && h.call != 0 && h.phase == Holding(mine.serial) && On(c, k.Snapshot(), es, h)
    modifies k
    ensures !committed ==> k.Snapshot() == old(k.Snapshot())
    ensures committed ==>
      && Inv(k.Snapshot()) && k.Snapshot() == After(c, es + [Start(Commit(h.call))])
      && PhaseOf(k.TheTokens(), h.call) == Leaving
      && h.from <= k.ever && !Unpublished(h.from, k.ever, h.call)
  {
    ghost var d := k.Snapshot();
    CommitStep(c, d, es, h);
    var r := k.Commit(h.call, mine);
    committed := r.Done?;
    if committed { assert k.ever[|d.ever|].token == h.call; }
    hide Inv, After, Step;
  }

  /**
   Everything between the entry and the return. `base` is the last moment from
   which nothing more is published under the token: the entry itself, or the
   commit.
   */
  method Attempt(k: RuntimeController, h: Hold, ghost c: Controller, ghost entry: seq<Event>)
      returns (r: StartResult, from: seq<Published>, ghost base: Controller, ghost es: seq<Event>,
               ghost more: seq<Event>)
    requires h.Calling? && h.call != 0 && h.phase.Entered? && On(c, k.Snapshot(), entry, h) && h.from == c.ever
    modifies k
    ensures base == After(c, es) && from == base.ever && c.ever <= base.ever
    ensures On(base, k.Snapshot(), more, Calling(h.call, Leaving, from))
    ensures r.Started? <==> !Unpublished(c.ever, base.ever, h.call)
  {
    base, es, from := c, [], h.from;
    hide On, Step, Inv, NextCommit, Commits, Seated;
    var seat, ok, active, phase;
    seat, ok, active, phase, more := Enter(k, h, c, entry);
    if seat.None? { return if active then AlreadyActive else StartFailed, from, base, es, more; }
    var mine := seat.value;
    if ok {
      ok, more := Construct(k, mine, h.(phase := phase), c, more);
    }
    if ok {
      more := Others(k, c, more, h.(phase := phase));
      var committed := Publish(k, mine, h.(phase := phase), c, more);
      if committed {
        base, es, from := k.Snapshot(), more + [Start(Commit(h.call))], k.ever;
        Rebased(base, h.call);
        return Started, from, base, es, [];
      }
    }
    more := Unwind(k, mine, h.(phase := phase), c, more);
    return StartFailed, from, base, es, more;
  }

  lemma Rebased(c: Controller, token: nat)
    requires Inv(c) && PhaseOf(c.tokens, token) == Leaving
    ensures On(c, c, [], Calling(token, Leaving, c.ever))
  {
    hide Inv;
  }

  /** What the end of a call leaves: a spent dispatch with no candidate, and a publication or none. */
  ghost predicate Ended(c: Controller, d: Controller, es: seq<Event>, token: nat, published: bool)
  {
    && Inv(d) && d == After(c, es) && PhaseOf(d.tokens, token) == Dead && token !in d.tokens.calls
    && !(d.slots.candidate.Some? && d.slots.candidate.value.token == token)
    && (published <==> !Unpublished(c.ever, d.ever, token))
  }

  lemma Grows(from: seq<Published>, base: seq<Published>, ever: seq<Published>, token: nat)
    requires from <= base && Unpublished(base, ever, token)
    ensures Unpublished(from, base, token) <==> Unpublished(from, ever, token)
  {
    if !Unpublished(from, base, token) {
      var i :| |from| <= i < |base| && base[i].token == token;
      assert ever[i].token == token;
    }
  }

  lemma Finishes(c: Controller, base: Controller, d: Controller, es: seq<Event>, more: seq<Event>, token: nat)
    requires base == After(c, es) && c.ever <= base.ever && token != 0
    requires On(base, d, more, Calling(token, Leaving, base.ever))
    ensures var e := Start(FinishCall(token));
            && Enabled(d, e)
            && Ended(c, Step(d, e), es + (more + [e]), token, !Unpublished(c.ever, base.ever, token))
  {
    var e, h := Start(FinishCall(token)), Calling(token, Leaving, base.ever);
    Advance(base, d, more, h, e);
    AfterAppend(c, es, more + [e]);
    StepPublishes(d, e);
    NotSeated(Step(d, e), token);
    Grows(c.ever, base.ever, d.ever, token);
    hide Inv, After;
  }

  /**
   A start call: whatever every other thread does in between, it ends with its
   dispatch spent, no candidate of its own left behind, and its token published
   exactly if it reports success.
   */
  method StartRuntime(k: RuntimeController, token: nat, persistent: bool)
      returns (r: StartResult, ghost es: seq<Event>)
    requires Inv(k.Snapshot()) && StartEnabled(k.Snapshot(), BeginCall(token, persistent))
    modifies k
    ensures Ended(old(k.Snapshot()), k.Snapshot(), es, token, r.Started?)
  {
    ghost var c := k.Snapshot();
    var h := Calling(token, Entered(persistent), k.ever);
    Entry(c, token, persistent);
    var begun := k.BeginStartCall(token, persistent);
    assert begun.Done?;
    hide Ended, After, Inv, On, Unpublished;
    ghost var base, prefix, more;
    var from;
    r, from, base, prefix, more := Attempt(k, h, c, [Start(BeginCall(token, persistent))]);
    Finishes(c, base, k.Snapshot(), prefix, more, token);
    LastStep(base, k.Snapshot(), more, token, base.ever);
    k.FinishStartCall(token);
    es := prefix + (more + [Start(FinishCall(token))]);
  }

  lemma Entry(c: Controller, token: nat, persistent: bool)
    requires Inv(c) && StartEnabled(c, BeginCall(token, persistent))
    ensures var e := BeginCall(token, persistent);
            On(c, NextStart(c, e), [Start(e)], Calling(token, Entered(persistent), c.ever)) && token !in c.tokens.calls
  {
    var e := Start(BeginCall(token, persistent));
    Here(c);
    Advance(c, c, [], Nothing, e);
    assert [] + [e] == [e];
    hide After, EpochOk, LeasesOk, FailureOk, PoisonOk;
  }

  lemma LastStep(base: Controller, d: Controller, more: seq<Event>, token: nat, from: seq<Published>)
    requires On(base, d, more, Calling(token, Leaving, from)) && token != 0
    ensures Inv(d) && StartEnabled(d, FinishCall(token))
  {
    hide Inv, After;
  }
}
