/**
 The publication manager itself: its maps are updated in place under one
 mutex, around transactions that other writers interleave with. Each operation
 is proved to be a stretch of a run of PublicationRuns in which this manager
 takes at most one step.
 */
module PublicationManagers {
  import opened Basics
  import opened ServeConfigs
  import opened Mutation
  import opened Publications
  import opened Sweep
  import opened PublicationRuns

  datatype ForwardResult = Published(p: Publication, token: nat) | StaleHandle | ForwardFailed | ForwardUnknown

  /** A clear request after path normalization; None for a path that was refused. */
  datatype ClearPayload = ClearPayload(
    tailnetPort: int, mount: Option<string>, funnel: bool, generation: Option<nat>, token: Option<nat>)

  datatype ClearMode = AnyMapping | ExactMapping(generation: nat, token: nat) | BadHandle

  datatype ClearResult = ClearOk | ClearFailed | ClearUnknown

  datatype AckResult = AckOk | AckStale | AckAmbiguous

  /** clearMode: a handle needs both numbers, and both positive. */
  function ModeOf(payload: ClearPayload): (mode: ClearMode)
    ensures mode.AnyMapping? <==> payload.generation.None? && payload.token.None?
    ensures mode.ExactMapping? ==> mode.generation > 0 && mode.token > 0
  {
    if payload.generation.None? && payload.token.None? then AnyMapping
    else if payload.generation.None? || payload.token.None? then BadHandle
    else if payload.generation.value == 0 || payload.token.value == 0 then BadHandle
    else ExactMapping(payload.generation.value, payload.token.value)
  }

  /** The clear a valid request asks for. */
  function RequestedClear(host: string, payload: ClearPayload, mode: ClearMode): (plan: ClearPlan)
    requires ValidPort(payload.tailnetPort) && payload.mount.Some?
  {
    ClearPlan(HostPort(host, payload.tailnetPort), payload.mount.value,
              if mode.ExactMapping? then Some(mode.token) else None, payload.funnel)
  }

  function Edits(writes: seq<Write>): (es: seq<Event>)
    ensures |es| == |writes|
    ensures forall i :: 0 <= i < |es| ==> es[i] == Edited(writes[i].next)
  {
    seq(|writes|, i requires 0 <= i < |writes| => Edited(writes[i].next))
  }

  lemma {:induction false} AfterAppend(w: World, xs: seq<Event>, ys: seq<Event>)
    ensures After(w, xs + ys) == After(After(w, xs), ys)
    decreases |ys|
  {
    if ys == [] {
      assert xs + ys == xs;
    } else {
      assert (xs + ys)[..|xs + ys| - 1] == xs + ys[..|ys| - 1];
      AfterAppend(w, xs, ys[..|ys| - 1]);
    }
  }

  /** The writes of others, told as events, move only the register. */
  lemma {:induction false} AfterEdits(w: World, writes: seq<Write>)
    requires AllForeign(writes)
    ensures After(w, Edits(writes)) == w.(served := Replay(w.served, writes))
    decreases |writes|
  {
    if writes != [] {
      var last := |writes| - 1;
      assert Edits(writes)[..last] == Edits(writes[..last]);
      AfterEdits(w, writes[..last]);
      assert writes[last] == Foreign(writes[last].next);
    }
  }

  /** A stretch of a run in which the manager takes the steps `own` between other writers. */
  ghost predicate Told(w: World, w': World, before: seq<Write>, own: seq<Event>, after: seq<Write>)
  {
    && AllForeign(before) && AllForeign(after) && |own| <= 1 && (own != [] ==> !own[0].Edited?)
    && w' == After(w, Edits(before) + own + Edits(after))
  }

  lemma TellNothing(w: World, before: seq<Write>, after: seq<Write>, end: Served)
    requires AllForeign(before) && AllForeign(after) && end == Replay(Replay(w.served, before), after)
    ensures Told(w, w.(served := end), before, [], after)
  {
    AfterEdits(w, before);
    AfterEdits(After(w, Edits(before)), after);
    assert Edits(before) + [] == Edits(before);
    AfterAppend(w, Edits(before), Edits(after));
  }

  lemma TellStep(w: World, before: seq<Write>, e: Event, after: seq<Write>, end: Served)
    requires AllForeign(before) && AllForeign(after) && !e.Edited?
    requires Enabled(w.(served := Replay(w.served, before)), e)
    requires end == Replay(NextServed(Replay(w.served, before), w.m.book, e), after)
    ensures Told(w, World(w.host, end, NextManager(w.m, e)), before, [e], after)
  {
    hide NextServed, NextManager, Enabled;
    var mid := w.(served := Replay(w.served, before));
    AfterEdits(w, before);
    assert [e][..0] == [];
    assert After(mid, [e]) == Step(After(mid, []), e) == Next(mid, e);
    AfterAppend(w, Edits(before), [e]);
    AfterEdits(Next(mid, e), after);
    AfterAppend(w, Edits(before) + [e], Edits(after));
  }

  /** The apply callback of forward: planning errors and ownership metadata checks come before the config. */
  function DecideForward(plan: Option<Publication>, sc: ServeConfig): (a: Applied)
    ensures a.Changed? ==> plan.Some? && plan.value.mount != "" && a == ApplyForward(plan.value, sc)
    ensures a != Unchanged
  {
    if plan.None? || plan.value.mount == "" then Rejected else ApplyForward(plan.value, sc)
  }

  /** The step a forward takes for each outcome of its transaction. */
  ghost predicate ForwardStep(outcome: Outcome, plan: Option<Publication>, landed: bool, step: Event)
  {
    match outcome
    case Confirmed(_) => plan.Some? && step == Forwarded(plan.value, step.Forwarded? && step.current)
    case Indeterminate => plan.Some? && step == ForwardLost(plan.value, landed)
    case _ => step == ForwardRefused
  }

  /** What the caller of forward learns about the step that was taken. */
  ghost predicate ResultTells(result: ForwardResult, plan: Option<Publication>, token: nat, own: Event)
  {
    match result
    case Published(p, drawn) => plan == Some(p) && drawn == token && own == Forwarded(p, true)
    case StaleHandle => plan.Some? && own == Forwarded(plan.value, false)
    case ForwardUnknown => own.ForwardLost? && plan == Some(own.p)
    case ForwardFailed => own == ForwardRefused
  }

  lemma ForwardOutcomes(
    start: Served, end: Served, plan: Option<Publication>, apply: ServeConfig -> Applied, outcome: Outcome,
    before: seq<Write>, after: seq<Write>, landed: bool)
    requires forall sc :: apply(sc) == DecideForward(plan, sc)
    requires Explains(start, end, apply, outcome, before, after, landed)
    ensures outcome != Confirmed(false)
    ensures outcome == Confirmed(true) || outcome == Indeterminate ==> plan.Some?
  {
    assert apply(Replay(start, before).config) == DecideForward(plan, Replay(start, before).config);
  }

  lemma TellForward(
    w: World, plan: Option<Publication>, apply: ServeConfig -> Applied, outcome: Outcome,
    before: seq<Write>, after: seq<Write>, landed: bool, end: Served, step: Event)
    requires Inv(w) && !w.m.closed && w.m.book.nextToken < MAX_TOKEN
    requires plan.Some? ==> plan.value.at.host == w.host && plan.value.at.port != 0
    requires forall sc :: apply(sc) == DecideForward(plan, sc)
    requires Explains(w.served, end, apply, outcome, before, after, landed)
    requires ForwardStep(outcome, plan, landed, step)
    ensures Told(w, World(w.host, end, NextManager(w.m, step)), before, [step], after)
    ensures Inv(World(w.host, end, NextManager(w.m, step)))
  {
    hide Inv;
    var there := Replay(w.served, before);
    assert apply(there.config) == DecideForward(plan, there.config);
    assert Enabled(w.(served := there), step);
    assert end == Replay(NextServed(there, w.m.book, step), after);
    TellStep(w, before, step, after, end);
    RunKeepsInv(w, Edits(before) + [step] + Edits(after));
  }

  /** The steps a clear takes for each outcome of its transaction. */
  function ClearSteps(outcome: Outcome, plan: ClearPlan, landed: bool): (own: seq<Event>)
  {
    match outcome
    case Confirmed(_) => [ClearDone(plan)]
    case Indeterminate => [ClearLost(plan, landed)]
    case _ => []
  }

  function SweepStep(outcome: Outcome, landed: bool): (own: Event)
  {
    match outcome
    case Confirmed(_) => SweepDone
    case Indeterminate => SweepLost(landed)
    case _ => SweepRefused
  }

  lemma TellClear(
    w: World, plan: ClearPlan, apply: ServeConfig -> Applied, outcome: Outcome,
    before: seq<Write>, after: seq<Write>, landed: bool, end: Served)
    requires Inv(w) && !w.m.closed && plan.at.host == w.host && plan.at.port != 0 && plan.mount != ""
    requires Named(w.m.book, plan)
    requires forall sc :: apply(sc) == ApplyClear(w.m.book, plan, sc)
    requires Explains(w.served, end, apply, outcome, before, after, landed)
    ensures var own := ClearSteps(outcome, plan, landed);
            var w' := World(w.host, end, if own == [] then w.m else NextManager(w.m, own[0]));
            Told(w, w', before, own, after) && Inv(w')
  {
    hide Inv, ApplyClear;
    var there := Replay(w.served, before);
    assert apply(there.config) == ApplyClear(w.m.book, plan, there.config);
    var own := ClearSteps(outcome, plan, landed);
    if own == [] {
      TellNothing(w, before, after, end);
    } else {
      assert Enabled(w.(served := there), own[0]);
      assert end == Replay(NextServed(there, w.m.book, own[0]), after);
      TellStep(w, before, own[0], after, end);
    }
    RunKeepsInv(w, Edits(before) + own + Edits(after));
  }

  lemma TellSweep(
    w: World, apply: ServeConfig -> Applied, outcome: Outcome,
    before: seq<Write>, after: seq<Write>, landed: bool, end: Served)
    requires Inv(w) && !w.m.closed
    requires forall sc :: apply(sc) == ApplySweep(w.m.book, sc)
    requires Explains(w.served, end, apply, outcome, before, after, landed)
    ensures var own := SweepStep(outcome, landed);
            var w' := World(w.host, end, NextManager(w.m, own));
            Told(w, w', before, [own], after) && Inv(w')
  {
    hide Inv, ApplySweep;
    var there := Replay(w.served, before);
    assert apply(there.config) == ApplySweep(w.m.book, there.config);
    var own := SweepStep(outcome, landed);
    assert end == Replay(NextServed(there, w.m.book, own), after);
    TellStep(w, before, own, after, end);
    RunKeepsInv(w, Edits(before) + [own] + Edits(after));
  }

  lemma ExplainsNothing(s: Served, apply: ServeConfig -> Applied)
    requires apply(s.config) == Unchanged
    ensures Explains(s, s, apply, Confirmed(false), [], [], false)
  {
  }

  lemma SettleOneThenAll(r: Receipts, token: nat)
    requires token in r.pending
    ensures SettleAll(Settle(r, token, Swept)) == SettleAll(r)
  {
    assert SettleAll(Settle(r, token, Swept)).settled == SettleAll(r).settled;
  }

  lemma SettleAllOfNone(r: Receipts)
    ensures SettleAll(r).pending == {}
    ensures r.pending == {} ==> SettleAll(r) == r
  {
    assert r.pending == {} ==> SettleAll(r).settled == r.settled;
  }

  /** With nothing recorded the sweep is a confirmed no-op. */
  lemma EmptySweep(b: Book, sc: ServeConfig)
    requires b.mappings == map[] && b.visibility == map[]
    ensures ApplySweep(b, sc) == Unchanged
  {
    RemoveNone(sc, b.mappings);
    assert b.mappings.Keys == {};
    assert WithdrawOwned(sc, b.visibility, b.visibility.Keys).funnel == sc.funnel;
  }

  /** No two mappings of one book share a token, so the newest on a port is unique. */
  lemma NewestIsUnique(b: Book, at: HostPort, k: Key)
    requires TokensOk(b) && IsNewest(b.mappings, OnPort(b.mappings, at), k)
    ensures k == Newest(b.mappings, at)
  {
    var other := Newest(b.mappings, at);
    assert b.mappings[k].token == b.mappings[other].token;
  }

  class PublicationManager {
    const host: string
    const generation: nat
    const upstream: ServeRegister

    var closed: bool
    var nextMappingToken: nat
    var mappings: map<Key, Mapping>
    var visibility: map<HostPort, Visibility>
    var pendingDelivery: set<nat>

    ghost var clean: bool
    ghost var armed: set<nat>
    ghost var settled: map<nat, Settlement>
    ghost var lost: seq<nat>

    constructor (host: string, generation: nat, upstream: ServeRegister)
      requires host != "" && upstream.owned == {}
      ensures this.host == host && this.generation == generation && this.upstream == upstream
      ensures Start(Snapshot()) && Inv(Snapshot())
    {
      this.host, this.generation, this.upstream := host, generation, upstream;
      closed, nextMappingToken, mappings, visibility, pendingDelivery := false, 0, map[], map[], {};
      clean, armed, settled, lost := false, {}, map[], [];
    }

    ghost function TheBook(): Book
      reads this
    {
      Book(nextMappingToken, mappings, visibility)
    }

    ghost function TheReceipts(): Receipts
      reads this
    {
      Receipts(pendingDelivery, armed, settled, lost)
    }

    ghost function TheManager(): Manager
      reads this
    {
      Manager(closed, clean, TheBook(), TheReceipts())
    }

    ghost function Snapshot(): World
      reads this, upstream
    {
      World(host, upstream.Content(), TheManager())
    }

    /** cancelPendingDeliveryLocked; the zero token names no receipt. */
    method CancelPending(token: nat, ghost how: Settlement)
      modifies this`pendingDelivery, this`settled
      ensures TheReceipts() == Settle(old(TheReceipts()), token, how)
    {
      if token in pendingDelivery {
        pendingDelivery := pendingDelivery - {token};
        settled := settled[token := how];
      }
    }

    /** expirePendingDelivery; true means the loss callback runs. */
    method ExpirePending(token: nat) returns (notify: bool)
      modifies this`pendingDelivery, this`settled, this`lost
      ensures Snapshot() == Step(old(Snapshot()), TimerFired(token))
      ensures notify <==> token in old(pendingDelivery)
      ensures lost == old(lost) + if notify then [token] else []
    {
      notify := token in pendingDelivery;
      if notify {
        CancelPending(token, Expired);
        lost := lost + [token];
      }
    }

    /** acknowledgePublication: an obsolete token is fine, a live one without a receipt is not. */
    method Acknowledge(generation: nat, token: nat) returns (result: AckResult)
      modifies this`pendingDelivery, this`settled
      ensures result == AckOk && generation == this.generation && !old(closed) ==>
        Snapshot() == Step(old(Snapshot()), PublicationRuns.Acknowledge(token))
      ensures result != AckOk ==> Snapshot() == old(Snapshot())
      ensures result == AckOk && token !in old(pendingDelivery) ==>
        forall k :: k in mappings ==> mappings[k].token != token
      ensures result == AckOk ==> generation == this.generation && !old(closed) && token > 0
    {
      if generation == 0 || token == 0 { return AckAmbiguous; }
      if generation != this.generation || closed { return AckStale; }
      var current := RuntimeCurrent();
      if !current { return AckStale; }
      if token in pendingDelivery {
        CancelPending(token, Acknowledged);
        return AckOk;
      }
      var keys := mappings.Keys;
      while keys != {}
        invariant keys <= mappings.Keys
        invariant forall k :: k in mappings && k !in keys ==> mappings[k].token != token
        decreases |keys|
      {
        var k :| k in keys;
        if mappings[k].token == token { return AckAmbiguous; }
        keys := keys - {k};
      }
      return AckOk;
    }

    /** The bookkeeping of a confirmed forward. */
    method RecordForward(p: Publication, token: nat)
      requires 0 !in pendingDelivery
      modifies this`mappings, this`visibility, this`pendingDelivery, this`settled
      ensures TheBook() == RecordInstalled(old(TheBook()), p, token)
      ensures TheReceipts() == Settle(old(TheReceipts()), TokenAt(old(TheBook()), KeyOf(p)), Superseded)
    {
      var key := KeyOf(p);
      if key in mappings {
        CancelPending(mappings[key].token, Superseded);
      }
      mappings := mappings[key := Mapping(p.at.host, token, [p.handler])];
      visibility := visibility[p.at := Visibility(token, p.funnel, EvidenceFor(key, [p.handler], p.funnel))];
    }

    /** The bookkeeping of a forward whose response was lost. */
    method RecordLostForward(p: Publication, token: nat)
      modifies this`mappings, this`visibility
      ensures TheBook() == RecordUncertain(old(TheBook()), p, token)
    {
      var key := KeyOf(p);
      var variants := [p.handler];
      if key in mappings {
        variants := MergeDedup(mappings[key].variants, variants);
      }
      var evidence := EvidenceFor(key, [p.handler], p.funnel);
      if p.at in visibility {
        evidence := MergeDedup(visibility[p.at].evidence, evidence);
      }
      mappings := mappings[key := Mapping(p.at.host, token, variants)];
      visibility := visibility[p.at := Visibility(token, p.funnel, evidence)];
    }

    /** What forward does once its transaction has an outcome. */
    method FinishForward(outcome: Outcome, plan: Option<Publication>, token: nat, ghost landed: bool)
        returns (result: ForwardResult, ghost own: Event)
      requires 0 !in pendingDelivery && outcome != Confirmed(false)
      requires outcome == Confirmed(true) || outcome == Indeterminate ==> plan.Some?
      requires token == nextMappingToken
      modifies this`mappings, this`visibility, this`pendingDelivery, this`settled, this`armed
      ensures nextMappingToken == old(nextMappingToken) && lost == old(lost)
      ensures outcome == Confirmed(true) ==>
        && own == Forwarded(plan.value, result.Published?)
        && (result == Published(plan.value, token) || result == StaleHandle)
        && TheBook() == RecordInstalled(old(TheBook()), plan.value, token)
        && (var released := Settle(old(TheReceipts()), TokenAt(old(TheBook()), KeyOf(plan.value)), Superseded);
            TheReceipts() == if result.Published? then Arm(released, token) else released)
      ensures outcome == Indeterminate ==>
        && result == ForwardUnknown && own == ForwardLost(plan.value, landed)
        && TheBook() == RecordUncertain(old(TheBook()), plan.value, token) && TheReceipts() == old(TheReceipts())
      ensures outcome == NotApplied || outcome == Conflict ==>
        result == ForwardFailed && own == ForwardRefused && TheManager() == old(TheManager())
    {
      match outcome
      case Confirmed(_) =>
        RecordForward(plan.value, token);
        var current := RuntimeCurrent();
        own := Forwarded(plan.value, current);
        if !current { return StaleHandle, own; }
        pendingDelivery := pendingDelivery + {token};
        armed := armed + {token};
        return Published(plan.value, token), own;
      case Indeterminate =>
        RecordLostForward(plan.value, token);
        return ForwardUnknown, ForwardLost(plan.value, landed);
      case NotApplied => return ForwardFailed, ForwardRefused;
      case Conflict => return ForwardFailed, ForwardRefused;
    }

    /** The locked part of forward once every early check has passed. */
    method ForwardLocked(plan: Option<Publication>)
        returns (result: ForwardResult, ghost before: seq<Write>, ghost own: Event, ghost after: seq<Write>)
      requires Inv(Snapshot()) && !closed && nextMappingToken < MAX_TOKEN && 0 !in pendingDelivery
      requires plan.Some? ==> plan.value.at.host == host && plan.value.at.port != 0
      modifies this, upstream
      ensures Told(old(Snapshot()), Snapshot(), before, [own], after) && Inv(Snapshot())
      ensures nextMappingToken == old(nextMappingToken) + 1
      ensures ResultTells(result, plan, nextMappingToken, own)
      ensures upstream.sets <= old(upstream.sets) + MAX_ATTEMPTS
    {
      hide Explains, Told, RecordInstalled, RecordUncertain, Settle, Inv;
      ghost var w := Snapshot();
      nextMappingToken := nextMappingToken + 1;
      var outcome;
      ghost var landed;
      var apply := sc => DecideForward(plan, sc);
      outcome, before, after, landed := MutateLocked(upstream, true, apply);
      ForwardOutcomes(w.served, upstream.Content(), plan, apply, outcome, before, after, landed);
      result, own := FinishForward(outcome, plan, nextMappingToken, landed);
      TellForward(w, plan, apply, outcome, before, after, landed, upstream.Content(), own);
    }

    /** forward: draws a token, runs the transaction, then records what its outcome allows. */
    method Forward(request: ForwardRequest, status: Option<NodeStatus>)
        returns (result: ForwardResult, ghost before: seq<Write>, ghost own: seq<Event>, ghost after: seq<Write>)
      requires Inv(Snapshot())
      requires status.Some? ==> status.value.host == host || status.value.host == ""
      modifies this, upstream
      ensures Told(old(Snapshot()), Snapshot(), before, own, after) && Inv(Snapshot())
      ensures own == [] ==> result.ForwardFailed?
      ensures own != [] ==> ResultTells(result, PlanForward(request, status), old(nextMappingToken) + 1, own[0])
      ensures upstream.sets <= old(upstream.sets) + MAX_ATTEMPTS
    {
      ghost var w := Snapshot();
      before, own, after := [], [], [];
      TellNothing(w, before, after, w.served);
      result := ForwardFailed;
      if closed { return; }
      var current := RuntimeCurrent();
      var live := ContextLive();
      if !current || !live || status.None? { return; }
      if nextMappingToken == MAX_TOKEN { return; }
      assert 0 !in pendingDelivery;
      ghost var step;
      result, before, step, after := ForwardLocked(PlanForward(request, status));
      own := [step];
    }

    /** The newest mapping of a port, by a scan in whatever order the map yields. */
    method FindNewest(at: HostPort) returns (found: Option<Key>)
      requires TokensOk(TheBook())
      ensures found.None? <==> OnPort(mappings, at) == {}
      ensures found.Some? ==> found.value == Newest(mappings, at)
    {
      found := None;
      var keys := mappings.Keys;
      while keys != {}
        invariant keys <= mappings.Keys
        invariant found.None? ==> OnPort(mappings, at) <= keys
        invariant found.Some? ==> IsNewest(mappings, OnPort(mappings, at) - keys, found.value)
        decreases |keys|
      {
        var k :| k in keys;
        if k in OnPort(mappings, at) && (found.None? || mappings[found.value].token < mappings[k].token) {
          found := Some(k);
        }
        keys := keys - {k};
      }
      assert OnPort(mappings, at) - keys == OnPort(mappings, at);
      if found.Some? {
        NewestIsUnique(TheBook(), at, found.value);
      }
    }

    /** transferVisibilityAfterCoordinateClearLocked */
    method TransferVisibility(at: HostPort, clearedKey: Key, clearedToken: nat)
      requires TokensOk(TheBook())
      modifies this`visibility
      ensures at !in old(visibility) ==> visibility == old(visibility)
      ensures at in old(visibility) ==>
        var heir := Heir(old(visibility)[at], mappings, at, clearedKey, clearedToken);
        visibility == if heir.None? then old(visibility) - {at} else old(visibility)[at := heir.value]
    {
      if at !in visibility { return; }
      var v := visibility[at];
      if v.token != clearedToken {
        var filtered := [];
        for i := 0 to |v.evidence|
          invariant filtered == WithoutKey(v.evidence[..i], clearedKey)
        {
          assert v.evidence[..i + 1][..i] == v.evidence[..i];
          if v.evidence[i].key != clearedKey {
            filtered := filtered + [v.evidence[i]];
          }
        }
        assert v.evidence[..|v.evidence|] == v.evidence;
        visibility := visibility[at := v.(evidence := filtered)];
        return;
      }
      var newest := FindNewest(at);
      if newest.None? {
        visibility := visibility - {at};
        return;
      }
      var replacement := mappings[newest.value];
      visibility := visibility[at := Visibility(
        replacement.token, v.funnel, EvidenceFor(newest.value, replacement.variants, v.funnel))];
    }

    /** The bookkeeping of a confirmed clear. */
    method RecordClear(plan: ClearPlan)
      requires TokensOk(TheBook()) && 0 !in pendingDelivery
      modifies this`mappings, this`visibility, this`pendingDelivery, this`settled
      ensures TheBook() == RecordCleared(old(TheBook()), plan)
      ensures TheReceipts() == Settle(old(TheReceipts()), TokenAt(old(TheBook()), PlanKey(plan)), Cleared)
    {
      var key := PlanKey(plan);
      var token := if key in mappings then mappings[key].token else 0;
      var ownsVisibility :=
        plan.exact.Some? && plan.at in visibility && visibility[plan.at].token == plan.exact.value;
      CancelPending(token, Cleared);
      mappings := mappings - {key};
      if ownsVisibility || (plan.exact.None? && plan.funnel) {
        visibility := visibility - {plan.at};
      } else if plan.exact.None? && token != 0 {
        TransferVisibility(plan.at, key, token);
      }
    }

    /** The locked part of clear once the coordinate is known. */
    method ClearLocked(plan: ClearPlan)
        returns (result: ClearResult, ghost before: seq<Write>, ghost own: seq<Event>, ghost after: seq<Write>)
      requires Inv(Snapshot()) && !closed && Named(TheBook(), plan) && TokensOk(TheBook()) && 0 !in pendingDelivery
      requires plan.at.host == host && plan.at.port != 0 && plan.mount != ""
      modifies this, upstream
      ensures Told(old(Snapshot()), Snapshot(), before, own, after) && Inv(Snapshot())
      ensures result.ClearOk? ==> own == [ClearDone(plan)]
      ensures result.ClearUnknown? ==> own == [ClearLost(plan, own != [] && own[0].ClearLost? && own[0].landed)]
      ensures result.ClearFailed? ==> own == []
      ensures upstream.sets <= old(upstream.sets) + MAX_ATTEMPTS
    {
      hide Explains, Told, RecordCleared, ClearedVisibility, Settle, Inv, TokensOk, ApplyClear;
      ghost var w := Snapshot();
      var outcome;
      ghost var landed;
      var book := Book(nextMappingToken, mappings, visibility);
      var apply := sc => ApplyClear(book, plan, sc);
      outcome, before, after, landed := MutateLocked(upstream, true, apply);
      TellClear(w, plan, apply, outcome, before, after, landed, upstream.Content());
      own := ClearSteps(outcome, plan, landed);
      if outcome.Confirmed? {
        RecordClear(plan);
        result := ClearOk;
      } else {
        result := if outcome.Indeterminate? then ClearUnknown else ClearFailed;
      }
    }

    /** clear: a stale handle is a silent no-op, every other refusal is an error. */
    method Clear(payload: ClearPayload, status: Option<NodeStatus>)
        returns (result: ClearResult, ghost before: seq<Write>, ghost own: seq<Event>, ghost after: seq<Write>)
      requires Inv(Snapshot()) && (payload.mount.Some? ==> payload.mount.value != "")
      requires status.Some? ==> status.value.host == host || status.value.host == ""
      modifies this, upstream
      ensures Told(old(Snapshot()), Snapshot(), before, own, after) && Inv(Snapshot())
      ensures result.ClearFailed? ==> own == []
      ensures result.ClearUnknown? ==> |own| == 1 && own[0].ClearLost?
      ensures own != [] ==>
        && ValidPort(payload.tailnetPort) && payload.mount.Some? && (own[0].ClearDone? || own[0].ClearLost?)
        && own[0].plan == RequestedClear(host, payload, ModeOf(payload))
      ensures ModeOf(payload).ExactMapping? && old(Stale(payload)) ==> own == [] && upstream.sets == old(upstream.sets)
      ensures upstream.sets <= old(upstream.sets) + MAX_ATTEMPTS
    {
      ghost var w := Snapshot();
      before, own, after := [], [], [];
      TellNothing(w, before, after, w.served);
      result := ClearFailed;
      var mode := ModeOf(payload);
      if mode.BadHandle? { return; }
      if mode.ExactMapping? && mode.generation != generation { return ClearOk, before, own, after; }
      var current := RuntimeCurrent();
      if closed || !current {
        result := if mode.ExactMapping? then ClearOk else ClearFailed;
        return;
      }
      if !ValidPort(payload.tailnetPort) || payload.mount.None? { return; }
      var key := Key(payload.tailnetPort, payload.mount.value);
      if mode.ExactMapping? {
        if key !in mappings || mappings[key].token != mode.token { return ClearOk, before, own, after; }
      } else {
        var live := ContextLive();
        if !live || status.None? || status.value.host == "" { return; }
      }
      assert TokensOk(TheBook()) && 0 !in pendingDelivery;
      result, before, own, after := ClearLocked(RequestedClear(host, payload, mode));
    }

    /** A handle of another generation, or whose token is not the one recorded at its coordinate. */
    ghost predicate Stale(payload: ClearPayload)
      reads this
    {
      var mode := ModeOf(payload);
      && mode.ExactMapping?
      && (mode.generation != generation || closed || !ValidPort(payload.tailnetPort) || payload.mount.None?
          || var key := Key(payload.tailnetPort, payload.mount.value);
             key !in mappings || mappings[key].token != mode.token)
    }

    /** cancelAllPendingDeliveriesLocked */
    method CancelAllPending()
      modifies this`pendingDelivery, this`settled
      ensures TheReceipts() == SettleAll(old(TheReceipts()))
    {
      hide SettleAll;
      while pendingDelivery != {}
        invariant SettleAll(TheReceipts()) == SettleAll(old(TheReceipts()))
        decreases |pendingDelivery|
      {
        var token :| token in pendingDelivery;
        SettleOneThenAll(TheReceipts(), token);
        CancelPending(token, Swept);
      }
      SettleAllOfNone(TheReceipts());
    }

    /** With nothing recorded the transaction is skipped; that is its confirmed no-op. */
    method SweepUpstream(apply: ServeConfig -> Applied)
        returns (outcome: Outcome, ghost before: seq<Write>, ghost after: seq<Write>, ghost landed: bool)
      requires forall sc :: apply(sc) == ApplySweep(TheBook(), sc)
      modifies upstream
      ensures Explains(old(upstream.Content()), upstream.Content(), apply, outcome, before, after, landed)
      ensures upstream.sets <= old(upstream.sets) + MAX_ATTEMPTS
    {
      hide Explains, ApplySweep;
      if mappings == map[] && visibility == map[] {
        outcome, before, after, landed := Confirmed(false), [], [], false;
        EmptySweep(TheBook(), upstream.config);
        ExplainsNothing(upstream.Content(), apply);
      } else {
        outcome, before, after, landed := MutateLocked(upstream, false, apply);
      }
    }

    /** The one closing sweep, after which nothing is recorded whatever its outcome. */
    method SweepLocked()
        returns (swept: bool, ghost before: seq<Write>, ghost own: Event, ghost after: seq<Write>)
      requires Inv(Snapshot()) && !closed
      modifies this, upstream
      ensures Told(old(Snapshot()), Snapshot(), before, [own], after) && Inv(Snapshot())
      ensures closed && mappings == map[] && visibility == map[] && pendingDelivery == {}
      ensures swept <==> own == SweepDone
      ensures upstream.sets <= old(upstream.sets) + MAX_ATTEMPTS
    {
      hide Explains, Told, Inv, ApplySweep, SettleAll, Replay, After;
      ghost var w := Snapshot();
      closed := true;
      CancelAllPending();
      var book := Book(nextMappingToken, mappings, visibility);
      var apply := sc => ApplySweep(book, sc);
      var outcome;
      ghost var landed;
      outcome, before, after, landed := SweepUpstream(apply);
      TellSweep(w, apply, outcome, before, after, landed, upstream.Content());
      mappings, visibility := map[], map[];
      swept, own := outcome.Confirmed?, SweepStep(outcome, landed);
      clean := swept;
      SettleAllOfNone(w.m.receipts);
    }

    /** close: the first call sweeps, every later one does nothing. */
    method Close() returns (swept: bool, ghost before: seq<Write>, ghost own: seq<Event>, ghost after: seq<Write>)
      requires Inv(Snapshot())
      modifies this, upstream
      ensures Told(old(Snapshot()), Snapshot(), before, own, after) && Inv(Snapshot())
      ensures closed && (!old(closed) ==> mappings == map[] && visibility == map[]) && pendingDelivery == {}
      ensures old(closed) <==> own == []
      ensures !old(closed) ==> (swept <==> own == [SweepDone])
      ensures upstream.sets <= old(upstream.sets) + MAX_ATTEMPTS
    {
      ghost var w := Snapshot();
      before, own, after := [], [], [];
      TellNothing(w, before, after, w.served);
      if closed { return true, before, own, after; }
      ghost var step;
      swept, before, step, after := SweepLocked();
      own := [step];
    }
  }
}
