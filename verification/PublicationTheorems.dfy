/** What holds over every run of the publication manager. */
module PublicationTheorems {
  import opened Basics
  import opened ServeConfigs
  import opened Mutation
  import opened Publications
  import opened Sweep
  import opened PublicationRuns

  // --------------------------------------------------------------- ownership

  /** A handler this manager last installed is always among the variants recorded at its coordinate. */
  lemma OwnershipOverRuns(w: World, es: seq<Event>, c: Coordinate)
    requires Start(w)
    ensures var r := After(w, es);
            !r.m.closed && c in r.served.owned ==>
              && KeyAt(c) in r.m.book.mappings
              && Lookup(r.served.config, c).Some?
              && Lookup(r.served.config, c).value in r.m.book.mappings[KeyAt(c)].variants
  {
    RunKeepsInv(w, es);
  }

  /** Nothing is recorded, armed or settled once the manager is closed. */
  lemma {:induction false} ClosedForGood(w: World, es: seq<Event>, more: seq<Event>)
    requires Start(w) && After(w, es).m.closed
    ensures After(w, es + more).m == After(w, es).m
    decreases |more|
  {
    if more == [] {
      assert es + more == es;
    } else {
      var last := |more| - 1;
      ClosedForGood(w, es, more[..last]);
      assert (es + more)[..|es + more| - 1] == es + more[..last];
      RunKeepsInv(w, es + more[..last]);
      ClosedStep(After(w, es + more[..last]), more[last]);
    }
  }

  lemma ClosedStep(w: World, e: Event)
    requires Inv(w) && w.m.closed
    ensures Step(w, e).m == w.m
  {
    hide BookOk, ReceiptsOk;
  }

  /** After a confirmed close, no handler of this manager is live, then or ever again. */
  lemma ConfirmedCloseIsFinal(w: World, es: seq<Event>, more: seq<Event>)
    requires Start(w) && !After(w, es).m.closed
    ensures After(w, es + [SweepDone] + more).served.owned == {}
  {
    var closing := es + [SweepDone];
    assert closing[..|closing| - 1] == es;
    ClosedForGood(w, closing, more);
    RunKeepsInv(w, closing + more);
  }

  /**
   A handler survives the close exactly when it differs from every variant
   recorded at its coordinate, and a Funnel bit exactly when no enabled
   evidence for its port is live. Everything else is left as it was.
   */
  lemma CloseKeepsExactlyUnrecorded(w: World, es: seq<Event>, c: Coordinate, at: HostPort)
    requires Start(w) && !After(w, es).m.closed
    ensures var before := After(w, es);
            var after := Step(before, SweepDone);
            var book := before.m.book;
            && (Lookup(after.served.config, c) == Lookup(before.served.config, c) <==>
                !(Lookup(before.served.config, c).Some? && Recorded(before.served.config, book.mappings, c)))
            && (Lookup(after.served.config, c) != Lookup(before.served.config, c) ==>
                Lookup(after.served.config, c) == None)
            && FunnelOn(after.served.config, at)
               == (FunnelOn(before.served.config, at)
                   && !(at in book.visibility && OwnsFunnel(before.served.config, at, book.visibility[at])))
  {
    hide SweptConfig, OwnsFunnel, After;
    var before := After(w, es);
    SweepRemovesExactlyRecorded(before.served.config, before.m.book, c, at);
  }

  /**
   "An external replacement is never removed" fails when the replacement equals
   a recorded variant: whoever deletes a published handler and later configures
   the same one by hand loses it to the close.
   */
  lemma EqualReplacementIsRemoved(w: World, p: Publication, without: ServeConfig)
    requires Start(w) && ForwardEnabled(w, p) && Lookup(without, Coordinate(p.at, p.mount)) == None
    ensures var c := Coordinate(p.at, p.mount);
            var before := After(w, [Forwarded(p, true), Edited(without), Edited(InstallPublication(without, p))]);
            && !before.m.closed && c !in before.served.owned && Lookup(before.served.config, c) == Some(p.handler)
            && Lookup(Step(before, SweepDone).served.config, c) == None
  {
    hide SweptConfig, After, InstallPublication;
    var c := Coordinate(p.at, p.mount);
    AfterThree(w, Forwarded(p, true), Edited(without), Edited(InstallPublication(without, p)));
    var published := Step(w, Forwarded(p, true));
    var deleted := Step(published, Edited(without));
    var restored := Step(deleted, Edited(InstallPublication(without, p)));
    PublishedState(w, p);
    DeletedState(published, p, without);
    assert restored.m == published.m && restored.served.owned <= deleted.served.owned;
    SweepRemovesExactlyRecorded(restored.served.config, restored.m.book, c, p.at);
  }

  lemma PublishedState(w: World, p: Publication)
    requires ForwardEnabled(w, p)
    ensures var r := Step(w, Forwarded(p, true));
            && !r.m.closed && KeyOf(p) in r.m.book.mappings
            && r.host == w.host && p.at.host == w.host && p.at.port != 0 && p.mount != ""
            && r.m.book.mappings[KeyOf(p)] == Mapping(p.at.host, w.m.book.nextToken + 1, [p.handler])
            && Lookup(r.served.config, Coordinate(p.at, p.mount)) == Some(p.handler)
  {
  }

  lemma DeletedState(w: World, p: Publication, without: ServeConfig)
    requires Lookup(w.served.config, Coordinate(p.at, p.mount)) == Some(p.handler)
    requires Lookup(without, Coordinate(p.at, p.mount)) == None
    ensures Step(w, Edited(without)).m == w.m
    ensures Coordinate(p.at, p.mount) !in Step(w, Edited(without)).served.owned
  {
  }

  /** A concrete run of that kind. */
  lemma EqualReplacementExample() returns (w: World, p: Publication)
    ensures Start(w) && ForwardEnabled(w, p)
    ensures var before := After(w, [Forwarded(p, true), Edited(w.served.config),
                                    Edited(InstallPublication(w.served.config, p))]);
            && Coordinate(p.at, p.mount) !in before.served.owned
            && Lookup(Step(before, SweepDone).served.config, Coordinate(p.at, p.mount)) == None
  {
    w := World("node", Served(ServeConfig(map[], map[], map[]), {}), EMPTY_MANAGER);
    p := Publication(HostPort("node", 443), "/", Handler("", "http://127.0.0.1:80", ""), true, false);
    EqualReplacementIsRemoved(w, p, w.served.config);
  }

  lemma AfterThree(w: World, a: Event, b: Event, c: Event)
    ensures After(w, [a, b, c]) == Step(Step(Step(w, a), b), c)
  {
    assert [a, b, c][..2] == [a, b] && [a, b][..1] == [a] && [a][..0] == [];
    assert After(w, [a]) == Step(w, a);
    assert After(w, [a, b]) == Step(Step(w, a), b);
  }

  // -------------------------------------------------------------- visibility

  /** Every port-visibility record names a live mapping on that port, in every reachable state. */
  lemma VisibilityOverRuns(w: World, es: seq<Event>, at: HostPort)
    requires Start(w) && at in After(w, es).m.book.visibility
    ensures var b := After(w, es).m.book;
            exists k :: k in b.mappings && k.port == at.port && b.mappings[k].host == at.host
                        && b.mappings[k].token == b.visibility[at].token
  {
    RunKeepsInv(w, es);
    var b := After(w, es).m.book;
    assert OwnerIsLive(b, at);
    var k :| k in OnPort(b.mappings, at) && b.mappings[k].token == b.visibility[at].token;
  }

  /**
   A coordinate clear of the port's owner hands visibility to the greatest
   surviving token on the port, and drops the record when nothing survives.
   */
  lemma CoordinateClearHandsOver(w: World, plan: ClearPlan)
    requires Inv(w) && ClearEnabled(w, plan) && plan.exact.None? && !plan.funnel
    requires PlanKey(plan) in w.m.book.mappings && plan.at in w.m.book.visibility
    requires w.m.book.visibility[plan.at].token == w.m.book.mappings[PlanKey(plan)].token
    ensures var left := OnPort(w.m.book.mappings - {PlanKey(plan)}, plan.at);
            var after := Step(w, ClearDone(plan)).m.book;
            && (plan.at in after.visibility <==> left != {})
            && (left != {} ==>
                  && after.visibility[plan.at].funnel == w.m.book.visibility[plan.at].funnel
                  && (exists k :: k in left && after.mappings[k].token == after.visibility[plan.at].token)
                  && (forall k :: k in left ==> after.mappings[k].token <= after.visibility[plan.at].token))
  {
    var b := w.m.book;
    var mappings := b.mappings - {PlanKey(plan)};
    var heir := Heir(b.visibility[plan.at], mappings, plan.at, PlanKey(plan), b.mappings[PlanKey(plan)].token);
    if heir.Some? {
      var k :| IsNewest(mappings, OnPort(mappings, plan.at), k) && mappings[k].token == heir.value.token;
    }
  }

  /** Closing a handle that does not own its port's visibility never changes any Funnel bit. */
  lemma ExactCloseOfNonOwnerKeepsFunnel(w: World, plan: ClearPlan)
    requires ClearEnabled(w, plan) && plan.exact.Some?
    requires plan.at !in w.m.book.visibility || w.m.book.visibility[plan.at].token != plan.exact.value
    ensures Step(w, ClearDone(plan)).served.config.funnel == w.served.config.funnel
  {
  }

  /** The state in which another writer has replaced a handler that was just published. */
  ghost function Replaced(w: World, p: Publication, next: ServeConfig): (r: World)
  {
    Step(Step(w, Forwarded(p, true)), Edited(next))
  }

  /** The clear that closes the handle of that publication. */
  function HandleOf(w: World, p: Publication): (plan: ClearPlan)
  {
    ClearPlan(p.at, p.mount, Some(w.m.book.nextToken + 1), false)
  }

  lemma ReplacedState(w: World, p: Publication, next: ServeConfig, theirs: Handler)
    requires ForwardEnabled(w, p) && theirs != p.handler && Lookup(next, Coordinate(p.at, p.mount)) == Some(theirs)
    ensures var r, plan := Replaced(w, p, next), HandleOf(w, p);
            && r.served.config == next && !r.m.closed && Named(r.m.book, plan)
            && plan.at.host == r.host && plan.at.port != 0 && plan.mount != ""
            && !Matches(r.m.book.mappings[PlanKey(plan)], next, PlanKey(plan))
  {
    hide Step, ForwardEnabled;
    PublishedState(w, p);
    EditedState(Step(w, Forwarded(p, true)), next);
  }

  /**
   Whoever replaces a published handler by another one keeps it: closing the
   handle leaves the register as it is, and so does the sweep at that coordinate.
   */
  lemma ReplacementOutlivesItsHandle(w: World, es: seq<Event>, p: Publication, next: ServeConfig, theirs: Handler)
    requires Start(w) && ForwardEnabled(After(w, es), p) && theirs != p.handler
    requires Lookup(next, Coordinate(p.at, p.mount)) == Some(theirs)
    ensures var before := After(w, es);
            var closed := Step(Replaced(before, p, next), ClearDone(HandleOf(before, p)));
            && closed.served.config == next && KeyOf(p) !in closed.m.book.mappings && !closed.m.closed
            && Lookup(Step(closed, SweepDone).served.config, Coordinate(p.at, p.mount)) == Some(theirs)
  {
    hide Step, After, Start, ForwardEnabled, Replaced, Matches, Named;
    var before := After(w, es);
    ReplacedState(before, p, next, theirs);
    ReplacedClear(Replaced(before, p, next), HandleOf(before, p));
    SweptState(Step(Replaced(before, p, next), ClearDone(HandleOf(before, p))), Coordinate(p.at, p.mount));
  }

  lemma EditedState(w: World, next: ServeConfig)
    ensures var r := Step(w, Edited(next)); r.m == w.m && r.host == w.host && r.served.config == next
  {
  }

  lemma ReplacedClear(w: World, plan: ClearPlan)
    requires !w.m.closed && plan.at.host == w.host && plan.at.port != 0 && plan.mount != "" && Named(w.m.book, plan)
    requires plan.exact.Some? && !Matches(w.m.book.mappings[PlanKey(plan)], w.served.config, PlanKey(plan))
    ensures var r := Step(w, ClearDone(plan));
            r.served == w.served && PlanKey(plan) !in r.m.book.mappings && !r.m.closed
  {
  }

  lemma SweptState(w: World, c: Coordinate)
    requires !w.m.closed && KeyAt(c) !in w.m.book.mappings
    ensures Lookup(Step(w, SweepDone).served.config, c) == Lookup(w.served.config, c)
  {
    hide SweptConfig;
    SweepRemovesExactlyRecorded(w.served.config, w.m.book, c, c.at);
  }

  // ---------------------------------------------------------------- receipts

  /** Every outstanding receipt names a live mapping. */
  predicate PendingIsLive(m: Manager)
  {
    forall t :: t in m.receipts.pending ==> exists k :: k in m.book.mappings && m.book.mappings[k].token == t
  }

  lemma StepKeepsPendingLive(w: World, e: Event)
    requires Inv(w) && PendingIsLive(w.m) && !e.ForwardLost?
    ensures PendingIsLive(Step(w, e).m)
  {
    hide NextServed, VisibilityOk, ClearedVisibility;
    var r := Step(w, e);
    forall t | t in r.m.receipts.pending
      ensures exists k :: k in r.m.book.mappings && r.m.book.mappings[k].token == t
    {
      if Enabled(w, e) && e.Forwarded? && t == w.m.book.nextToken + 1 {
        assert r.m.book.mappings[KeyOf(e.p)].token == t;
      } else {
        var k :| k in w.m.book.mappings && w.m.book.mappings[k].token == t;
        assert k in r.m.book.mappings && r.m.book.mappings[k] == w.m.book.mappings[k];
      }
    }
  }

  lemma {:induction false} PendingIsLiveOverRuns(w: World, es: seq<Event>)
    requires Start(w) && (forall i :: 0 <= i < |es| ==> !es[i].ForwardLost?)
    ensures PendingIsLive(After(w, es).m)
    decreases |es|
  {
    if es != [] {
      PendingIsLiveOverRuns(w, es[..|es| - 1]);
      RunKeepsInv(w, es[..|es| - 1]);
      StepKeepsPendingLive(After(w, es[..|es| - 1]), es[|es| - 1]);
    }
  }

  /** A lost forward breaks that exactly when the mapping it replaces still awaited its receipt. */
  lemma LostForwardBreaksPendingIffOutstanding(w: World, p: Publication, landed: bool)
    requires Inv(w) && PendingIsLive(w.m) && ForwardEnabled(w, p)
    ensures PendingIsLive(Step(w, ForwardLost(p, landed)).m)
            <==> TokenAt(w.m.book, KeyOf(p)) !in w.m.receipts.pending
  {
    hide NextServed, VisibilityOk;
    var b, r := w.m.book, Step(w, ForwardLost(p, landed));
    var key, prior := KeyOf(p), TokenAt(w.m.book, KeyOf(p));
    if prior in w.m.receipts.pending {
      assert key in b.mappings;
      forall k | k in r.m.book.mappings ensures r.m.book.mappings[k].token != prior {
        if k != key { assert r.m.book.mappings[k] == b.mappings[k]; }
      }
    } else {
      forall t | t in r.m.receipts.pending
        ensures exists k :: k in r.m.book.mappings && r.m.book.mappings[k].token == t
      {
        var k :| k in b.mappings && b.mappings[k].token == t;
        assert r.m.book.mappings[k] == b.mappings[k];
      }
    }
  }

  lemma AfterTwo(w: World, a: Event, b: Event)
    ensures After(w, [a, b]) == Step(Step(w, a), b) && After(w, [a]) == Step(w, a)
  {
    assert [a, b][..1] == [a] && [a][..0] == [];
    hide Step;
    assert After(w, [a]) == Step(w, a);
  }

  /** A run that breaks it: a forward whose receipt is outstanding, then one at the same key whose outcome is lost. */
  lemma PendingWithoutMapping(w: World, p: Publication, landed: bool)
    requires Start(w) && ForwardEnabled(w, p)
    ensures !PendingIsLive(After(w, [Forwarded(p, true), ForwardLost(p, landed)]).m)
  {
    var first := Step(w, Forwarded(p, true));
    AfterTwo(w, Forwarded(p, true), ForwardLost(p, landed));
    RunKeepsInv(w, [Forwarded(p, true)]);
    PendingIsLiveOverRuns(w, [Forwarded(p, true)]);
    assert ForwardEnabled(first, p) && TokenAt(first.m.book, KeyOf(p)) in first.m.receipts.pending;
    hide Step, After, Inv;
    LostForwardBreaksPendingIffOutstanding(first, p, landed);
  }

  // ------------------------------------------------------------- late landing

  /** A write whose response was lost lands after all: the register is what it was fetched as. */
  function Late(w: World, p: Publication): (r: World)
  {
    w.(served := Commit(w.served, ApplyForward(p, w.served.config)))
  }

  /** Then the manager still answers for what it installed exactly if the handler is recorded at its key by then. */
  lemma LateLandingIff(w: World, p: Publication)
    requires Inv(w) && !w.m.closed && Addressed(w.host, p) && ApplyForward(p, w.served.config).Changed?
    ensures OwnershipOk(w.host, Late(w, p).served, w.m.book.mappings)
            <==> KeyOf(p) in w.m.book.mappings && p.handler in w.m.book.mappings[KeyOf(p)].variants
  {
    var c, late := Coordinate(p.at, p.mount), Late(w, p).served;
    assert c in late.owned && Lookup(late.config, c) == Some(p.handler);
    if KeyOf(p) in w.m.book.mappings && p.handler in w.m.book.mappings[KeyOf(p)].variants {
      forall d | d in late.owned ensures d.at.host == w.host && Recorded(late.config, w.m.book.mappings, d) {
        if d != c { assert d in w.served.owned; }
      }
    }
  }

  lemma LostState(w: World, p: Publication)
    requires ForwardEnabled(w, p)
    ensures var r := Step(w, ForwardLost(p, false)); r.served == w.served && r.host == w.host && !r.m.closed
  {
  }

  lemma EmptyClear(w: World, plan: ClearPlan)
    requires ClearEnabled(w, plan) && ApplyClear(w.m.book, plan, w.served.config) == Unchanged
    ensures var r := Step(w, ClearDone(plan));
            r.served == w.served && r.host == w.host && PlanKey(plan) !in r.m.book.mappings && !r.m.closed
  {
    hide ApplyClear;
  }

  /**
   A forward is lost, its coordinate cleared while there is nothing to clear, and
   then it lands: its handler outlives even a confirmed close.
   */
  lemma LateHandlerSurvives(w: World, p: Publication)
    requires Start(w) && ForwardEnabled(w, p)
    requires var plan := ClearPlan(p.at, p.mount, None, false); ApplyClear(w.m.book, plan, w.served.config) == Unchanged
    ensures var plan := ClearPlan(p.at, p.mount, None, false);
            var before := After(w, [ForwardLost(p, false), ClearDone(plan)]);
            && before.served == w.served && !before.m.closed
            && Lookup(Step(Late(before, p), SweepDone).served.config, Coordinate(p.at, p.mount)) == Some(p.handler)
  {
    var plan := ClearPlan(p.at, p.mount, None, false);
    AfterTwo(w, ForwardLost(p, false), ClearDone(plan));
    LostState(w, p);
    var lost := Step(w, ForwardLost(p, false));
    assert ApplyClear(lost.m.book, plan, lost.served.config) == ApplyClear(w.m.book, plan, w.served.config);
    hide Step, After, ApplyClear;
    EmptyClear(lost, plan);
    SweptState(Late(Step(lost, ClearDone(plan)), p), Coordinate(p.at, p.mount));
  }

  /** Both on a node without any configuration. */
  lemma PublicationExamples() returns (w: World, p: Publication)
    ensures Start(w) && ForwardEnabled(w, p)
    ensures ApplyClear(w.m.book, ClearPlan(p.at, p.mount, None, false), w.served.config) == Unchanged
    ensures !PendingIsLive(After(w, [Forwarded(p, true), ForwardLost(p, false)]).m)
    ensures var before := After(w, [ForwardLost(p, false), ClearDone(ClearPlan(p.at, p.mount, None, false))]);
            Lookup(Step(Late(before, p), SweepDone).served.config, Coordinate(p.at, p.mount)) == Some(p.handler)
  {
    w := World("node", Served(ServeConfig(map[], map[], map[]), {}), EMPTY_MANAGER);
    p := Publication(HostPort("node", 443), "/", Handler("", "http://127.0.0.1:80", ""), true, false);
    assert ApplyClear(w.m.book, ClearPlan(p.at, p.mount, None, false), w.served.config) == Unchanged;
    hide After, Step, ApplyClear;
    PendingWithoutMapping(w, p, false);
    LateHandlerSurvives(w, p);
  }

  lemma {:induction false} SettlementIsPermanent(w: World, es: seq<Event>, more: seq<Event>, t: nat)
    requires Start(w) && t in After(w, es).m.receipts.settled
    ensures var past, now := After(w, es).m.receipts, After(w, es + more).m.receipts;
            t in now.settled && now.settled[t] == past.settled[t] && t !in now.pending
    decreases |more|
  {
    assert Inv(w);
    hide Step, BookOk, OwnershipOk;
    RunKeepsInv(w, es + more);
    if more == [] {
      assert es + more == es;
    } else {
      var last := |more| - 1;
      SettlementIsPermanent(w, es, more[..last], t);
      assert (es + more)[..|es + more| - 1] == es + more[..last];
      RunKeepsInv(w, es + more[..last]);
      SettledStays(After(w, es + more[..last]), more[last], t);
    }
  }

  lemma SettledStays(w: World, e: Event, t: nat)
    requires Inv(w) && t in w.m.receipts.settled
    ensures var r := Step(w, e).m.receipts;
            t in r.settled && r.settled[t] == w.m.receipts.settled[t]
  {
    hide NextServed, BookOk, RecordCleared, RecordInstalled, RecordUncertain;
  }

  /**
   The loss callback fires once at most for a mapping, only for one whose
   receipt expired, and every armed receipt is outstanding or settled in
   exactly one way; a closed manager has none outstanding.
   */
  lemma DeliveryCustodyOverRuns(w: World, es: seq<Event>)
    requires Start(w)
    ensures var r := After(w, es).m.receipts;
            && r.armed == r.pending + r.settled.Keys && r.pending * r.settled.Keys == {}
            && (forall i, j :: 0 <= i < j < |r.lost| ==> r.lost[i] != r.lost[j])
            && (forall t :: t in r.lost <==> t in r.settled && r.settled[t] == Expired)
            && (After(w, es).m.closed ==> r.armed == r.settled.Keys)
  {
    RunKeepsInv(w, es);
  }
}
