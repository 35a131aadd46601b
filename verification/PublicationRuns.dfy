/**
 Whole runs of one publication manager against arbitrary other writers. Each
 manager operation is one event placed at the instant its outcome was decided;
 the writes of others are events of their own.
 */
module PublicationRuns {
  import opened Basics
  import opened ServeConfigs
  import opened Mutation
  import opened Publications
  import opened Sweep

  datatype World = World(host: string, served: Served, m: Manager)

  datatype Event =
    | Edited(next: ServeConfig)
    | ForwardRefused
    | Forwarded(p: Publication, current: bool)
    | ForwardLost(p: Publication, landed: bool)
    | ClearDone(plan: ClearPlan)
    | ClearLost(plan: ClearPlan, landed: bool)
    | SweepDone
    | SweepLost(landed: bool)
    | SweepRefused
    | Acknowledge(token: nat)
    | TimerFired(token: nat)

  const EMPTY_MANAGER := Manager(false, false, Book(0, map[], map[]), Receipts({}, {}, map[], []))

  predicate Start(w: World)
  {
    w.host != "" && w.m == EMPTY_MANAGER && w.served.owned == {}
  }

  function ApplyForward(p: Publication, sc: ServeConfig): (a: Applied)
    ensures a != Unchanged
  {
    if IsTcpForwarding(sc, p.at.port) then Rejected
    else Changed(InstallPublication(sc, p), {Coordinate(p.at, p.mount)})
  }

  /** The register once a decided write has landed. */
  function Commit(s: Served, a: Applied): (r: Served)
  {
    if a.Changed? then Land(s, Own(a.next, a.installs)) else s
  }

  /** The manager has one host name, so every publication names it. */
  predicate Addressed(host: string, p: Publication)
  {
    p.at.host == host && p.at.port != 0 && p.mount != ""
  }

  predicate ForwardEnabled(w: World, p: Publication)
  {
    && !w.m.closed && w.m.book.nextToken < MAX_TOKEN && Addressed(w.host, p)
    && ApplyForward(p, w.served.config).Changed?
  }

  /** An exact clear of a token that is not recorded at its key returns before any of this. */
  predicate Named(b: Book, plan: ClearPlan)
  {
    plan.exact.Some? ==> PlanKey(plan) in b.mappings && b.mappings[PlanKey(plan)].token == plan.exact.value
  }

  predicate ClearEnabled(w: World, plan: ClearPlan)
  {
    && !w.m.closed && plan.at.host == w.host && plan.at.port != 0 && plan.mount != "" && Named(w.m.book, plan)
    && ApplyClear(w.m.book, plan, w.served.config) != Rejected
  }

  predicate Enabled(w: World, e: Event)
  {
    match e
    case Edited(_) => true
    case ForwardRefused => !w.m.closed && w.m.book.nextToken < MAX_TOKEN
    case Forwarded(p, _) => ForwardEnabled(w, p)
    case ForwardLost(p, _) => ForwardEnabled(w, p)
    case ClearDone(plan) => ClearEnabled(w, plan)
    case ClearLost(plan, _) => ClearEnabled(w, plan) && ApplyClear(w.m.book, plan, w.served.config).Changed?
    case SweepDone => !w.m.closed
    case SweepLost(_) => !w.m.closed
    case SweepRefused => !w.m.closed
    case Acknowledge(_) => !w.m.closed
    case TimerFired(_) => true
  }

  function Drawn(b: Book): (r: Book)
  {
    b.(nextToken := b.nextToken + 1)
  }

  function ForwardedReceipts(r: Receipts, b: Book, p: Publication, current: bool): (r': Receipts)
  {
    var released := Settle(r, TokenAt(b, KeyOf(p)), Superseded);
    if current then Arm(released, b.nextToken + 1) else released
  }

  function Closed(m: Manager, clean: bool): (r: Manager)
  {
    Manager(true, clean, m.book.(mappings := map[], visibility := map[]), SettleAll(m.receipts))
  }

  /** The manager's side of an event. */
  ghost function NextManager(m: Manager, e: Event): (r: Manager)
  {
    match e
    case Edited(_) => m
    case ForwardRefused => m.(book := Drawn(m.book))
    case Forwarded(p, current) =>
      m.(book := RecordInstalled(Drawn(m.book), p, m.book.nextToken + 1),
         receipts := ForwardedReceipts(m.receipts, m.book, p, current))
    case ForwardLost(p, _) => m.(book := RecordUncertain(Drawn(m.book), p, m.book.nextToken + 1))
    case ClearDone(plan) =>
      m.(book := RecordCleared(m.book, plan),
         receipts := Settle(m.receipts, TokenAt(m.book, PlanKey(plan)), Cleared))
    case ClearLost(_, _) => m
    case SweepDone => Closed(m, true)
    case SweepLost(_) => Closed(m, false)
    case SweepRefused => Closed(m, false)
    case Acknowledge(token) => m.(receipts := Settle(m.receipts, token, Acknowledged))
    case TimerFired(token) => m.(receipts := Expire(m.receipts, token))
  }

  /** The register's side of an event. */
  function NextServed(s: Served, b: Book, e: Event): (r: Served)
  {
    match e
    case Edited(next) => Land(s, Foreign(next))
    case Forwarded(p, _) => Commit(s, ApplyForward(p, s.config))
    case ForwardLost(p, landed) => if landed then Commit(s, ApplyForward(p, s.config)) else s
    case ClearDone(plan) => Commit(s, ApplyClear(b, plan, s.config))
    case ClearLost(plan, landed) => if landed then Commit(s, ApplyClear(b, plan, s.config)) else s
    case SweepDone => Commit(s, ApplySweep(b, s.config))
    case SweepLost(landed) => if landed then Commit(s, ApplySweep(b, s.config)) else s
    case _ => s
  }

  ghost function Next(w: World, e: Event): (r: World)
  {
    w.(served := NextServed(w.served, w.m.book, e), m := NextManager(w.m, e))
  }

  ghost function Step(w: World, e: Event): (r: World)
  {
    if Enabled(w, e) then Next(w, e) else w
  }

  /** The world after a run; an event that is not enabled does nothing. */
  ghost function After(w: World, es: seq<Event>): (r: World)
  {
    if es == [] then w else Step(After(w, es[..|es| - 1]), es[|es| - 1])
  }

  // --------------------------------------------------------------- invariants

  predicate TokensOk(b: Book)
  {
    && b.nextToken <= MAX_TOKEN && KeysOk(b.mappings)
    && (forall k :: k in b.mappings ==> 0 < b.mappings[k].token <= b.nextToken)
    && (forall k, l :: k in b.mappings && l in b.mappings && k != l ==> b.mappings[k].token != b.mappings[l].token)
  }

  predicate HostsOk(host: string, b: Book)
  {
    && (forall k :: k in b.mappings ==> b.mappings[k].host == host)
    && (forall at :: at in b.visibility ==> at.host == host)
  }

  predicate OwnerIsLive(b: Book, at: HostPort)
    requires at in b.visibility
  {
    exists k :: k in OnPort(b.mappings, at) && b.mappings[k].token == b.visibility[at].token
  }

  /** The owner of a port's visibility is a live mapping on that port. */
  predicate VisibilityOk(b: Book)
  {
    forall at :: at in b.visibility ==> OwnerIsLive(b, at)
  }

  predicate BookOk(host: string, b: Book)
  {
    TokensOk(b) && HostsOk(host, b) && VisibilityOk(b)
  }

  /** Every handler this manager last installed is among the variants recorded for it. */
  predicate OwnershipOk(host: string, s: Served, mappings: map<Key, Mapping>)
  {
    forall c :: c in s.owned ==> c.at.host == host && Recorded(s.config, mappings, c)
  }

  ghost predicate ReceiptsOk(r: Receipts, nextToken: nat)
  {
    && r.pending !! r.settled.Keys && r.pending + r.settled.Keys == r.armed
    && (forall t :: t in r.armed ==> 0 < t <= nextToken)
    && (forall t :: t in r.lost <==> t in r.settled && r.settled[t] == Expired)
    && (forall i, j :: 0 <= i < j < |r.lost| ==> r.lost[i] != r.lost[j])
  }

  ghost predicate Inv(w: World)
  {
    && w.host != "" && BookOk(w.host, w.m.book) && ReceiptsOk(w.m.receipts, w.m.book.nextToken)
    && (if w.m.closed then w.m.receipts.pending == {} && (w.m.clean ==> w.served.owned == {})
        else OwnershipOk(w.host, w.served, w.m.book.mappings))
  }

  // ------------------------------------------------------- the book, by event

  /** Replacing one mapping on a port, with a fresh token, also replaces that port's visibility owner. */
  lemma FreshOwner(b: Book, p: Publication, host: string, mapping: Mapping, v: Visibility)
    requires BookOk(host, b) && b.nextToken < MAX_TOKEN && Addressed(host, p)
    requires mapping.host == host && mapping.token == v.token == b.nextToken + 1
    ensures BookOk(host, Book(b.nextToken + 1, b.mappings[KeyOf(p) := mapping], b.visibility[p.at := v]))
  {
    var r := Book(b.nextToken + 1, b.mappings[KeyOf(p) := mapping], b.visibility[p.at := v]);
    forall at | at in r.visibility ensures OwnerIsLive(r, at) {
      if at == p.at {
        assert KeyOf(p) in OnPort(r.mappings, at);
      } else {
        assert OwnerIsLive(b, at);
        var k :| k in OnPort(b.mappings, at) && b.mappings[k].token == b.visibility[at].token;
        assert k in OnPort(r.mappings, at);
      }
    }
  }

  lemma InstallKeepsBook(b: Book, p: Publication, host: string)
    requires BookOk(host, b) && b.nextToken < MAX_TOKEN && Addressed(host, p)
    ensures BookOk(host, RecordInstalled(Drawn(b), p, b.nextToken + 1))
  {
    var r := RecordInstalled(Drawn(b), p, b.nextToken + 1);
    FreshOwner(b, p, host, r.mappings[KeyOf(p)], r.visibility[p.at]);
  }

  lemma LostKeepsBook(b: Book, p: Publication, host: string)
    requires BookOk(host, b) && b.nextToken < MAX_TOKEN && Addressed(host, p)
    ensures BookOk(host, RecordUncertain(Drawn(b), p, b.nextToken + 1))
  {
    var r := RecordUncertain(Drawn(b), p, b.nextToken + 1);
    FreshOwner(b, p, host, r.mappings[KeyOf(p)], r.visibility[p.at]);
  }

  /** The cleared port keeps an owner, hands it to the newest survivor, or loses its record. */
  lemma ClearedOwner(b: Book, plan: ClearPlan, host: string)
    requires BookOk(host, b) && plan.at.host == host && Named(b, plan)
    requires plan.at in ClearedVisibility(b, plan)
    ensures OwnerIsLive(RecordCleared(b, plan), plan.at)
  {
    var key, at, r := PlanKey(plan), plan.at, RecordCleared(b, plan);
    assert OwnerIsLive(b, at);
    var k :| k in OnPort(b.mappings, at) && b.mappings[k].token == b.visibility[at].token;
    if k != key {
      assert k in OnPort(r.mappings, at);
    } else {
      var heir := Heir(b.visibility[at], r.mappings, at, key, b.mappings[key].token).value;
      assert exists n :: IsNewest(r.mappings, OnPort(r.mappings, at), n) && r.mappings[n].token == heir.token;
    }
  }

  lemma ClearKeepsBook(b: Book, plan: ClearPlan, host: string)
    requires BookOk(host, b) && plan.at.host == host && Named(b, plan)
    ensures BookOk(host, RecordCleared(b, plan))
  {
    var r := RecordCleared(b, plan);
    forall at | at in r.visibility ensures OwnerIsLive(r, at) {
      if at == plan.at {
        ClearedOwner(b, plan, host);
      } else {
        assert OwnerIsLive(b, at);
        var k :| k in OnPort(b.mappings, at) && b.mappings[k].token == b.visibility[at].token;
        assert k in OnPort(r.mappings, at);
      }
    }
  }

  // -------------------------------------------------- authorship, by event

  lemma InstallKeepsOwnership(host: string, s: Served, b: Book, p: Publication)
    requires OwnershipOk(host, s, b.mappings) && Addressed(host, p) && host != ""
    requires ApplyForward(p, s.config).Changed?
    ensures OwnershipOk(host, Commit(s, ApplyForward(p, s.config)),
                        RecordInstalled(Drawn(b), p, b.nextToken + 1).mappings)
  {
    var landed := Commit(s, ApplyForward(p, s.config));
    var mappings := RecordInstalled(Drawn(b), p, b.nextToken + 1).mappings;
    forall c | c in landed.owned ensures c.at.host == host && Recorded(landed.config, mappings, c) {
      if c != Coordinate(p.at, p.mount) { assert KeyAt(c) != KeyOf(p); }
    }
  }

  lemma LostKeepsOwnership(host: string, s: Served, b: Book, p: Publication, landed: bool)
    requires OwnershipOk(host, s, b.mappings) && Addressed(host, p) && host != ""
    requires ApplyForward(p, s.config).Changed?
    ensures OwnershipOk(host, if landed then Commit(s, ApplyForward(p, s.config)) else s,
                        RecordUncertain(Drawn(b), p, b.nextToken + 1).mappings)
  {
    var s' := if landed then Commit(s, ApplyForward(p, s.config)) else s;
    var mappings := RecordUncertain(Drawn(b), p, b.nextToken + 1).mappings;
    forall c | c in s'.owned ensures c.at.host == host && Recorded(s'.config, mappings, c) {
      if c != Coordinate(p.at, p.mount) { assert KeyAt(c) != KeyOf(p); }
    }
  }

  /** A write that installs nothing can only end authorship. */
  lemma RemovalKeepsOwnership(host: string, s: Served, mappings: map<Key, Mapping>, a: Applied)
    requires OwnershipOk(host, s, mappings) && (a.Changed? ==> a.installs == {})
    ensures OwnershipOk(host, Commit(s, a), mappings) && Commit(s, a).owned <= s.owned
  {
  }

  lemma ClearKeepsOwnership(host: string, s: Served, b: Book, plan: ClearPlan)
    requires OwnershipOk(host, s, b.mappings) && plan.at.host == host && host != "" && Named(b, plan)
    requires plan.at.port != 0 && plan.mount != "" && ApplyClear(b, plan, s.config) != Rejected
    ensures OwnershipOk(host, Commit(s, ApplyClear(b, plan, s.config)), RecordCleared(b, plan).mappings)
  {
    var a := ApplyClear(b, plan, s.config);
    var s' := Commit(s, a);
    RemovalKeepsOwnership(host, s, b.mappings, a);
    assert Coordinate(plan.at, plan.mount) !in s'.owned;
    forall c | c in s'.owned ensures c.at.host == host && Recorded(s'.config, b.mappings - {PlanKey(plan)}, c) {
      assert KeyAt(c) != PlanKey(plan);
    }
  }

  /** The sweep removes the handler of every owned coordinate, so none survives a confirmation. */
  lemma SweepEndsOwnership(host: string, s: Served, b: Book)
    requires OwnershipOk(host, s, b.mappings)
    ensures Commit(s, ApplySweep(b, s.config)).owned == {}
  {
    forall c | c in s.owned ensures Lookup(SweptConfig(s.config, b), c) == None && Lookup(s.config, c).Some? {
      SweepRemovesExactlyRecorded(s.config, b, c, c.at);
    }
  }

  // ------------------------------------------------------ receipts, by event

  lemma SettleKeepsReceipts(r: Receipts, token: nat, how: Settlement, nextToken: nat)
    requires ReceiptsOk(r, nextToken) && how != Expired
    ensures ReceiptsOk(Settle(r, token, how), nextToken) && ReceiptsOk(r, nextToken + 1)
  {
  }

  lemma ForwardKeepsReceipts(r: Receipts, b: Book, p: Publication, current: bool)
    requires ReceiptsOk(r, b.nextToken)
    ensures ReceiptsOk(ForwardedReceipts(r, b, p, current), b.nextToken + 1)
  {
    SettleKeepsReceipts(r, TokenAt(b, KeyOf(p)), Superseded, b.nextToken);
  }

  lemma SettleAllKeepsReceipts(r: Receipts, nextToken: nat)
    requires ReceiptsOk(r, nextToken)
    ensures ReceiptsOk(SettleAll(r), nextToken)
  {
  }

  lemma ExpireKeepsReceipts(r: Receipts, token: nat, nextToken: nat)
    requires ReceiptsOk(r, nextToken)
    ensures ReceiptsOk(Expire(r, token), nextToken)
  {
  }

  // ------------------------------------------------------------- every run

  lemma ForwardedStep(w: World, p: Publication, current: bool)
    requires Inv(w) && ForwardEnabled(w, p)
    ensures Inv(Next(w, Forwarded(p, current)))
  {
    hide BookOk, OwnershipOk, ReceiptsOk;
    var r := Next(w, Forwarded(p, current));
    assert BookOk(r.host, r.m.book) by { InstallKeepsBook(w.m.book, p, w.host); }
    assert OwnershipOk(r.host, r.served, r.m.book.mappings) by {
      InstallKeepsOwnership(w.host, w.served, w.m.book, p);
    }
    assert ReceiptsOk(r.m.receipts, r.m.book.nextToken) by {
      ForwardKeepsReceipts(w.m.receipts, w.m.book, p, current);
    }
  }

  lemma ForwardLostStep(w: World, p: Publication, landed: bool)
    requires Inv(w) && ForwardEnabled(w, p)
    ensures Inv(Next(w, ForwardLost(p, landed)))
  {
    hide BookOk, OwnershipOk, ReceiptsOk;
    var r := Next(w, ForwardLost(p, landed));
    assert BookOk(r.host, r.m.book) by { LostKeepsBook(w.m.book, p, w.host); }
    assert OwnershipOk(r.host, r.served, r.m.book.mappings) by {
      LostKeepsOwnership(w.host, w.served, w.m.book, p, landed);
    }
    assert ReceiptsOk(r.m.receipts, r.m.book.nextToken) by {
      SettleKeepsReceipts(w.m.receipts, 0, Cleared, w.m.book.nextToken);
    }
  }

  lemma ClearStep(w: World, e: Event)
    requires Inv(w) && Enabled(w, e) && (e.ClearDone? || e.ClearLost?)
    ensures Inv(Next(w, e))
  {
    if e.ClearDone? {
      ClearKeepsBook(w.m.book, e.plan, w.host);
      ClearKeepsOwnership(w.host, w.served, w.m.book, e.plan);
      SettleKeepsReceipts(w.m.receipts, TokenAt(w.m.book, PlanKey(e.plan)), Cleared, w.m.book.nextToken);
    } else {
      RemovalKeepsOwnership(w.host, w.served, w.m.book.mappings, ApplyClear(w.m.book, e.plan, w.served.config));
    }
  }

  lemma OtherStep(w: World, e: Event)
    requires Inv(w) && Enabled(w, e) && !e.Forwarded? && !e.ForwardLost? && !e.ClearDone? && !e.ClearLost?
    ensures Inv(Next(w, e))
  {
    var receipts, next := w.m.receipts, w.m.book.nextToken;
    SettleAllKeepsReceipts(receipts, next);
    SettleKeepsReceipts(receipts, 0, Cleared, next);
    if e.SweepDone? { SweepEndsOwnership(w.host, w.served, w.m.book); }
    if e.Acknowledge? { SettleKeepsReceipts(receipts, e.token, Acknowledged, next); }
    if e.TimerFired? { ExpireKeepsReceipts(receipts, e.token, next); }
  }

  lemma StepKeepsInv(w: World, e: Event)
    requires Inv(w)
    ensures Inv(Step(w, e))
  {
    if Enabled(w, e) {
      if e.Forwarded? {
        ForwardedStep(w, e.p, e.current);
      } else if e.ForwardLost? {
        ForwardLostStep(w, e.p, e.landed);
      } else if e.ClearDone? || e.ClearLost? {
        ClearStep(w, e);
      } else {
        OtherStep(w, e);
      }
    }
  }

  lemma {:induction false} RunKeepsInv(w: World, es: seq<Event>)
    requires Inv(w)
    ensures Inv(After(w, es))
    decreases |es|
  {
    if es != [] {
      RunKeepsInv(w, es[..|es| - 1]);
      StepKeepsInv(After(w, es[..|es| - 1]), es[|es| - 1]);
    }
  }
}
