/**
 Ownership bookkeeping of the publication manager as a state machine over
 every interleaving with other ServeConfig writers.
 */
module Publications {
  import opened Basics
  import opened ServeConfigs
  import opened Mutation

  const MAX_TOKEN: nat := 0xFFFF_FFFF_FFFF_FFFF

  datatype Key = Key(port: nat, mount: string)

  datatype Mapping = Mapping(host: string, token: nat, variants: seq<Handler>)

  datatype Evidence = Evidence(key: Key, handler: Handler, funnel: bool)

  datatype Visibility = Visibility(token: nat, funnel: bool, evidence: seq<Evidence>)

  datatype Settlement = Acknowledged | Superseded | Cleared | Expired | Swept

  /** What the manager may own: mappings by coordinate and one visibility owner per port. */
  datatype Book = Book(nextToken: nat, mappings: map<Key, Mapping>, visibility: map<HostPort, Visibility>)

  /**
   Delivery receipts by mapping token. `pending` is outstanding; `armed`,
   `settled` and `lost` record every receipt ever armed, how each was settled,
   and the loss callbacks in order.
   */
  datatype Receipts = Receipts(pending: set<nat>, armed: set<nat>, settled: map<nat, Settlement>, lost: seq<nat>)

  /** `clean` says that the closing sweep was confirmed. */
  datatype Manager = Manager(closed: bool, clean: bool, book: Book, receipts: Receipts)

  function KeyOf(p: Publication): Key { Key(p.at.port, p.mount) }

  function KeyAt(c: Coordinate): Key { Key(c.at.port, c.mount) }

  function CoordinateOf(host: string, key: Key): Coordinate { Coordinate(HostPort(host, key.port), key.mount) }

  /** mappingMatchesServeConfig */
  predicate Matches(mapping: Mapping, sc: ServeConfig, key: Key)
  {
    var current := Lookup(sc, CoordinateOf(mapping.host, key));
    mapping.host != "" && current.Some? && current.value in mapping.variants
  }

  /** visibilityOwnsEnabledConfig */
  predicate OwnsFunnel(sc: ServeConfig, at: HostPort, visibility: Visibility)
  {
    exists i :: 0 <= i < |visibility.evidence| && Supports(sc, at, visibility.evidence[i])
  }

  predicate Supports(sc: ServeConfig, at: HostPort, e: Evidence)
  {
    e.funnel && e.key.port == at.port && Lookup(sc, Coordinate(at, e.key.mount)) == Some(e.handler)
  }

  /** The first occurrences of a sequence, in order. */
  function Dedup<T(==, !new)>(s: seq<T>): (r: seq<T>)
    ensures forall x :: x in r <==> x in s
    ensures forall i, j :: 0 <= i < j < |r| ==> r[i] != r[j]
  {
    if s == [] then []
    else
      var rest := Dedup(s[..|s| - 1]);
      var last := s[|s| - 1];
      assert forall x :: x in s <==> x in s[..|s| - 1] || x == last;
      if last in rest then rest else rest + [last]
  }

  /** mergeDedup: both scans are loops in the source. */
  method MergeDedup<T(==, !new)>(a: seq<T>, b: seq<T>) returns (out: seq<T>)
    ensures out == Dedup(a + b)
  {
    out := [];
    var all := a + b;
    for i := 0 to |all|
      invariant out == Dedup(all[..i])
    {
      var duplicate := false;
      for j := 0 to |out|
        invariant duplicate <==> all[i] in out[..j]
      {
        if out[j] == all[i] {
          duplicate := true;
          break;
        }
      }
      assert out[..|out|] == out;
      assert all[..i + 1][..i] == all[..i];
      if !duplicate {
        out := out + [all[i]];
      }
    }
    assert all[..|all|] == all;
  }

  function EvidenceFor(key: Key, variants: seq<Handler>, funnel: bool): (r: seq<Evidence>)
    ensures |r| == |variants|
    ensures forall i :: 0 <= i < |r| ==> r[i] == Evidence(key, variants[i], funnel)
  {
    seq(|variants|, i requires 0 <= i < |variants| => Evidence(key, variants[i], funnel))
  }

  /** Evidence that does not name a cleared key. */
  function WithoutKey(evidence: seq<Evidence>, key: Key): (r: seq<Evidence>)
    ensures forall e :: e in r <==> e in evidence && e.key != key
  {
    if evidence == [] then []
    else
      var rest := WithoutKey(evidence[..|evidence| - 1], key);
      var last := evidence[|evidence| - 1];
      assert forall e :: e in evidence <==> e in evidence[..|evidence| - 1] || e == last;
      if last.key == key then rest else rest + [last]
  }

  // ---------------------------------------------------------------- receipts

  function Settle(r: Receipts, token: nat, how: Settlement): (r': Receipts)
  {
    if token in r.pending
    then r.(pending := r.pending - {token}, settled := r.settled[token := how])
    else r
  }

  function SettleAll(r: Receipts): (r': Receipts)
  {
    r.(pending := {},
       settled := map t | t in r.settled.Keys + r.pending :: if t in r.pending then Swept else r.settled[t])
  }

  function Arm(r: Receipts, token: nat): (r': Receipts)
  {
    r.(pending := r.pending + {token}, armed := r.armed + {token})
  }

  /** expirePendingDelivery: a receipt that is already gone makes the timer a no-op. */
  function Expire(r: Receipts, token: nat): (r': Receipts)
  {
    if token in r.pending then Settle(r, token, Expired).(lost := r.lost + [token]) else r
  }

  // ------------------------------------------------------------ bookkeeping

  /** The token recorded at a key, or the zero token no receipt carries. */
  function TokenAt(b: Book, key: Key): (token: nat)
  {
    if key in b.mappings then b.mappings[key].token else 0
  }

  /** After a confirmed forward. */
  function RecordInstalled(b: Book, p: Publication, token: nat): (r: Book)
  {
    var key := KeyOf(p);
    b.(mappings := b.mappings[key := Mapping(p.at.host, token, [p.handler])],
       visibility := b.visibility[p.at := Visibility(token, p.funnel, EvidenceFor(key, [p.handler], p.funnel))])
  }

  /** After a forward whose response was lost: both the prior and the attempted state may be live. */
  function RecordUncertain(b: Book, p: Publication, token: nat): (r: Book)
  {
    var key := KeyOf(p);
    var variants := if key in b.mappings then Dedup(b.mappings[key].variants + [p.handler]) else [p.handler];
    var attempted := EvidenceFor(key, [p.handler], p.funnel);
    var evidence := if p.at in b.visibility then Dedup(b.visibility[p.at].evidence + attempted) else attempted;
    b.(mappings := b.mappings[key := Mapping(p.at.host, token, variants)],
       visibility := b.visibility[p.at := Visibility(token, p.funnel, evidence)])
  }

  /** The mappings of one host:port. */
  function OnPort(mappings: map<Key, Mapping>, at: HostPort): (keys: set<Key>)
  {
    set k | k in mappings && k.port == at.port && mappings[k].host == at.host
  }

  ghost predicate IsNewest(mappings: map<Key, Mapping>, keys: set<Key>, newest: Key)
    requires keys <= mappings.Keys
  {
    newest in keys && forall k :: k in keys ==> mappings[k].token <= mappings[newest].token
  }

  lemma {:induction false} NewestExists(mappings: map<Key, Mapping>, keys: set<Key>)
    requires keys <= mappings.Keys && keys != {}
    ensures exists k :: IsNewest(mappings, keys, k)
    decreases |keys|
  {
    var k :| k in keys;
    if keys == {k} {
      assert IsNewest(mappings, keys, k);
    } else {
      assert keys - {k} != {};
      NewestExists(mappings, keys - {k});
      var best :| IsNewest(mappings, keys - {k}, best);
      var winner := if mappings[best].token < mappings[k].token then k else best;
      assert IsNewest(mappings, keys, winner);
    }
  }

  ghost function Newest(mappings: map<Key, Mapping>, at: HostPort): (k: Key)
    requires OnPort(mappings, at) != {}
    ensures IsNewest(mappings, OnPort(mappings, at), k)
  {
    NewestExists(mappings, OnPort(mappings, at));
    var k :| IsNewest(mappings, OnPort(mappings, at), k);
    k
  }

  /** transferVisibilityAfterCoordinateClearLocked, for the record of one port. */
  ghost function Heir(v: Visibility, mappings: map<Key, Mapping>, at: HostPort, clearedKey: Key, clearedToken: nat):
    (heir: Option<Visibility>)
    ensures v.token != clearedToken ==> heir.Some? && heir.value.token == v.token
    ensures v.token == clearedToken && heir.Some? ==>
      && heir.value.funnel == v.funnel
      && exists k :: IsNewest(mappings, OnPort(mappings, at), k) && mappings[k].token == heir.value.token
    ensures heir.None? ==> OnPort(mappings, at) == {}
  {
    if v.token != clearedToken then Some(v.(evidence := WithoutKey(v.evidence, clearedKey)))
    else if OnPort(mappings, at) == {} then None
    else
      var newest := Newest(mappings, at);
      Some(Visibility(mappings[newest].token, v.funnel, EvidenceFor(newest, mappings[newest].variants, v.funnel)))
  }

  /** A clear addresses a coordinate, or, with a token, the exact mapping a handle names. */
  datatype ClearPlan = ClearPlan(at: HostPort, mount: string, exact: Option<nat>, funnel: bool)

  function PlanKey(plan: ClearPlan): Key { Key(plan.at.port, plan.mount) }

  predicate OwnsVisibility(b: Book, plan: ClearPlan)
  {
    plan.exact.Some? && plan.at in b.visibility && b.visibility[plan.at].token == plan.exact.value
  }

  /** Whether the clear withdraws the Funnel bit: asked for, or attributable to this exact handle. */
  predicate WithdrawsFunnel(b: Book, plan: ClearPlan)
  {
    if plan.exact.Some? then OwnsVisibility(b, plan) && b.visibility[plan.at].funnel else plan.funnel
  }

  function ApplyClear(b: Book, plan: ClearPlan, sc: ServeConfig): (a: Applied)
    ensures a.Changed? ==> a.installs == {}
  {
    var key := PlanKey(plan);
    if plan.exact.Some? && !(key in b.mappings && Matches(b.mappings[key], sc, key)) then Unchanged
    else if IsTcpForwarding(sc, plan.at.port) then Rejected
    else
      var withdraw := WithdrawsFunnel(b, plan);
      var next := ClearMount(sc, plan.at, plan.mount, withdraw, withdraw || plan.exact.None?);
      if next == sc then Unchanged else Changed(next, {})
  }

  /** The visibility records after a confirmed clear. */
  ghost function ClearedVisibility(b: Book, plan: ClearPlan): (r: map<HostPort, Visibility>)
  {
    var key := PlanKey(plan);
    if OwnsVisibility(b, plan) || (plan.exact.None? && plan.funnel) then b.visibility - {plan.at}
    else if plan.exact.None? && key in b.mappings && plan.at in b.visibility then
      var heir := Heir(b.visibility[plan.at], b.mappings - {key}, plan.at, key, b.mappings[key].token);
      if heir.None? then b.visibility - {plan.at} else b.visibility[plan.at := heir.value]
    else b.visibility
  }

  /** After a confirmed clear. */
  ghost function RecordCleared(b: Book, plan: ClearPlan): (r: Book)
  {
    b.(mappings := b.mappings - {PlanKey(plan)}, visibility := ClearedVisibility(b, plan))
  }

  // ------------------------------------------------------------ closing sweep

  /** The mounts of one host:port at which a recorded variant is live. */
  function OwnedMounts(sc: ServeConfig, mappings: map<Key, Mapping>, keys: set<Key>, at: HostPort): (r: set<string>)
    ensures forall mount :: mount in r <==>
      && at in sc.web && mount in sc.web[at] && Key(at.port, mount) in keys * mappings.Keys
      && mappings[Key(at.port, mount)].host == at.host
      && Matches(mappings[Key(at.port, mount)], sc, Key(at.port, mount))
  {
    if at !in sc.web then {}
    else
      set mount | mount in sc.web[at]
        && Key(at.port, mount) in keys * mappings.Keys
        && mappings[Key(at.port, mount)].host == at.host
        && Matches(mappings[Key(at.port, mount)], sc, Key(at.port, mount))
  }

  predicate Emptied(sc: ServeConfig, mappings: map<Key, Mapping>, keys: set<Key>, at: HostPort)
  {
    var owned := OwnedMounts(sc, mappings, keys, at);
    at in sc.web && owned != {} && sc.web[at].Keys == owned
  }

  /** The handlers left once the owned mounts of `keys` are removed, with upstream's cascade. */
  function RemoveOwned(sc: ServeConfig, mappings: map<Key, Mapping>, keys: set<Key>): (r: ServeConfig)
  {
    ServeConfig(
      map at | at in sc.web && !Emptied(sc, mappings, keys, at) :: sc.web[at] - OwnedMounts(sc, mappings, keys, at),
      map port | port in sc.tcp && !(exists at :: at in sc.web && at.port == port && Emptied(sc, mappings, keys, at))
        :: sc.tcp[port],
      sc.funnel)
  }

  function WithdrawOwned(sc: ServeConfig, visibility: map<HostPort, Visibility>, ports: set<HostPort>): (r: ServeConfig)
  {
    sc.(funnel := map at | at in sc.funnel
                  && !(at in ports && at in visibility && OwnsFunnel(sc, at, visibility[at])) :: sc.funnel[at])
  }

  /** What closing leaves of a config: no order of iteration is involved. */
  function SweptConfig(sc: ServeConfig, b: Book): (r: ServeConfig)
  {
    RemoveOwned(WithdrawOwned(sc, b.visibility, b.visibility.Keys), b.mappings, b.mappings.Keys)
  }

  function ApplySweep(b: Book, sc: ServeConfig): (a: Applied)
    ensures a.Changed? ==> a.installs == {}
  {
    var next := SweptConfig(sc, b);
    if next == sc then Unchanged else Changed(next, {})
  }
}
