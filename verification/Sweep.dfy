/**
 The closing sweep: two loops over unordered maps, proved to have one result
 whatever the order, and exactly what that result removes.
 */
module Sweep {
  import opened Basics
  import opened ServeConfigs
  import opened Publications

  predicate KeysOk(mappings: map<Key, Mapping>)
  {
    forall k :: k in mappings ==> k.port != 0 && k.mount != ""
  }

  /** A coordinate the package owns: a recorded variant is live there. */
  predicate Recorded(sc: ServeConfig, mappings: map<Key, Mapping>, c: Coordinate)
  {
    && KeyAt(c) in mappings && mappings[KeyAt(c)].host == c.at.host
    && Matches(mappings[KeyAt(c)], sc, KeyAt(c))
  }

  lemma LookupRemoved(sc: ServeConfig, mappings: map<Key, Mapping>, keys: set<Key>, c: Coordinate)
    ensures Lookup(RemoveOwned(sc, mappings, keys), c)
            == if KeyAt(c) in keys && Recorded(sc, mappings, c) then None else Lookup(sc, c)
  {
    var owned := OwnedMounts(sc, mappings, keys, c.at);
    if c.at in sc.web && Emptied(sc, mappings, keys, c.at) {
      assert c.mount in sc.web[c.at] ==> c.mount in owned;
    }
  }

  lemma MatchesUnaffected(sc: ServeConfig, mappings: map<Key, Mapping>, done: set<Key>, k: Key)
    requires k in mappings && k !in done
    ensures Matches(mappings[k], RemoveOwned(sc, mappings, done), k) == Matches(mappings[k], sc, k)
  {
    LookupRemoved(sc, mappings, done, CoordinateOf(mappings[k].host, k));
  }

  /** Handling one more key changes only that key's host:port. */
  lemma MountsStep(sc: ServeConfig, mappings: map<Key, Mapping>, done: set<Key>, k: Key, at: HostPort)
    requires k in mappings && k !in done
    ensures OwnedMounts(sc, mappings, done + {k}, at)
            == OwnedMounts(sc, mappings, done, at)
               + if at == HostPort(mappings[k].host, k.port) && Matches(mappings[k], sc, k) then {k.mount} else {}
  {
  }

  lemma RemoveStep(sc: ServeConfig, mappings: map<Key, Mapping>, done: set<Key>, k: Key)
    requires KeysOk(mappings) && k in mappings && k !in done
    ensures RemoveOwned(sc, mappings, done + {k})
            == if Matches(mappings[k], sc, k)
               then RemoveGuarded(RemoveOwned(sc, mappings, done), HostPort(mappings[k].host, k.port), k.mount, false)
               else RemoveOwned(sc, mappings, done)
  {
    var at := HostPort(mappings[k].host, k.port);
    var before := RemoveOwned(sc, mappings, done);
    var after := RemoveOwned(sc, mappings, done + {k});
    forall other { MountsStep(sc, mappings, done, k, other); }
    if Matches(mappings[k], sc, k) {
      RemoveMatchedStep(sc, mappings, done, k);
    } else {
      assert forall other :: OwnedMounts(sc, mappings, done + {k}, other) == OwnedMounts(sc, mappings, done, other);
      assert forall other :: Emptied(sc, mappings, done + {k}, other) == Emptied(sc, mappings, done, other);
      assert after.web == before.web;
      assert after.tcp == before.tcp;
    }
  }

  /** A host:port is emptied by its last owned mount and by no other key. */
  lemma EmptiedStep(sc: ServeConfig, mappings: map<Key, Mapping>, done: set<Key>, k: Key)
    requires k in mappings && k !in done && Matches(mappings[k], sc, k)
    ensures var at := HostPort(mappings[k].host, k.port);
            var before := RemoveOwned(sc, mappings, done);
            && at in before.web && k.mount in before.web[at] && !Emptied(sc, mappings, done, at)
            && before.web[at] - {k.mount} == sc.web[at] - OwnedMounts(sc, mappings, done + {k}, at)
            && (Emptied(sc, mappings, done + {k}, at) <==> before.web[at] - {k.mount} == map[])
  {
    var at := HostPort(mappings[k].host, k.port);
    var now := OwnedMounts(sc, mappings, done, at);
    var next := OwnedMounts(sc, mappings, done + {k}, at);
    MountsStep(sc, mappings, done, k, at);
    assert k.mount in sc.web[at] && k.mount !in now && next == now + {k.mount};
    assert k.mount in sc.web[at].Keys && !Emptied(sc, mappings, done, at);
    var before := RemoveOwned(sc, mappings, done);
    assert before.web[at] == sc.web[at] - now;
    var left := before.web[at] - {k.mount};
    assert left == sc.web[at] - next;
    if left == map[] {
      forall mount | mount in sc.web[at] ensures mount in next {
        assert mount !in left;
      }
      assert sc.web[at].Keys == next;
    } else {
      var mount :| mount in left;
      assert mount in sc.web[at].Keys && mount !in next;
    }
  }

  lemma OthersStep(sc: ServeConfig, mappings: map<Key, Mapping>, done: set<Key>, k: Key, other: HostPort)
    requires k in mappings && k !in done && other != HostPort(mappings[k].host, k.port)
    ensures OwnedMounts(sc, mappings, done + {k}, other) == OwnedMounts(sc, mappings, done, other)
    ensures Emptied(sc, mappings, done + {k}, other) == Emptied(sc, mappings, done, other)
  {
    MountsStep(sc, mappings, done, k, other);
  }

  /** The host:port of the handled key, whose web entry shrinks or goes. */
  lemma OwnWebStep(sc: ServeConfig, mappings: map<Key, Mapping>, done: set<Key>, k: Key)
    requires KeysOk(mappings) && k in mappings && k !in done && Matches(mappings[k], sc, k)
    ensures var at := HostPort(mappings[k].host, k.port);
            var after := RemoveOwned(sc, mappings, done + {k}).web;
            var removed := RemoveGuarded(RemoveOwned(sc, mappings, done), at, k.mount, false).web;
            (at in after <==> at in removed) && (at in after ==> after[at] == removed[at])
  {
    assert mappings[k].host != "";
    hide Matches, Emptied, OwnedMounts;
    EmptiedStep(sc, mappings, done, k);
  }

  lemma WebStep(sc: ServeConfig, mappings: map<Key, Mapping>, done: set<Key>, k: Key, other: HostPort)
    requires KeysOk(mappings) && k in mappings && k !in done && Matches(mappings[k], sc, k)
    ensures var after := RemoveOwned(sc, mappings, done + {k}).web;
            var removed := RemoveGuarded(
              RemoveOwned(sc, mappings, done), HostPort(mappings[k].host, k.port), k.mount, false).web;
            && (other in after <==> other in removed)
            && (other in after ==> after[other] == removed[other])
  {
    hide Matches, Emptied, OwnedMounts;
    if other == HostPort(mappings[k].host, k.port) {
      OwnWebStep(sc, mappings, done, k);
    } else {
      OthersStep(sc, mappings, done, k, other);
    }
  }

  lemma TcpStep(sc: ServeConfig, mappings: map<Key, Mapping>, done: set<Key>, k: Key)
    requires KeysOk(mappings) && k in mappings && k !in done && Matches(mappings[k], sc, k)
    ensures RemoveOwned(sc, mappings, done + {k}).tcp
            == RemoveGuarded(
                 RemoveOwned(sc, mappings, done), HostPort(mappings[k].host, k.port), k.mount, false).tcp
  {
    var at := HostPort(mappings[k].host, k.port);
    assert at.host != "";
    hide Matches, Emptied, OwnedMounts;
    EmptiedStep(sc, mappings, done, k);
    forall other | other != at { OthersStep(sc, mappings, done, k, other); }
    var before := RemoveOwned(sc, mappings, done);
    var removed := RemoveGuarded(before, at, k.mount, false);
    if Emptied(sc, mappings, done + {k}, at) {
      assert removed.tcp == before.tcp - {at.port};
    } else {
      assert removed.tcp == before.tcp;
    }
  }

  lemma RemoveMatchedStep(sc: ServeConfig, mappings: map<Key, Mapping>, done: set<Key>, k: Key)
    requires KeysOk(mappings) && k in mappings && k !in done && Matches(mappings[k], sc, k)
    ensures RemoveOwned(sc, mappings, done + {k})
            == RemoveGuarded(RemoveOwned(sc, mappings, done), HostPort(mappings[k].host, k.port), k.mount, false)
  {
    var at := HostPort(mappings[k].host, k.port);
    var after := RemoveOwned(sc, mappings, done + {k});
    var removed := RemoveGuarded(RemoveOwned(sc, mappings, done), at, k.mount, false);
    assert after.funnel == removed.funnel;
    hide RemoveOwned, RemoveGuarded, Matches;
    TcpStep(sc, mappings, done, k);
    assert after.web == removed.web by {
      forall other { WebStep(sc, mappings, done, k, other); }
    }
  }

  lemma WithdrawStep(sc: ServeConfig, visibility: map<HostPort, Visibility>, done: set<HostPort>, at: HostPort)
    requires at in visibility && at !in done
    ensures var before := WithdrawOwned(sc, visibility, done);
            WithdrawOwned(sc, visibility, done + {at})
            == if OwnsFunnel(before, at, visibility[at]) then SetFunnel(before, at, false) else before
  {
    var before := WithdrawOwned(sc, visibility, done);
    OwnsFunnelReadsWebOnly(sc, before, at, visibility[at]);
  }

  lemma OwnsFunnelReadsWebOnly(a: ServeConfig, b: ServeConfig, at: HostPort, v: Visibility)
    requires a.web == b.web
    ensures OwnsFunnel(a, at, v) == OwnsFunnel(b, at, v)
  {
    assert forall e :: Supports(a, at, e) == Supports(b, at, e);
  }

  /** close's callback, visiting both maps in whatever order they yield. */
  method SweepAnyOrder(sc: ServeConfig, b: Book) returns (r: ServeConfig)
    requires KeysOk(b.mappings)
    ensures r == SweptConfig(sc, b)
  {
    r := WithdrawAnyOrder(sc, b.visibility);
    r := RemoveAnyOrder(r, b.mappings);
  }

  method WithdrawAnyOrder(sc: ServeConfig, visibility: map<HostPort, Visibility>) returns (r: ServeConfig)
    ensures r == WithdrawOwned(sc, visibility, visibility.Keys)
  {
    hide WithdrawOwned, OwnsFunnel, SetFunnel;
    r := sc;
    var ports := visibility.Keys;
    ghost var seen: set<HostPort> := {};
    WithdrawNone(sc, visibility);
    while ports != {}
      invariant ports <= visibility.Keys && seen == visibility.Keys - ports
      invariant r == WithdrawOwned(sc, visibility, seen)
      decreases |ports|
    {
      var at :| at in ports;
      WithdrawStep(sc, visibility, seen, at);
      if OwnsFunnel(r, at, visibility[at]) {
        r := SetFunnel(r, at, false);
      }
      ports := ports - {at};
      seen := seen + {at};
    }
    assert seen == visibility.Keys;
  }

  method RemoveAnyOrder(sc: ServeConfig, mappings: map<Key, Mapping>) returns (r: ServeConfig)
    requires KeysOk(mappings)
    ensures r == RemoveOwned(sc, mappings, mappings.Keys)
  {
    hide RemoveOwned, Matches, RemoveGuarded;
    r := sc;
    var keys := mappings.Keys;
    ghost var done: set<Key> := {};
    RemoveNone(sc, mappings);
    while keys != {}
      invariant keys <= mappings.Keys && done == mappings.Keys - keys
      invariant r == RemoveOwned(sc, mappings, done)
      decreases |keys|
    {
      var k :| k in keys;
      RemoveStep(sc, mappings, done, k);
      MatchesUnaffected(sc, mappings, done, k);
      if Matches(mappings[k], r, k) {
        r := RemoveGuarded(r, HostPort(mappings[k].host, k.port), k.mount, false);
      }
      keys := keys - {k};
      done := done + {k};
    }
    assert done == mappings.Keys;
  }

  lemma WithdrawNone(sc: ServeConfig, visibility: map<HostPort, Visibility>)
    ensures WithdrawOwned(sc, visibility, {}) == sc
  {
    assert WithdrawOwned(sc, visibility, {}).funnel == sc.funnel;
  }

  lemma RemoveNone(sc: ServeConfig, mappings: map<Key, Mapping>)
    ensures RemoveOwned(sc, mappings, {}) == sc
  {
    assert forall at :: OwnedMounts(sc, mappings, {}, at) == {};
    var r := RemoveOwned(sc, mappings, {});
    assert forall at :: at in sc.web ==> sc.web[at] - {} == sc.web[at];
    assert r.web == sc.web;
    assert r.tcp == sc.tcp;
  }

  /**
   What the sweep touches: a handler disappears exactly when it equals a
   recorded variant at its coordinate, and a Funnel bit exactly when enabled
   evidence for that port is still live before any handler goes.
   */
  lemma SweepRemovesExactlyRecorded(sc: ServeConfig, b: Book, c: Coordinate, at: HostPort)
    ensures Lookup(SweptConfig(sc, b), c)
            == if Recorded(sc, b.mappings, c) then None else Lookup(sc, c)
    ensures FunnelOn(SweptConfig(sc, b), at)
            == (FunnelOn(sc, at) && !(at in b.visibility && OwnsFunnel(sc, at, b.visibility[at])))
  {
    var withdrawn := WithdrawOwned(sc, b.visibility, b.visibility.Keys);
    LookupRemoved(withdrawn, b.mappings, b.mappings.Keys, c);
    assert Lookup(withdrawn, c) == Lookup(sc, c);
  }
}
