/**
 The runtime-scoped registry of fd-backed resources. Slow binds commit into it
 while teardown drains it; the closed flag and the epoch decide every race under
 the registry's own lock.
 */
module Registry {
  import opened Basics

  /** The identity of a listener, bridge or binding. */
  type Resource = nat

  datatype Item = Item(id: nat, value: Resource)

  /**
   Beside the entries: every commit that was accepted, every resource handed to
   someone who closes it, and every entry a later commit displaced.
   */
  datatype State = State(
    closed: bool, entries: map<nat, Resource>, epoch: nat, accepted: set<Item>, handed: set<Item>,
    displaced: set<Item>)

  datatype Event =
    | Commit(gate: nat, id: nat, value: Resource)
    | Take(id: nat)
    | RemoveMatching(id: nat, value: Resource)
    | MoveEpoch
    | Drain

  function Items(entries: map<nat, Resource>): (items: set<Item>)
    ensures forall i :: i in items <==> i.id in entries && entries[i.id] == i.value
  {
    var items := set id | id in entries :: Item(id, entries[id]);
    assert forall i: Item :: i.id in entries && entries[i.id] == i.value ==> i == Item(i.id, entries[i.id]);
    items
  }

  predicate Accepts(s: State, gate: nat)
  {
    !s.closed && s.epoch == gate
  }

  /** The entry a commit would push out: present under the same id with another value. */
  predicate Displaces(s: State, id: nat, value: Resource)
  {
    id in s.entries && s.entries[id] != value
  }

  function Step(s: State, e: Event): (r: State)
  {
    match e
    case Commit(gate, id, value) =>
      if !Accepts(s, gate) then s
      else
        s.(entries := s.entries[id := value], accepted := s.accepted + {Item(id, value)},
           handed := s.handed - {Item(id, value)},
           displaced := (if Displaces(s, id, value) then s.displaced + {Item(id, s.entries[id])} else s.displaced)
                        - {Item(id, value)})
    case Take(id) =>
      if id !in s.entries then s
      else s.(entries := s.entries - {id}, handed := s.handed + {Item(id, s.entries[id])})
    case RemoveMatching(id, value) =>
      if id !in s.entries || s.entries[id] != value then s
      else s.(entries := s.entries - {id}, handed := s.handed + {Item(id, value)})
    case MoveEpoch => s.(epoch := s.epoch + 1)
    case Drain => s.(closed := true, entries := map[], handed := s.handed + Items(s.entries))
  }

  function After(s: State, es: seq<Event>): (r: State)
  {
    if es == [] then s else Step(After(s, es[..|es| - 1]), es[|es| - 1])
  }

  function Empty(epoch: nat): (s: State)
  {
    State(false, map[], epoch, {}, {}, {})
  }

  /** Every accepted resource is in exactly one place. */
  ghost predicate Conserved(s: State)
  {
    && s.accepted == Items(s.entries) + s.handed + s.displaced
    && Items(s.entries) !! s.handed && Items(s.entries) !! s.displaced
    && (s.closed ==> s.entries == map[])
  }

  lemma StepConserves(s: State, e: Event)
    requires Conserved(s)
    ensures Conserved(Step(s, e))
  {
    var r := Step(s, e);
    match e
    case Commit(gate, id, value) =>
      if Accepts(s, gate) {
        assert Items(r.entries) ==
          Items(s.entries) - (if id in s.entries then {Item(id, s.entries[id])} else {}) + {Item(id, value)};
      }
    case Take(id) =>
      if id in s.entries {
        assert Items(r.entries) == Items(s.entries) - {Item(id, s.entries[id])};
      }
    case RemoveMatching(id, value) =>
      if id in s.entries {
        assert Items(s.entries - {id}) == Items(s.entries) - {Item(id, s.entries[id])};
      }
    case MoveEpoch =>
    case Drain => assert Items(r.entries) == {};
  }

  lemma {:induction false} RunConserves(s: State, es: seq<Event>)
    requires Conserved(s)
    ensures Conserved(After(s, es))
    decreases |es|
  {
    if es != [] {
      RunConserves(s, es[..|es| - 1]);
      StepConserves(After(s, es[..|es| - 1]), es[|es| - 1]);
    }
  }

  /** Ids are drawn from a process-wide counter, so no two commits of a run carry the same one. */
  ghost predicate FreshIds(es: seq<Event>)
  {
    forall i, j :: 0 <= i < j < |es| && es[i].Commit? && es[j].Commit? ==> es[i].id != es[j].id
  }

  lemma {:induction false} IdsSeen(epoch: nat, es: seq<Event>, id: nat)
    requires id in After(Empty(epoch), es).entries
    ensures exists i :: 0 <= i < |es| && es[i].Commit? && es[i].id == id
    decreases |es|
  {
    if es != [] {
      var last := es[|es| - 1];
      if id in After(Empty(epoch), es[..|es| - 1]).entries {
        IdsSeen(epoch, es[..|es| - 1], id);
        var i :| 0 <= i < |es| - 1 && es[..|es| - 1][i].Commit? && es[..|es| - 1][i].id == id;
        assert es[i].Commit? && es[i].id == id;
      } else {
        assert last.Commit? && last.id == id;
      }
    }
  }

  /** With fresh ids nothing is ever displaced: each accepted resource is held or was handed to its closer. */
  lemma {:induction false} NothingOrphaned(epoch: nat, es: seq<Event>)
    requires FreshIds(es)
    ensures var s := After(Empty(epoch), es);
            && s.displaced == {} && s.accepted == Items(s.entries) + s.handed && Items(s.entries) !! s.handed
            && (s.closed ==> s.accepted == s.handed)
    decreases |es|
  {
    assert Items(Empty(epoch).entries) == {};
    RunConserves(Empty(epoch), es);
    if es != [] {
      var before, last := es[..|es| - 1], es[|es| - 1];
      assert forall i :: 0 <= i < |before| ==> before[i] == es[i];
      NothingOrphaned(epoch, before);
      if last.Commit? && last.id in After(Empty(epoch), before).entries {
        IdsSeen(epoch, before, last.id);
      }
    }
    assert After(Empty(epoch), es).closed ==> Items(After(Empty(epoch), es).entries) == {};
  }

  /** After a drain the registry is empty for good and accepts nothing. */
  lemma {:induction false} DrainedForever(s: State, es: seq<Event>)
    requires Conserved(s)
    ensures var d, r := Step(s, Drain), After(Step(s, Drain), es);
            && r.closed && r.entries == map[] && r.accepted == s.accepted
            && Items(s.entries) <= d.handed && d.handed <= r.handed
    decreases |es|
  {
    if es != [] {
      DrainedForever(s, es[..|es| - 1]);
    }
  }

  // ---------------------------------------------------------- in-place form

  /** The values of a map, one for each key. */
  method ValuesOf(entries: map<nat, Resource>) returns (values: seq<Resource>)
    ensures |values| == |entries|
    ensures forall v :: v in values <==> exists id :: id in entries && entries[id] == v
  {
    values := [];
    var rest := entries;
    while rest != map[]
      invariant rest.Keys <= entries.Keys && |values| + |rest| == |entries|
      invariant forall v :: v in values ==> exists id :: id in entries && entries[id] == v
      invariant forall id :: id in entries && id !in rest ==> entries[id] in values
      decreases |rest|
    {
      assert |rest| != 0 && |rest.Keys| == |rest|;
      var id :| id in rest.Keys;
      values := values + [entries[id]];
      assert (rest - {id}).Keys == rest.Keys - {id};
      rest := rest - {id};
    }
  }

  class FdRegistry {
    var closed: bool
    var entries: map<nat, Resource>
    ghost var epoch: nat
    ghost var accepted: set<Item>
    ghost var handed: set<Item>
    ghost var displaced: set<Item>

    ghost function Snapshot(): State
      reads this
    {
      State(closed, entries, epoch, accepted, handed, displaced)
    }

    constructor (epoch: nat)
      ensures Snapshot() == Empty(epoch) && Conserved(Snapshot())
    {
      closed, entries, this.epoch := false, map[], epoch;
      accepted, handed, displaced := {}, {}, {};
    }

    /** `stillCurrent` is the gate's epoch check, made under the registry's lock. */
    method CommitEntry(gate: nat, id: nat, value: Resource, stillCurrent: bool) returns (ok: bool)
      requires Conserved(Snapshot()) && stillCurrent == (epoch == gate)
      modifies this`entries, this`accepted, this`handed, this`displaced
      ensures Snapshot() == Step(old(Snapshot()), Commit(gate, id, value)) && Conserved(Snapshot())
      ensures ok <==> Accepts(old(Snapshot()), gate)
      ensures ok ==> id in entries && entries[id] == value
    {
      StepConserves(Snapshot(), Commit(gate, id, value));
      if closed || !stillCurrent { return false; }
      ghost var next := Step(Snapshot(), Commit(gate, id, value));
      entries := entries[id := value];
      accepted, handed, displaced := next.accepted, next.handed, next.displaced;
      return true;
    }

    method TakeEntry(id: nat) returns (value: Option<Resource>)
      requires Conserved(Snapshot())
      modifies this`entries, this`handed
      ensures Snapshot() == Step(old(Snapshot()), Take(id)) && Conserved(Snapshot())
      ensures value == if id in old(entries) then Some(old(entries)[id]) else None
    {
      StepConserves(Snapshot(), Take(id));
      if id !in entries { return None; }
      value := Some(entries[id]);
      handed := handed + {Item(id, entries[id])};
      entries := entries - {id};
    }

    method RemoveMatchingEntry(id: nat, value: Resource)
      requires Conserved(Snapshot())
      modifies this`entries, this`handed
      ensures Snapshot() == Step(old(Snapshot()), RemoveMatching(id, value)) && Conserved(Snapshot())
    {
      StepConserves(Snapshot(), RemoveMatching(id, value));
      if id in entries && entries[id] == value {
        entries := entries - {id};
        handed := handed + {Item(id, value)};
      }
    }

    /** drain returns every entry once, in whatever order the map yields them. */
    method DrainEntries() returns (values: seq<Resource>)
      requires Conserved(Snapshot())
      modifies this`closed, this`entries, this`handed
      ensures Snapshot() == Step(old(Snapshot()), Drain) && Conserved(Snapshot())
      ensures |values| == |old(entries)|
      ensures forall v :: v in values <==> exists id :: id in old(entries) && old(entries)[id] == v
    {
      StepConserves(Snapshot(), Drain);
      closed := true;
      values := ValuesOf(entries);
      handed := handed + Items(entries);
      entries := map[];
    }
  }
}
