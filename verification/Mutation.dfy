/**
 The optimistic ServeConfig transaction: get, clone, apply, conditional set,
 at most three times. The config lives behind a compare-and-set register (the
 If-Match precondition of section 13.1.1 of RFC 9110) that other writers edit
 at any moment and whose response may be lost.
 */
module Mutation {
  import opened Basics
  import opened ServeConfigs

  const MAX_ATTEMPTS: nat := 3

  /** One accepted write of the register, by another writer or by this manager. */
  datatype Write = Foreign(next: ServeConfig) | Own(next: ServeConfig, installs: set<Coordinate>)

  /**
   The register's content together with the coordinates whose present handler
   was last installed by this manager.
   */
  datatype Served = Served(config: ServeConfig, owned: set<Coordinate>)

  /** Replacing a handler by a different one ends the manager's authorship of it. */
  function Land(s: Served, w: Write): (r: Served)
    ensures w.Foreign? ==> r.owned <= s.owned
    ensures w.Own? ==> w.installs <= r.owned <= s.owned + w.installs
  {
    var kept := set c | c in s.owned && Lookup(w.next, c) == Lookup(s.config, c);
    Served(w.next, kept + if w.Own? then w.installs else {})
  }

  function Replay(s: Served, writes: seq<Write>): (r: Served)
  {
    if writes == [] then s else Land(Replay(s, writes[..|writes| - 1]), writes[|writes| - 1])
  }

  predicate AllForeign(writes: seq<Write>)
  {
    forall i :: 0 <= i < |writes| ==> writes[i].Foreign?
  }

  lemma {:induction false} ReplayAppend(s: Served, xs: seq<Write>, ys: seq<Write>)
    ensures Replay(s, xs + ys) == Replay(Replay(s, xs), ys)
    decreases |ys|
  {
    if ys == [] {
      assert xs + ys == xs;
    } else {
      var y := ys[|ys| - 1];
      assert (xs + ys)[..|xs + ys| - 1] == xs + ys[..|ys| - 1];
      ReplayAppend(s, xs, ys[..|ys| - 1]);
    }
  }

  /** What applying an operation to one fetched config decides. */
  datatype Applied = Rejected | Unchanged | Changed(next: ServeConfig, installs: set<Coordinate>)

  datatype Response = Accepted | PreconditionFailed | Denied | ResponseLost

  datatype Outcome = Confirmed(wrote: bool) | NotApplied | Conflict | Indeterminate

  /** The upstream config behind its ETag. `sets` counts the requests of this manager. */
  class ServeRegister {
    var config: ServeConfig
    var etag: nat
    ghost var owned: set<Coordinate>
    ghost var sets: nat

    ghost function Content(): Served
      reads this
    {
      Served(config, owned)
    }

    /** Any number of writes by other writers. */
    method Interfere() returns (ghost writes: seq<Write>)
      modifies this
      ensures AllForeign(writes) && Content() == Replay(old(Content()), writes)
      ensures sets == old(sets)
      ensures etag >= old(etag)
      ensures etag == old(etag) ==> writes == []
    {
      writes := [];
      var count: nat := *;
      while count > 0
        invariant AllForeign(writes) && Content() == Replay(old(Content()), writes)
        invariant sets == old(sets)
        invariant etag == old(etag) + |writes|
      {
        var next: ServeConfig := *;
        ghost var w := Foreign(next);
        assert (writes + [w])[..|writes + [w]| - 1] == writes;
        writes := writes + [w];
        owned := Land(Content(), w).owned;
        config := next;
        etag := etag + 1;
        count := count - 1;
      }
    }

    method Get() returns (fetched: Option<(ServeConfig, nat)>)
      ensures fetched.Some? ==> fetched.value == (config, etag)
    {
      var answered: bool := *;
      fetched := if answered then Some((config, etag)) else None;
    }

    /**
     A conditional set. It lands only against the named tag, a typed refusal
     means it did not land, and a lost response says nothing.
     */
    method Set(candidate: ServeConfig, tag: nat, ghost installs: set<Coordinate>)
        returns (response: Response, ghost landed: bool)
      modifies this
      ensures sets == old(sets) + 1
      ensures landed ==> tag == old(etag) && Content() == Land(old(Content()), Own(candidate, installs))
      ensures !landed ==> Content() == old(Content()) && etag == old(etag)
      ensures response == Accepted ==> landed
      ensures response == PreconditionFailed || response == Denied ==> !landed
    {
      sets := sets + 1;
      response := *;
      landed := false;
      if tag != etag {
        if response == Accepted { response := PreconditionFailed; }
        return;
      }
      var reached: bool := *;
      if response == Accepted || (response == ResponseLost && reached) {
        owned := Land(Content(), Own(candidate, installs)).owned;
        config := candidate;
        etag := etag + 1;
        landed := true;
      }
    }
  }

  /** The caller's context can end at any time. */
  method ContextLive() returns (live: bool)
  {
    live := *;
  }

  /** The runtime can be detached at any time. */
  method RuntimeCurrent() returns (current: bool)
  {
    current := *;
  }

  /**
   How an operation that ended in `outcome` relates the register before and
   after it: `before` and `after` are the writes of others around the instant
   that decided the outcome, and `landed` says whether its own write landed.
   */
  ghost predicate Explains(
    start: Served, end: Served, apply: ServeConfig -> Applied, outcome: Outcome,
    before: seq<Write>, after: seq<Write>, landed: bool)
  {
    var there := Replay(start, before);
    var decision := apply(there.config);
    && AllForeign(before) && AllForeign(after)
    && (outcome == Confirmed(true) ==> landed)
    && (outcome == Confirmed(false) ==> !landed && decision.Unchanged?)
    && (outcome == NotApplied || outcome == Conflict ==> !landed)
    && (outcome == Indeterminate ==> decision.Changed?)
    && (landed ==> decision.Changed? && end == Replay(Land(there, Own(decision.next, decision.installs)), after))
    && (!landed ==> end == Replay(there, after))
  }

  /** An operation that did not land can be told with all foreign writes on one side. */
  lemma ExplainsLater(
    start: Served, mid: Served, end: Served, apply: ServeConfig -> Applied, outcome: Outcome,
    quiet: seq<Write>, before: seq<Write>, after: seq<Write>, landed: bool)
    requires AllForeign(quiet) && mid == Replay(start, quiet)
    requires Explains(mid, end, apply, outcome, before, after, landed)
    ensures Explains(start, end, apply, outcome, quiet + before, after, landed)
  {
    ReplayAppend(start, quiet, before);
  }

  /** One get/apply/set attempt; a precondition failure is reported as Conflict. */
  method Attempt(register: ServeRegister, requireCurrent: bool, apply: ServeConfig -> Applied)
      returns (outcome: Outcome, ghost before: seq<Write>, ghost after: seq<Write>, ghost landed: bool)
    modifies register
    ensures Explains(old(register.Content()), register.Content(), apply, outcome, before, after, landed)
    ensures register.sets <= old(register.sets) + 1
    ensures outcome == Conflict ==> register.sets == old(register.sets) + 1
  {
    outcome, before, after, landed := NotApplied, [], [], false;
    var live := ContextLive();
    if !live { return; }
    if requireCurrent {
      var current := RuntimeCurrent();
      if !current { return; }
    }
    before := register.Interfere();
    var fetched := register.Get();
    if fetched.None? { return; }
    var (base, tag) := fetched.value;
    var applied := apply(base);
    ghost var there := register.Content();
    after := register.Interfere();
    if applied.Rejected? { return; }
    if applied.Unchanged? { outcome := Confirmed(false); return; }
    live := ContextLive();
    if !live { return; }
    if requireCurrent {
      var current := RuntimeCurrent();
      if !current { return; }
    }
    outcome, landed := SendSet(register, applied, tag);
    if landed {
      assert after == [];
    }
    ghost var late := register.Interfere();
    if !landed {
      ReplayAppend(there, after, late);
    }
    after := after + late;
    assert late == [] + late;
  }

  /** Sends one candidate and classifies the response. */
  method SendSet(register: ServeRegister, applied: Applied, tag: nat) returns (outcome: Outcome, ghost landed: bool)
    requires applied.Changed?
    modifies register
    ensures register.sets == old(register.sets) + 1
    ensures landed ==>
      && tag == old(register.etag)
      && register.Content() == Land(old(register.Content()), Own(applied.next, applied.installs))
    ensures !landed ==> register.Content() == old(register.Content())
    ensures outcome != Confirmed(false)
    ensures outcome == Confirmed(true) ==> landed
    ensures outcome == NotApplied || outcome == Conflict ==> !landed
  {
    var response;
    response, landed := register.Set(applied.next, tag, applied.installs);
    match response
    case Accepted => outcome := Confirmed(true);
    case PreconditionFailed => outcome := Conflict;
    case Denied => outcome := NotApplied;
    case ResponseLost => outcome := Indeterminate;
  }

  /**
   mutateLocked: at most three attempts, of which only a precondition failure
   leads to the next.
   */
  method MutateLocked(register: ServeRegister, requireCurrent: bool, apply: ServeConfig -> Applied)
      returns (outcome: Outcome, ghost before: seq<Write>, ghost after: seq<Write>, ghost landed: bool)
    modifies register
    ensures Explains(old(register.Content()), register.Content(), apply, outcome, before, after, landed)
    ensures register.sets <= old(register.sets) + MAX_ATTEMPTS
    ensures outcome == Conflict ==> register.sets == old(register.sets) + MAX_ATTEMPTS
  {
    ghost var quiet: seq<Write> := [];
    var attempt := 1;
    while true
      invariant 1 <= attempt <= MAX_ATTEMPTS
      invariant register.sets == old(register.sets) + attempt - 1
      invariant AllForeign(quiet) && register.Content() == Replay(old(register.Content()), quiet)
      decreases MAX_ATTEMPTS - attempt
    {
      ghost var mid := register.Content();
      outcome, before, after, landed := Attempt(register, requireCurrent, apply);
      if outcome != Conflict || attempt == MAX_ATTEMPTS {
        ExplainsLater(old(register.Content()), mid, register.Content(), apply, outcome, quiet, before, after, landed);
        before := quiet + before;
        return;
      }
      ReplayAppend(mid, before, after);
      ReplayAppend(old(register.Content()), quiet, before + after);
      quiet := quiet + (before + after);
      attempt := attempt + 1;
    }
  }
}
