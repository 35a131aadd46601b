/**
 The encrypted state store as a state machine over its disk: the envelope is
 replaced through a synced temporary and a rename, any step may fail, a crash
 may fall between any two of them, and reopening inspects the layout first. The
 cipher and the JSON text are abstract but lawful.
 */
module StoreRuns {
  import opened Basics
  import opened Base64
  import opened Envelopes

  type StateMap = map<string, seq<byte>>

  /** Authenticated encryption and the plaintext form of a state map. */
  datatype Cipher = Cipher(
    seal: (nat, seq<byte>, seq<byte>) -> seq<byte>,
    unseal: (nat, seq<byte>, seq<byte>) -> Option<seq<byte>>,
    marshal: StateMap -> seq<byte>,
    parse: seq<byte> -> Option<StateMap>)

  ghost predicate Lawful(c: Cipher)
  {
    && (forall k, n, p :: c.unseal(k, n, c.seal(k, n, p)) == Some(p) && |c.seal(k, n, p)| == |p| + OVERHEAD)
    && (forall m :: c.parse(c.marshal(m)) == Some(m))
  }

  /** What one store is opened with. */
  datatype Vault = Vault(cipher: Cipher, key: nat)

  /** A file whose data was never synced may come back torn. */
  datatype Content = Whole(e: Envelope) | Torn

  /** inspectEncryptedStateEnvelopeFile: the keyless check of a file. */
  predicate Sound(content: Content)
  {
    content.Whole? && |content.e.nonce| == NONCE_SIZE && OVERHEAD <= |content.e.ciphertext| <= MAX_CIPHERTEXT
  }

  /** openEncryptedStateStore on a file: the keyless check, authentication, size, map. */
  function Read(v: Vault, file: Option<Content>): (r: Option<StateMap>)
  {
    if file.None? || !Sound(file.value) then None
    else
      var plaintext := v.cipher.unseal(v.key, file.value.e.nonce, file.value.e.ciphertext);
      if plaintext.None? || |plaintext.value| > MAX_PLAINTEXT then None else v.cipher.parse(plaintext.value)
  }

  function Sealed(v: Vault, nonce: seq<byte>, state: StateMap): (content: Content)
  {
    Whole(Envelope(nonce, v.cipher.seal(v.key, nonce, v.cipher.marshal(state))))
  }

  lemma SealedReadsBack(v: Vault, nonce: seq<byte>, state: StateMap)
    requires Lawful(v.cipher) && |nonce| == NONCE_SIZE && |v.cipher.marshal(state)| <= MAX_PLAINTEXT
    ensures Read(v, Some(Sealed(v, nonce, state))) == Some(state)
    ensures |Sealed(v, nonce, state).e.ciphertext| <= MAX_CIPHERTEXT
    ensures |Marshal(Sealed(v, nonce, state).e)| <= MAX_ENVELOPE
  {
    LimitsAgree(|v.cipher.marshal(state)|, Sealed(v, nonce, state).e);
  }

  // -------------------------------------------------------------------- disk

  /** The two names of the subtree as seen now, and what a crash could leave of each. */
  datatype Disk = Disk(
    main: Option<Content>, temp: Option<Content>, tempSynced: bool,
    mains: set<Option<Content>>, temps: set<Option<Content>>)

  function Put(d: Disk, content: Content): (r: Disk)
  {
    d.(temp := Some(content), tempSynced := false, temps := d.temps + {Some(content)})
  }

  /** The rename is atomic; what it moves is whole after a crash only if it was synced before. */
  function Renamed(d: Disk): (r: Disk)
  {
    d.(main := d.temp, temp := None,
       mains := d.mains + {d.temp} + (if d.tempSynced then {} else {Some(Torn)}), temps := d.temps + {None})
  }

  function Removed(d: Disk): (r: Disk)
  {
    d.(temp := None, temps := d.temps + {None})
  }

  function DirectorySynced(d: Disk): (r: Disk)
  {
    d.(mains := {d.main}, temps := {d.temp})
  }

  // ------------------------------------------------------------------- store

  datatype Stage = Begun | Created | Written | Synced | Committed

  /** A write carries what the cache was (None while the store is created) and what it will be. */
  datatype Process =
    | Down
    | Inspected
    | Open(cache: StateMap)
    | Writing(prior: Option<StateMap>, candidate: StateMap, content: Content, stage: Stage)

  datatype Store = Store(disk: Disk, process: Process)

  datatype Event =
    | BeginCreate(content: Content)
    | BeginWrite(candidate: StateMap, content: Content)
    | CreateTemp
    | WriteTemp
    | SyncTemp
    | Rename
    | SyncDirectory(ok: bool)
    | Fail(removed: bool)
    | CloseStore
    | Crash(main: Option<Content>, temp: Option<Content>)
    | Inspect(removable: bool, synced: bool)
    | OpenStore

  const FRESH := Store(Disk(None, None, false, {None}, {None}), Down)

  predicate At(s: Store, stage: Stage)
  {
    s.process.Writing? && s.process.stage == stage
  }

  predicate Enabled(v: Vault, s: Store, e: Event)
  {
    match e
    case BeginCreate(content) => s.process.Down? && s.disk.main.None? && Read(v, Some(content)) == Some(map[])
    case BeginWrite(candidate, content) => s.process.Open? && Read(v, Some(content)) == Some(candidate)
    case CreateTemp => At(s, Begun) && s.disk.temp.None?
    case WriteTemp => At(s, Created)
    case SyncTemp => At(s, Written)
    case Rename => At(s, Synced)
    case SyncDirectory(_) => At(s, Committed)
    case Fail(_) => s.process.Writing? && s.process.stage != Committed
    case CloseStore => s.process.Open?
    case Crash(main, temp) => main in s.disk.mains && temp in s.disk.temps
    case Inspect(_, _) => s.process.Down?
    case OpenStore => s.process.Inspected?
  }

  function Staged(s: Store, d: Disk, stage: Stage): (r: Store)
    requires s.process.Writing?
  {
    Store(d, s.process.(stage := stage))
  }

  /** inspectPersistentStateLayout: a leftover temporary is removed and the removal synced before anything else. */
  function Looked(s: Store, removable: bool, synced: bool): (r: Store)
  {
    var d := s.disk;
    if d.temp.Some? && !removable then s
    else if d.temp.Some? && !synced then s.(disk := Removed(d))
    else
      Store(if d.temp.Some? then DirectorySynced(Removed(d)) else d,
            if d.main.Some? && Sound(d.main.value) then Inspected else s.process)
  }

  function Next(v: Vault, s: Store, e: Event): (r: Store)
    requires Enabled(v, s, e)
  {
    var d := s.disk;
    match e
    case BeginCreate(content) => s.(process := Writing(None, map[], content, Begun))
    case BeginWrite(candidate, content) => s.(process := Writing(Some(s.process.cache), candidate, content, Begun))
    case CreateTemp => Staged(s, Put(d, Torn), Created)
    case WriteTemp => Staged(s, Put(d, s.process.content), Written)
    case SyncTemp => Staged(s, d.(tempSynced := true), Synced)
    case Rename => Staged(s, Renamed(d), Committed)
    case SyncDirectory(ok) => Store(if ok then DirectorySynced(d) else d, Open(s.process.candidate))
    case Fail(removed) =>
      Store(if s.process.stage != Begun && removed then Removed(d) else d,
            if s.process.prior.None? then Down else Open(s.process.prior.value))
    case CloseStore => s.(process := Down)
    case Crash(main, temp) => Store(Disk(main, temp, true, {main}, {temp}), Down)
    case Inspect(removable, synced) => Looked(s, removable, synced)
    case OpenStore => s.(process := if Read(v, d.main).None? then Down else Open(Read(v, d.main).value))
  }

  function Step(v: Vault, s: Store, e: Event): (r: Store)
  {
    if Enabled(v, s, e) then Next(v, s, e) else s
  }

  function After(v: Vault, s: Store, es: seq<Event>): (r: Store)
  {
    if es == [] then s else Step(v, After(v, s, es[..|es| - 1]), es[|es| - 1])
  }

  lemma AfterOne(v: Vault, s: Store, es: seq<Event>, e: Event)
    ensures After(v, s, es + [e]) == Step(v, After(v, s, es), e)
  {
    assert (es + [e])[..|es|] == es;
  }

  // --------------------------------------------------------------- invariant

  predicate StageOk(v: Vault, s: Store)
    requires s.process.Writing?
  {
    var p := s.process;
    && Read(v, Some(p.content)) == Some(p.candidate) && (p.prior.None? ==> p.candidate == map[])
    && (p.stage == Created ==> s.disk.temp.Some?)
    && (p.stage == Written ==> s.disk.temp == Some(p.content))
    && (p.stage == Synced ==> s.disk.temp == Some(p.content) && s.disk.tempSynced)
    && (if p.stage == Committed then Read(v, s.disk.main) == Some(p.candidate)
        else if p.prior.None? then s.disk.main.None?
        else Read(v, s.disk.main) == p.prior)
  }

  /** Whatever a crash leaves under the envelope's name can be read, and the cache is what the file says. */
  predicate Inv(v: Vault, s: Store)
  {
    && s.disk.main in s.disk.mains && s.disk.temp in s.disk.temps
    && (forall f :: f in s.disk.mains && f.Some? ==> Read(v, f).Some?)
    && (s.process.Open? ==> Read(v, s.disk.main) == Some(s.process.cache))
    && (s.process.Inspected? ==> s.disk.temp.None? && s.disk.main.Some?)
    && (s.process.Writing? ==> StageOk(v, s))
  }

  lemma StepKeepsInv(v: Vault, s: Store, e: Event)
    requires Inv(v, s)
    ensures Inv(v, Step(v, s, e))
  {
    hide Read;
  }

  lemma {:induction false} RunKeepsInv(v: Vault, s: Store, es: seq<Event>)
    requires Inv(v, s)
    ensures Inv(v, After(v, s, es))
    decreases |es|
  {
    hide Inv, Step;
    if es != [] {
      RunKeepsInv(v, s, es[..|es| - 1]);
      StepKeepsInv(v, After(v, s, es[..|es| - 1]), es[|es| - 1]);
    }
  }

  // -------------------------------------------------------------- durability

  /**
   What was committed since the directory was last synced, oldest first: the
   state it then held (None if there was no file), and every map renamed into
   place afterwards. It is told from the events alone, not from what a crash may
   leave.
   */
  function NextSince(v: Vault, s: Store, since: seq<Option<StateMap>>, e: Event): (r: seq<Option<StateMap>>)
    requires since != []
    ensures r != []
  {
    var last := since[|since| - 1];
    if !Enabled(v, s, e) then since
    else
      match e
      case Rename => since + [Some(s.process.candidate)]
      case SyncDirectory(ok) => if ok then [last] else since
      case Inspect(removable, synced) => if s.disk.temp.Some? && removable && synced then [last] else since
      case Crash(main, _) => [Read(v, main)]
      case _ => since
  }

  function Since(v: Vault, es: seq<Event>): (r: seq<Option<StateMap>>)
    ensures r != []
  {
    if es == [] then [None]
    else NextSince(v, After(v, FRESH, es[..|es| - 1]), Since(v, es[..|es| - 1]), es[|es| - 1])
  }

  lemma SinceOne(v: Vault, es: seq<Event>, e: Event)
    ensures Since(v, es + [e]) == NextSince(v, After(v, FRESH, es), Since(v, es), e)
  {
    assert (es + [e])[..|es|] == es;
  }

  /** The files a crash may leave hold exactly the states committed since the last sync. */
  ghost predicate Tracks(v: Vault, s: Store, since: seq<Option<StateMap>>)
  {
    && since != [] && since[|since| - 1] == Read(v, s.disk.main)
    && (forall f :: f in s.disk.mains ==> Read(v, f) in since)
    && (forall m :: m in since ==> exists f :: f in s.disk.mains && Read(v, f) == m)
  }

  /** After these only one file can come back. */
  predicate Settles(v: Vault, s: Store, e: Event)
  {
    && Enabled(v, s, e)
    && (e.Crash? || e == SyncDirectory(true) || (e == Inspect(true, true) && s.disk.temp.Some?))
  }

  lemma StepTracks(v: Vault, s: Store, since: seq<Option<StateMap>>, e: Event)
    requires Inv(v, s) && Tracks(v, s, since)
    ensures Tracks(v, Step(v, s, e), NextSince(v, s, since, e))
  {
    hide Read;
    var r, now := Step(v, s, e), NextSince(v, s, since, e);
    if Enabled(v, s, e) && e.Rename? {
      var file := Some(s.process.content);
      assert r.disk.mains == s.disk.mains + {file} && now == since + [Some(s.process.candidate)];
      forall m | m in now ensures exists f :: f in r.disk.mains && Read(v, f) == m {
        if m in since {
          var f :| f in s.disk.mains && Read(v, f) == m;
          assert f in r.disk.mains;
        } else {
          assert file in r.disk.mains;
        }
      }
      forall f | f in r.disk.mains ensures Read(v, f) in now {
        if f in s.disk.mains { assert Read(v, f) in since; } else { assert now[|since|] == Read(v, file); }
      }
    } else if Settles(v, s, e) {
      assert r.disk.mains == {r.disk.main} && now == [Read(v, r.disk.main)];
      assert r.disk.main in r.disk.mains;
    } else {
      assert r.disk.main == s.disk.main && now == since;
    }
  }

  lemma {:induction false} RunTracks(v: Vault, es: seq<Event>)
    ensures Inv(v, After(v, FRESH, es)) && Tracks(v, After(v, FRESH, es), Since(v, es))
    decreases |es|
  {
    if es == [] {
      assert FRESH.disk.main in FRESH.disk.mains;
    } else {
      var before := After(v, FRESH, es[..|es| - 1]);
      RunTracks(v, es[..|es| - 1]);
      StepKeepsInv(v, before, es[|es| - 1]);
      StepTracks(v, before, Since(v, es[..|es| - 1]), es[|es| - 1]);
      hide Inv, Tracks, Step;
    }
  }

  /** A crash that leaves these files, then layout inspection, then open; None if any of them refuses. */
  function Reopened(v: Vault, s: Store, main: Option<Content>, temp: Option<Content>): (r: Option<StateMap>)
  {
    var p := After(v, s, [Crash(main, temp), Inspect(true, true), OpenStore]).process;
    if p.Open? then Some(p.cache) else None
  }

  lemma ReopensAsRead(v: Vault, s: Store, main: Option<Content>, temp: Option<Content>)
    requires main in s.disk.mains && temp in s.disk.temps
    ensures Reopened(v, s, main, temp) == Read(v, main)
  {
    assert After(v, s, []) == s;
    hide After;
    AfterOne(v, s, [], Crash(main, temp));
    AfterOne(v, s, [Crash(main, temp)], Inspect(true, true));
    AfterOne(v, s, [Crash(main, temp), Inspect(true, true)], OpenStore);
    assert [] + [Crash(main, temp)] == [Crash(main, temp)];
    assert [Crash(main, temp)] + [Inspect(true, true)] == [Crash(main, temp), Inspect(true, true)];
    assert [Crash(main, temp), Inspect(true, true)] + [OpenStore]
        == [Crash(main, temp), Inspect(true, true), OpenStore];
  }

  /** Every crash now, followed by inspection and open, brings back one of these two states. */
  ghost predicate OneOf(v: Vault, s: Store, a: Option<StateMap>, b: Option<StateMap>)
  {
    forall main, temp :: main in s.disk.mains && temp in s.disk.temps ==>
      Reopened(v, s, main, temp) == a || Reopened(v, s, main, temp) == b
  }

  /**
   At every moment of every run, whatever a crash leaves of the envelope can be
   read back, and the state reopened is one of two given ones exactly when
   nothing else was committed since the directory was last synced.
   */
  lemma AtomicIff(v: Vault, es: seq<Event>, a: Option<StateMap>, b: Option<StateMap>)
    ensures var s := After(v, FRESH, es);
            && (OneOf(v, s, a, b) <==> forall m :: m in Since(v, es) ==> m == a || m == b)
            && (forall main, temp :: main in s.disk.mains && temp in s.disk.temps && main.Some? ==>
                  Reopened(v, s, main, temp).Some?)
  {
    RunTracks(v, es);
    var s := After(v, FRESH, es);
    hide Reopened, Read, After;
    forall main, temp | main in s.disk.mains && temp in s.disk.temps
      ensures Reopened(v, s, main, temp) == Read(v, main)
    {
      ReopensAsRead(v, s, main, temp);
    }
    if OneOf(v, s, a, b) {
      forall m | m in Since(v, es) ensures m == a || m == b {
        var f :| f in s.disk.mains && Read(v, f) == m;
        assert Reopened(v, s, f, s.disk.temp) == m;
      }
    }
  }

  /** The steps of a write up to its commit. */
  const STAGES := [CreateTemp, WriteTemp, SyncTemp, Rename]

  function Steps(candidate: StateMap, content: Content): (es: seq<Event>)
  {
    [BeginWrite(candidate, content)] + STAGES
  }

  /** A store that is open, with no leftover temporary and its directory synced, is in this state only. */
  predicate Settled(v: Vault, es: seq<Event>, state: StateMap)
  {
    var s := After(v, FRESH, es);
    s.process == Open(state) && s.disk.temp.None? && Since(v, es) == [Some(state)]
  }

  lemma Steady(v: Vault, es: seq<Event>, e: Event)
    requires e == CreateTemp || e == WriteTemp || e == SyncTemp || e.BeginWrite?
    ensures Since(v, es + [e]) == Since(v, es)
  {
    SinceOne(v, es, e);
  }

  /** A write without faults, from its beginning to its commit. */
  lemma StagesRun(v: Vault, es: seq<Event>)
    requires var s := After(v, FRESH, es); At(s, Begun) && s.disk.temp.None?
    ensures var s, r := After(v, FRESH, es), After(v, FRESH, es + STAGES);
            && r.process == s.process.(stage := Committed)
            && r.disk.main == Some(s.process.content) && r.disk.temp.None?
            && Since(v, es + STAGES) == Since(v, es) + [Some(s.process.candidate)]
  {
    hide After, Since, Read;
    AfterOne(v, FRESH, es, CreateTemp); Steady(v, es, CreateTemp);
    var xs := es + [CreateTemp];
    AfterOne(v, FRESH, xs, WriteTemp); Steady(v, xs, WriteTemp);
    var ys := xs + [WriteTemp];
    AfterOne(v, FRESH, ys, SyncTemp); Steady(v, ys, SyncTemp);
    var zs := ys + [SyncTemp];
    AfterOne(v, FRESH, zs, Rename); SinceOne(v, zs, Rename);
    assert zs + [Rename] == es + STAGES;
  }

  lemma WriteRun(v: Vault, es: seq<Event>, cache: StateMap, candidate: StateMap, content: Content)
    requires var s := After(v, FRESH, es); s.process == Open(cache) && s.disk.temp.None?
    requires Read(v, Some(content)) == Some(candidate)
    ensures var r := After(v, FRESH, es + Steps(candidate, content));
            && r.process == Writing(Some(cache), candidate, content, Committed)
            && r.disk.main == Some(content) && r.disk.temp.None?
    ensures Since(v, es + Steps(candidate, content)) == Since(v, es) + [Some(candidate)]
  {
    hide After, Since, Read;
    var e := BeginWrite(candidate, content);
    AfterOne(v, FRESH, es, e); Steady(v, es, e);
    StagesRun(v, es + [e]);
    assert es + [e] + STAGES == es + Steps(candidate, content);
  }

  /** After a directory sync that succeeded only the old state and the one being written can come back. */
  lemma SyncedWriteIsAtomic(v: Vault, es: seq<Event>, cache: StateMap, candidate: StateMap, content: Content, n: nat)
    requires Settled(v, es, cache) && Read(v, Some(content)) == Some(candidate) && n <= 5
    ensures OneOf(v, After(v, FRESH, es + Steps(candidate, content)[..n]), Some(cache), Some(candidate))
  {
    var steps := Steps(candidate, content);
    hide OneOf, After, Read, Since;
    if n == 5 {
      assert steps[..5] == steps;
      WriteRun(v, es, cache, candidate, content);
    } else {
      SteadyPrefix(v, es, steps, n);
    }
    AtomicIff(v, es + steps[..n], Some(cache), Some(candidate));
  }

  lemma {:induction false} SteadyPrefix(v: Vault, es: seq<Event>, steps: seq<Event>, n: nat)
    requires n <= |steps|
    requires forall i :: 0 <= i < n ==>
      steps[i] == CreateTemp || steps[i] == WriteTemp || steps[i] == SyncTemp || steps[i].BeginWrite?
    ensures Since(v, es + steps[..n]) == Since(v, es)
    decreases n
  {
    hide Since;
    if n == 0 {
      assert es + steps[..0] == es;
    } else {
      SteadyPrefix(v, es, steps, n - 1);
      Steady(v, es + steps[..n - 1], steps[n - 1]);
      assert es + steps[..n - 1] + [steps[n - 1]] == es + steps[..n];
    }
  }

  /**
   A write that reported success can vanish: its directory sync failed, and a
   crash during the next write brings back the state from before both.
   */
  lemma VanishingWrite(v: Vault, es: seq<Event>, cache: StateMap, a: StateMap, b: StateMap, ca: Content, cb: Content)
      returns (run: seq<Event>, main: Option<Content>)
    requires Settled(v, es, cache) && a != cache && b != cache
    requires Read(v, Some(ca)) == Some(a) && Read(v, Some(cb)) == Some(b)
    ensures var s := After(v, FRESH, es + run);
            && |run| == 7 && After(v, FRESH, es + run[..6]).process == Open(a)
            && s.process == Writing(Some(a), b, cb, Begun)
            && main in s.disk.mains && Reopened(v, s, main, s.disk.temp) == Some(cache)
  {
    run := Steps(a, ca) + [SyncDirectory(false), BeginWrite(b, cb)];
    WriteRun(v, es, cache, a, ca);
    hide After, Since, Read;
    var xs := es + Steps(a, ca);
    AfterOne(v, FRESH, xs, SyncDirectory(false));
    SinceOne(v, xs, SyncDirectory(false));
    AfterOne(v, FRESH, xs + [SyncDirectory(false)], BeginWrite(b, cb));
    Steady(v, xs + [SyncDirectory(false)], BeginWrite(b, cb));
    assert es + run[..6] == xs + [SyncDirectory(false)];
    assert es + run == xs + [SyncDirectory(false)] + [BeginWrite(b, cb)];
    main := Lost(v, es + run, Some(cache));
  }

  /** Everything committed since the last sync is what some crash brings back. */
  lemma Lost(v: Vault, es: seq<Event>, m: Option<StateMap>) returns (main: Option<Content>)
    requires m in Since(v, es)
    ensures var s := After(v, FRESH, es); main in s.disk.mains && Reopened(v, s, main, s.disk.temp) == m
  {
    RunTracks(v, es);
    var s := After(v, FRESH, es);
    var f :| f in s.disk.mains && Read(v, f) == m;
    main := f;
    ReopensAsRead(v, s, main, s.disk.temp);
  }

  /** The first commit of a store, from a subtree without an envelope. */
  lemma CreateRun(v: Vault, content: Content) returns (es: seq<Event>)
    requires Read(v, Some(content)) == Some(map[])
    ensures Settled(v, es, map[])
  {
    var e := BeginCreate(content);
    assert After(v, FRESH, []) == FRESH && Since(v, []) == [None];
    hide After, Since, Read;
    AfterOne(v, FRESH, [], e); SinceOne(v, [], e);
    StagesRun(v, [] + [e]);
    es := [] + [e] + STAGES;
    AfterOne(v, FRESH, es, SyncDirectory(true)); SinceOne(v, es, SyncDirectory(true));
    es := es + [SyncDirectory(true)];
  }
}
