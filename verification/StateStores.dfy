/**
 The encrypted state store with its fields updated in place: layout inspection,
 opening, creation and writes. Each method is a stretch of a run of StoreRuns.
 */
module StateStores {
  import opened Basics
  import opened Base64
  import opened Envelopes
  import opened StoreRuns

  // ------------------------------------------------------------------ layout

  const ENVELOPE_FILE := "tailscaled.state.enc"
  const ENVELOPE_TEMP := ".tailscaled.state.enc.tmp"
  const SIDECAR := "tsnet"
  const LEGACY: set<string> := {"state.db", "state.db-wal", "state.db-shm", "tailscaled.state"}

  datatype Layout = NoState | Encrypted | ResetIncomplete | Residue | LegacyState | Conflict | TempStuck | Malformed

  /**
   inspectPersistentStateLayout on the names in the subtree; None for a subtree
   that does not exist. `tempRemovable` is whether the leftover temporary could
   be verified and durably removed, `sidecarLegacy` whether the sidecar directory
   holds a legacy file, and `sound` whether the envelope file passes the keyless
   check.
   */
  method InspectLayout(
    marker: bool, names: Option<seq<string>>, tempRemovable: bool, sidecarLegacy: bool, sound: bool)
      returns (layout: Layout)
    ensures marker <==> layout == ResetIncomplete
    ensures layout == NoState <==> !marker && names.None?
    ensures layout == Encrypted || layout == Malformed <==>
      && !marker && names.Some? && ENVELOPE_FILE in names.value
      && (forall n :: n in names.value ==> n == ENVELOPE_FILE || n == SIDECAR || (n == ENVELOPE_TEMP && tempRemovable))
      && (SIDECAR in names.value ==> !sidecarLegacy)
    ensures layout == Encrypted ==> sound
    ensures layout == Malformed ==> !sound
    ensures layout == TempStuck <==> !marker && names.Some? && ENVELOPE_TEMP in names.value && !tempRemovable
  {
    if marker { return ResetIncomplete; }
    if names.None? { return NoState; }
    var entries := names.value;
    if ENVELOPE_TEMP in entries && !tempRemovable { return TempStuck; }
    var encrypted, legacy, unexpected := false, false, false;
    for i := 0 to |entries|
      invariant encrypted <==> ENVELOPE_FILE in entries[..i]
      invariant legacy <==> exists n :: n in entries[..i] && n in LEGACY
      invariant unexpected <==> exists n :: n in entries[..i] && Unexpected(n)
    {
      var n := entries[i];
      assert entries[..i + 1] == entries[..i] + [n];
      assert n in entries[..i + 1] && (forall m :: m in entries[..i] ==> m in entries[..i + 1]);
      if n == ENVELOPE_FILE { encrypted := true; }
      else if n in LEGACY { legacy := true; }
      else if Unexpected(n) { unexpected := true; }
    }
    assert entries[..|entries|] == entries;
    if SIDECAR in entries && sidecarLegacy { legacy := true; }
    if encrypted && legacy { return Conflict; }
    if legacy { return LegacyState; }
    if !encrypted || unexpected { return Residue; }
    return if sound then Encrypted else Malformed;
  }

  predicate Unexpected(name: string)
  {
    name != ENVELOPE_FILE && name !in LEGACY && name != SIDECAR && name != ENVELOPE_TEMP
  }

  // ------------------------------------------------------------------- classes

  method Attempt() returns (ok: bool)
  {
    ok := *;
  }

  /** The package subtree; the ghost fields are what a crash could leave of its two names. */
  class StateDirectory {
    var main: Option<Content>
    var temp: Option<Content>
    var tempSynced: bool
    ghost var mains: set<Option<Content>>
    ghost var temps: set<Option<Content>>

    ghost function View(): Disk
      reads this
    {
      Disk(main, temp, tempSynced, mains, temps)
    }

    /** Exclusive creation: a leftover temporary makes it fail. */
    method CreateTemp() returns (ok: bool)
      modifies this`temp, this`tempSynced, this`temps
      ensures ok ==> old(temp).None? && View() == Put(old(View()), Torn)
      ensures !ok ==> View() == old(View())
    {
      ok := Attempt();
      if !ok || temp.Some? { return false; }
      temp, tempSynced, temps := Some(Torn), false, temps + {Some(Torn)};
    }

    method WriteTemp(content: Content) returns (ok: bool)
      modifies this`temp, this`tempSynced, this`temps
      ensures ok ==> View() == Put(old(View()), content)
      ensures !ok ==> View() == old(View())
    {
      ok := Attempt();
      if ok { temp, tempSynced, temps := Some(content), false, temps + {Some(content)}; }
    }

    method SyncTemp() returns (ok: bool)
      modifies this`tempSynced
      ensures ok ==> View() == old(View()).(tempSynced := true)
      ensures !ok ==> View() == old(View())
    {
      ok := Attempt();
      if ok { tempSynced := true; }
    }

    method RenameTemp() returns (ok: bool)
      modifies this
      ensures ok ==> View() == Renamed(old(View()))
      ensures !ok ==> View() == old(View())
    {
      ok := Attempt();
      if !ok { return; }
      mains := mains + {temp} + (if tempSynced then {} else {Some(Torn)});
      temps := temps + {None};
      main, temp := temp, None;
    }

    method RemoveTemp() returns (ok: bool)
      modifies this`temp, this`temps
      ensures ok ==> View() == Removed(old(View()))
      ensures !ok ==> View() == old(View())
    {
      ok := Attempt();
      if ok { temp, temps := None, temps + {None}; }
    }

    method Sync() returns (ok: bool)
      modifies this`mains, this`temps
      ensures ok ==> View() == DirectorySynced(old(View()))
      ensures !ok ==> View() == old(View())
    {
      ok := Attempt();
      if ok { mains, temps := {main}, {temp}; }
    }
  }

  datatype WriteResult = Saved | Refused

  class EncryptedStateStore {
    const vault: Vault
    const directory: StateDirectory
    var cache: StateMap
    var closed: bool
    ghost var process: Process

    ghost function View(): Store
      reads this, directory
    {
      Store(directory.View(), process)
    }

    ghost predicate Valid()
      reads this, directory
    {
      && Lawful(vault.cipher) && Inv(vault, View())
      && (if closed then process.Down? || process.Inspected? else process == Process.Open(cache))
    }

    /** A process that has not looked at the subtree yet. */
    constructor (vault: Vault, directory: StateDirectory)
      requires Lawful(vault.cipher) && Inv(vault, Store(directory.View(), Down))
      ensures this.vault == vault && this.directory == directory && Valid() && closed
      ensures View() == Store(directory.View(), Down)
    {
      this.vault, this.directory, cache, closed, process := vault, directory, map[], true, Down;
    }

    /** The store's part of layout inspection: the leftover temporary, then the keyless check of the envelope. */
    method Inspect() returns (ok: bool, ghost e: Event)
      requires Valid() && process.Down? && closed
      modifies this`process, directory
      ensures Valid() && closed && View() == Step(vault, old(View()), e)
      ensures e.Inspect? && (ok <==> process.Inspected?)
    {
      ghost var before := View();
      StepKeepsInv(vault, before, Event.Inspect(true, true));
      StepKeepsInv(vault, before, Event.Inspect(true, false));
      hide Read;
      e := Event.Inspect(true, true);
      if directory.temp.Some? {
        var removed := directory.RemoveTemp();
        if !removed { return false, Event.Inspect(false, false); }
        var synced := directory.Sync();
        if !synced { return false, Event.Inspect(true, false); }
      }
      ok := directory.main.Some? && Sound(directory.main.value);
      process := if ok then Inspected else Down;
    }

    /** openEncryptedStateStore: the envelope must authenticate and parse. */
    method Open() returns (ok: bool)
      requires Valid() && process.Inspected? && closed
      modifies this
      ensures Valid() && View() == Step(vault, old(View()), OpenStore)
      ensures ok && !closed && Read(vault, directory.main) == Some(cache)
    {
      ghost var before := View();
      StepKeepsInv(vault, before, OpenStore);
      hide Read;
      var state := Read(vault, directory.main);
      assert state.Some?;
      cache, closed, process, ok := state.value, false, Process.Open(state.value), true;
    }

    /** The ghost side of a step: the directory has moved already, and the process follows. */
    ghost method Follow(s: Store, es: seq<Event>, before: Store, e: Event) returns (es': seq<Event>)
      requires before == After(vault, s, es) && Inv(vault, before) && Enabled(vault, before, e)
      requires directory.View() == Next(vault, before, e).disk
      modifies this`process
      ensures View() == Next(vault, before, e) && View() == After(vault, s, es') && Inv(vault, View())
    {
      AfterOne(vault, s, es, e);
      StepKeepsInv(vault, before, e);
      hide Inv, Next, Enabled, After;
      process := Next(vault, before, e).process;
      es' := es + [e];
    }

    /** In the middle of a write that began at `s`. */
    ghost predicate During(s: Store, es: seq<Event>)
      reads this, directory
    {
      && Lawful(vault.cipher) && View() == After(vault, s, es) && Inv(vault, View()) && process.Writing?
      && (if closed then process.prior.None? else process.prior == Some(cache))
    }

    /** Everything between the creation of the temporary and the rename. */
    method PrepareTemp(content: Content, ghost s: Store, ghost es: seq<Event>)
        returns (created: bool, ready: bool, ghost es': seq<Event>)
      requires During(s, es) && process.stage == Begun && process.content == content
      modifies this`process, directory
      ensures During(s, es') && process == old(process).(stage := process.stage) && process.stage != Committed
      ensures directory.main == old(directory.main) && (created <==> process.stage != Begun)
      ensures ready ==> process.stage == Synced
    {
      hide Inv, After, Read, Lawful;
      var rooted := Attempt();
      var found := Attempt();
      ghost var before := View();
      if !rooted || !found { return false, false, es; }
      created := directory.CreateTemp();
      if !created { return false, false, es; }
      es' := Follow(s, es, before, CreateTemp);
      var secured := Attempt();
      if !secured { return true, false, es'; }
      before := View();
      var wrote := directory.WriteTemp(content);
      if !wrote { return true, false, es'; }
      es' := Follow(s, es', before, WriteTemp);
      before := View();
      var synced := directory.SyncTemp();
      if !synced { return true, false, es'; }
      es' := Follow(s, es', before, SyncTemp);
      var shut := Attempt();
      rooted := Attempt();
      found := Attempt();
      ready := shut && rooted && found;
    }

    /** The deferred cleanup of the temporary, on every path before the rename and on none after it. */
    method GiveUp(created: bool, ghost s: Store, ghost es: seq<Event>) returns (ghost es': seq<Event>)
      requires During(s, es) && process.stage != Committed && (created <==> process.stage != Begun)
      modifies this`process, directory
      ensures Valid() && View() == After(vault, s, es') && directory.main == old(directory.main)
    {
      hide Inv, After, Read, Lawful;
      ghost var before := View();
      var removed := false;
      if created {
        removed := directory.RemoveTemp();
      }
      es' := Follow(s, es, before, Fail(removed));
    }

    /** persistEnvelopeLocked: the rename is the commit, and whatever fails after it is only reported. */
    method Persist(content: Content, candidate: StateMap, ghost s: Store, ghost es: seq<Event>)
        returns (r: WriteResult, ghost es': seq<Event>)
      requires During(s, es) && process == Writing(process.prior, candidate, content, Begun)
      modifies this, directory
      ensures Valid() && View() == After(vault, s, es')
      ensures r == Saved ==> !closed && cache == candidate && directory.main == Some(content)
      ensures r == Refused ==>
        closed == old(closed) && cache == old(cache) && directory.main == old(directory.main)
    {
      hide After, Read, Lawful;
      var created, ready;
      created, ready, es' := PrepareTemp(content, s, es);
      if ready {
        ghost var before := View();
        var renamed := directory.RenameTemp();
        if renamed {
          es' := Follow(s, es', before, Rename);
          cache, closed := candidate, false;
          before := View();
          var synced := directory.Sync();
          es' := Follow(s, es', before, SyncDirectory(synced));
          return Saved, es';
        }
      }
      es' := GiveUp(created, s, es');
      return Refused, es';
    }

    /** createEncryptedStateStore on a subtree without an envelope: its first commit is the empty map. */
    method Create(nonce: seq<byte>) returns (r: WriteResult, ghost es: seq<Event>)
      requires Valid() && closed && process.Down? && |nonce| == NONCE_SIZE
      modifies this, directory
      ensures Valid() && View() == After(vault, old(View()), es)
      ensures r == Saved ==> !closed && cache == map[] && old(directory.main).None?
      ensures r == Refused ==> closed && directory.main == old(directory.main)
    {
      ghost var s := View();
      assert After(vault, s, []) == s;
      es := [];
      if directory.main.Some? || |vault.cipher.marshal(map[])| > MAX_PLAINTEXT { return Refused, es; }
      var drawn := Attempt();
      if !drawn { return Refused, es; }
      var content := Sealed(vault, nonce, map[]);
      SealedReadsBack(vault, nonce, map[]);
      hide After, Read, Lawful, Sealed;
      es := Follow(s, es, s, BeginCreate(content));
      r, es := Persist(content, map[], s, es);
    }

    /** The map a write asks for; None deletes, an empty value is kept. */
    function Updated(id: string, value: Option<seq<byte>>): (r: StateMap)
      reads this
    {
      if value.None? then cache - {id} else cache[id := value.value]
    }

    /**
     WriteState. An error leaves cache and file as they were and success leaves
     both new. All of it is a stretch of a run, so a crash at any moment of it
     falls under AtomicIff.
     */
    method WriteState(id: string, validKey: bool, value: Option<seq<byte>>, nonce: seq<byte>)
        returns (r: WriteResult, ghost es: seq<Event>)
      requires Valid() && |nonce| == NONCE_SIZE
      modifies this, directory
      ensures Valid() && closed == old(closed) && View() == After(vault, old(View()), es)
      ensures r == Refused ==> cache == old(cache) && directory.main == old(directory.main)
      ensures r == Saved ==>
        && !closed && validKey && cache == old(Updated(id, value))
        && Read(vault, directory.main) == Some(old(Updated(id, value)))
      ensures r == Saved && cache != old(cache) ==> |vault.cipher.marshal(cache)| <= MAX_PLAINTEXT
    {
      ghost var s := View();
      assert After(vault, s, []) == s;
      es := [];
      if !validKey || (value.Some? && |value.value| > MAX_PLAINTEXT) || closed { return Refused, es; }
      var rooted := Attempt();
      if !rooted { return Refused, es; }
      var candidate := Updated(id, value);
      if (value.None? && id !in cache) || (value.Some? && id in cache && cache[id] == value.value) {
        assert candidate == cache;
        return Saved, es;
      }
      if |vault.cipher.marshal(candidate)| > MAX_PLAINTEXT { return Refused, es; }
      var drawn := Attempt();
      if !drawn { return Refused, es; }
      var content := Sealed(vault, nonce, candidate);
      SealedReadsBack(vault, nonce, candidate);
      hide After, Read, Lawful, Sealed;
      es := Follow(s, es, s, BeginWrite(candidate, content));
      r, es := Persist(content, candidate, s, es);
    }

    /** Close wipes the cache and the key; the file stays. */
    method Close()
      requires Valid()
      modifies this`cache, this`closed, this`process
      ensures Valid() && closed && directory.View() == old(directory.View())
      ensures !old(closed) ==> View() == Step(vault, old(View()), CloseStore)
    {
      if !closed { process := Down; }
      cache, closed := map[], true;
    }
  }
}
