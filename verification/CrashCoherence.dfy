/**
 Key custody, the encrypted envelope and the reset marker across crashes. The
 disk has a visible state and the set of states a crash may still leave; an
 fsync narrows that set and a crash picks from it. Every step of provisioning,
 opening, abandonment and reset is an event, and a crash may fall between any
 two of them.
 */
module CrashCoherence {
  import opened Basics

  /** The package subtree: absent, or present with the key its envelope is sealed under. */
  datatype Tree = Absent | Directory(envelope: Option<nat>)

  datatype Disk = Disk(marker: bool, markerMaybe: set<bool>, tree: Tree, treeMaybe: set<Tree>)

  /** What the one process that holds the lease is doing. */
  datatype Process =
    | Idle
    | Inspected(encrypted: bool)
    | Chosen
    | Marked
    | KeyHeld(key: nat)
    | Made(key: nat)
    | Secured(key: nat)
    | Unsettled
    | Running(key: nat)
    | Opening
    | Failed
    | Starting
    | Placed
    | Durable
    | KeyDeleted
    | Removed
    | Synced
    | Unlinked
    | Restored

  /** `keybay` is the installation's key entry; `nextKey` is the next key never used before. */
  datatype World = World(disk: Disk, keybay: Option<nat>, nextKey: nat, process: Process)

  datatype Event =
    | Inspect
    | Resolve
    | MarkWrite
    | WriteKey(landed: bool, confirmed: bool)
    | MakeDirectory
    | SyncParent
    | RenameEnvelope
    | SyncDirectory
    | FailWrite(removed: bool, synced: bool)
    | Abandon
    | Compensate(landed: bool, confirmed: bool)
    | OpenStore
    | CloseStore
    | BeginReset
    | PlaceMarker
    | SyncMarker(ok: bool)
    | DeleteKey(landed: bool, confirmed: bool)
    | RemoveEnvelope
    | RemoveDirectory
    | SyncRemoval(ok: bool)
    | UnlinkMarker
    | SyncUnlink(ok: bool)
    | RestoreMarker
    | SyncRestored(ok: bool)
    | StopReset
    | Crash(marker: bool, tree: Tree)

  // -------------------------------------------------------------------- disk

  function SetMarker(d: Disk, marker: bool): (r: Disk)
  {
    d.(marker := marker, markerMaybe := d.markerMaybe + {marker})
  }

  function SetTree(d: Disk, tree: Tree): (r: Disk)
  {
    d.(tree := tree, treeMaybe := d.treeMaybe + {tree})
  }

  /** fsync of the state root: its own entries are final, the inside of the subtree is not. */
  function SyncRoot(d: Disk): (r: Disk)
  {
    d.(markerMaybe := {d.marker},
       treeMaybe := if d.tree == Absent then {Absent} else set t | t in d.treeMaybe && t != Absent)
  }

  /** fsync of the subtree: its content is final, its entry in the root is not. */
  function SyncInside(d: Disk): (r: Disk)
  {
    d.(treeMaybe := set t | t in d.treeMaybe && (t == Absent || t == d.tree))
  }

  // ------------------------------------------------------------------ events

  predicate InReset(p: Process)
  {
    p.Starting? || p.Placed? || p.Durable? || p.KeyDeleted? || p.Removed? || p.Synced? || p.Unlinked? || p.Restored?
  }

  /** The key write was marked and the envelope was not renamed. */
  predicate KeyMayExist(p: Process)
  {
    p == Marked || p.KeyHeld? || p.Made? || p.Secured?
  }

  predicate Enabled(w: World, e: Event)
  {
    var p := w.process;
    match e
    case Inspect => p == Idle
    case Resolve => p.Inspected?
    case MarkWrite => p == Chosen
    case WriteKey(landed, confirmed) => p == Marked && (confirmed ==> landed)
    case MakeDirectory => p.KeyHeld?
    case SyncParent => p.Made?
    case RenameEnvelope => p.Secured?
    case SyncDirectory => p.Running?
    case FailWrite(removed, synced) => (p.KeyHeld? || p.Made? || p.Secured?) && (synced ==> removed)
    case Abandon => p.Inspected? || p == Opening || p == Chosen || p.Running? || KeyMayExist(p)
    case Compensate(landed, confirmed) => p == Unsettled && (confirmed ==> landed)
    case OpenStore => p == Opening
    case CloseStore => p.Running?
    case BeginReset => p == Idle || p.Running?
    case PlaceMarker => p == Starting
    case SyncMarker(_) => p == Placed
    case DeleteKey(landed, confirmed) => p == Durable && (confirmed ==> landed)
    case RemoveEnvelope => p == KeyDeleted && w.disk.tree.Directory?
    case RemoveDirectory => p == KeyDeleted && (w.disk.tree == Absent || w.disk.tree == Directory(None))
    case SyncRemoval(_) => p == Removed
    case UnlinkMarker => p == Synced
    case SyncUnlink(_) => p == Unlinked
    case RestoreMarker => p == Unlinked
    case SyncRestored(_) => p == Restored
    case StopReset => InReset(p)
    case Crash(marker, tree) => marker in w.disk.markerMaybe && tree in w.disk.treeMaybe
  }

  function At(w: World, process: Process): (r: World)
  {
    w.(process := process)
  }

  /** inspectPersistentStateLayout, keyless: a marker or a subtree without its envelope is refused. */
  function NextInspect(w: World): (r: World)
  {
    if w.disk.marker then At(w, Idle)
    else if w.disk.tree == Absent then At(w, Inspected(false))
    else if w.disk.tree.envelope.Some? then At(w, Inspected(true))
    else At(w, Idle)
  }

  /** ResolvePersistentCustody: the missing and the orphaned row are terminal. */
  function NextResolve(w: World): (r: World)
    requires w.process.Inspected?
  {
    if w.process.encrypted == w.keybay.None? then At(w, Idle)
    else if w.process.encrypted then At(w, Opening)
    else At(w, Chosen)
  }

  /** An abandonment that finds the rename done keeps the pair; otherwise a marked key write is compensated. */
  function NextAbandon(w: World): (r: World)
  {
    if KeyMayExist(w.process) then At(w, Unsettled) else At(w, Idle)
  }

  function Next(w: World, e: Event): (r: World)
    requires Enabled(w, e)
  {
    var d := w.disk;
    match e
    case Inspect => NextInspect(w)
    case Resolve => NextResolve(w)
    case MarkWrite => At(w, Marked)
    case WriteKey(landed, confirmed) =>
      World(d, if landed then Some(w.nextKey) else w.keybay, w.nextKey + 1,
            if confirmed then KeyHeld(w.nextKey) else Unsettled)
    case MakeDirectory => World(SetTree(d, Directory(None)), w.keybay, w.nextKey, Made(w.process.key))
    case SyncParent => World(SyncRoot(d), w.keybay, w.nextKey, Secured(w.process.key))
    case RenameEnvelope =>
      World(SetTree(d, Directory(Some(w.process.key))), w.keybay, w.nextKey, Running(w.process.key))
    case SyncDirectory => w.(disk := SyncInside(d))
    case FailWrite(removed, synced) =>
      var cleaned := if removed then SetTree(d, Absent) else d;
      World(if synced then SyncRoot(cleaned) else cleaned, w.keybay, w.nextKey, Unsettled)
    case Abandon => NextAbandon(w)
    case Compensate(landed, confirmed) =>
      World(d, if landed then None else w.keybay, w.nextKey, if confirmed then Idle else Failed)
    case OpenStore =>
      if d.tree == Directory(w.keybay) && w.keybay.Some? then At(w, Running(w.keybay.value)) else At(w, Idle)
    case CloseStore => At(w, Idle)
    case BeginReset => At(w, Starting)
    case PlaceMarker => World(SetMarker(d, true), w.keybay, w.nextKey, Placed)
    case SyncMarker(ok) => if ok then World(SyncRoot(d), w.keybay, w.nextKey, Durable) else At(w, Idle)
    case DeleteKey(landed, confirmed) =>
      World(d, if landed then None else w.keybay, w.nextKey, if confirmed then KeyDeleted else Idle)
    case RemoveEnvelope => w.(disk := SetTree(d, Directory(None)))
    case RemoveDirectory => World(SetTree(d, Absent), w.keybay, w.nextKey, Removed)
    case SyncRemoval(ok) => if ok then World(SyncRoot(d), w.keybay, w.nextKey, Synced) else At(w, Idle)
    case UnlinkMarker => World(SetMarker(d, false), w.keybay, w.nextKey, Unlinked)
    case SyncUnlink(ok) => if ok then World(SyncRoot(d), w.keybay, w.nextKey, Idle) else w
    case RestoreMarker => World(SetMarker(d, true), w.keybay, w.nextKey, Restored)
    case SyncRestored(ok) => World(if ok then SyncRoot(d) else d, w.keybay, w.nextKey, Idle)
    case StopReset => At(w, Idle)
    case Crash(marker, tree) => World(Disk(marker, {marker}, tree, {tree}), w.keybay, w.nextKey, Idle)
  }

  function Step(w: World, e: Event): (r: World)
  {
    if Enabled(w, e) then Next(w, e) else w
  }

  function After(w: World, es: seq<Event>): (r: World)
  {
    if es == [] then w else Step(After(w, es[..|es| - 1]), es[|es| - 1])
  }

  /** A clean root: no marker, no subtree, no key. */
  const CLEAN := World(Disk(false, {false}, Absent, {Absent}), None, 0, Idle)

  // --------------------------------------------------------------- invariant

  /** Without a marker, an envelope's own key is in custody. */
  predicate Coherent(marker: bool, tree: Tree, keybay: Option<nat>)
  {
    !marker && tree.Directory? && tree.envelope.Some? ==> keybay == tree.envelope
  }

  predicate NoEnvelope(trees: set<Tree>)
  {
    forall t :: t in trees ==> t == Absent || t == Directory(None)
  }

  /** Every state a crash may leave is coherent. */
  predicate DiskOk(d: Disk, keybay: Option<nat>)
  {
    && d.marker in d.markerMaybe && d.tree in d.treeMaybe
    && (false in d.markerMaybe ==> forall t :: t in d.treeMaybe ==> Coherent(false, t, keybay))
    && (!d.marker && (d.tree == Absent || d.tree == Directory(None)) ==> NoEnvelope(d.treeMaybe))
  }

  predicate ProcessOk(w: World)
  {
    var d := w.disk;
    match w.process
    case Idle => true
    case Failed => true
    case Starting => true
    case Inspected(encrypted) =>
      !d.marker && (if encrypted then d.tree.Directory? && d.tree.envelope.Some? else d.tree == Absent)
    case Chosen => !d.marker && d.tree == Absent && w.keybay == None
    case Marked => !d.marker && d.tree == Absent
    case KeyHeld(key) => !d.marker && d.tree == Absent && w.keybay == Some(key)
    case Made(key) => !d.marker && d.tree == Directory(None) && w.keybay == Some(key)
    case Secured(key) => !d.marker && d.tree == Directory(None) && w.keybay == Some(key)
    case Unsettled => !d.marker && (d.tree == Absent || d.tree == Directory(None))
    case Opening => !d.marker && d.tree.Directory?
    case Running(key) => !d.marker && d.tree == Directory(Some(key)) && w.keybay == Some(key)
    case Placed => d.marker
    case Durable => d.marker && d.markerMaybe == {true}
    case KeyDeleted => d.marker && d.markerMaybe == {true} && w.keybay == None
    case Removed => d.marker && d.markerMaybe == {true} && w.keybay == None && d.tree == Absent
    case Synced =>
      d.marker && d.markerMaybe == {true} && d.tree == Absent && d.treeMaybe == {Absent} && w.keybay == None
    case Unlinked => !d.marker && d.tree == Absent && d.treeMaybe == {Absent} && w.keybay == None
    case Restored => d.marker && d.tree == Absent && d.treeMaybe == {Absent}
  }

  predicate Inv(w: World)
  {
    DiskOk(w.disk, w.keybay) && ProcessOk(w)
  }

  lemma StepKeepsDisk(w: World, e: Event)
    requires Inv(w)
    ensures DiskOk(Step(w, e).disk, Step(w, e).keybay)
  {
  }

  lemma StepKeepsProcess(w: World, e: Event)
    requires Inv(w)
    ensures ProcessOk(Step(w, e))
  {
    hide DiskOk;
  }

  lemma {:induction false} RunKeepsInv(w: World, es: seq<Event>)
    requires Inv(w)
    ensures Inv(After(w, es))
    decreases |es|
  {
    hide DiskOk, ProcessOk, Step;
    if es != [] {
      RunKeepsInv(w, es[..|es| - 1]);
      StepKeepsDisk(After(w, es[..|es| - 1]), es[|es| - 1]);
      StepKeepsProcess(After(w, es[..|es| - 1]), es[|es| - 1]);
    }
  }

  /**
   From a clean root, over every run with crashes anywhere: while no marker is
   visible an envelope implies that its own key is in custody, and the same
   holds of every state in which a crash at this moment could leave the disk.
   */
  lemma EnvelopeImpliesKey(es: seq<Event>)
    ensures var w := After(CLEAN, es);
            && Coherent(w.disk.marker, w.disk.tree, w.keybay)
            && forall m, t :: m in w.disk.markerMaybe && t in w.disk.treeMaybe ==> Coherent(m, t, w.keybay)
  {
    RunKeepsInv(CLEAN, es);
  }

  /** Fresh provisioning is chosen only when marker, subtree and key are all absent, also after a crash. */
  lemma ProvisionOnlyWhenClean(es: seq<Event>)
    requires var w := After(CLEAN, es); w.process == Chosen
    ensures var w := After(CLEAN, es);
            !w.disk.marker && w.disk.tree == Absent && w.keybay == None && NoEnvelope(w.disk.treeMaybe)
  {
    RunKeepsInv(CLEAN, es);
  }

  /** Every envelope that inspection lets through opens under the key in custody. */
  lemma InspectedEnvelopeOpens(es: seq<Event>)
    requires var w := After(CLEAN, es); w.process == Inspected(true)
    ensures var w := After(CLEAN, es);
            && w.keybay.Some? && Step(Step(w, Resolve), OpenStore).process == Running(w.keybay.value)
  {
    RunKeepsInv(CLEAN, es);
  }

  /** A reset that completes leaves a clean root, durably, wherever it started from. */
  lemma ResetEndsClean(es: seq<Event>)
    requires After(CLEAN, es).process == Unlinked
    ensures var w := Step(After(CLEAN, es), SyncUnlink(true));
            w.disk == CLEAN.disk && w.keybay == None && w.process == Idle
  {
    RunKeepsInv(CLEAN, es);
  }

  // ---------------------------------------------------------- both directions

  /** No crash, and every compensation confirmed. */
  predicate Calm(e: Event)
  {
    !e.Crash? && (e.Compensate? ==> e.confirmed)
  }

  /** Key and envelope are there together or not at all. */
  predicate Paired(w: World)
  {
    w.keybay.Some? <==> w.disk.tree.Directory? && w.disk.tree.envelope.Some?
  }

  predicate PairedOk(w: World)
  {
    match w.process
    case Idle => !w.disk.marker ==> Paired(w)
    case Inspected(_) => Paired(w)
    case Opening => Paired(w)
    case Starting => !w.disk.marker ==> Paired(w)
    case Marked => w.keybay == None
    case Failed => false
    case _ => true
  }

  lemma CalmStepKeepsPaired(w: World, e: Event)
    requires Inv(w) && PairedOk(w) && Calm(e)
    ensures PairedOk(Step(w, e))
  {
    hide DiskOk;
  }

  /**
   Without crashes and with every compensation confirmed, key and envelope are
   present together or not at all whenever no preparation or reset is under way
   and no marker says otherwise.
   */
  lemma {:induction false} CalmRunsStayPaired(es: seq<Event>)
    requires forall i :: 0 <= i < |es| ==> Calm(es[i])
    ensures PairedOk(After(CLEAN, es))
    ensures var w := After(CLEAN, es); w.process == Idle && !w.disk.marker ==> Paired(w)
    decreases |es|
  {
    if es != [] {
      CalmRunsStayPaired(es[..|es| - 1]);
      RunKeepsInv(CLEAN, es[..|es| - 1]);
      CalmStepKeepsPaired(After(CLEAN, es[..|es| - 1]), es[|es| - 1]);
    }
  }

  lemma AfterOne(w: World, es: seq<Event>, e: Event)
    ensures After(w, es + [e]) == Step(After(w, es), e)
  {
    assert (es + [e])[..|es|] == es;
  }

  lemma KeyWritten() returns (es: seq<Event>)
    ensures After(CLEAN, es) == CLEAN.(keybay := Some(0), nextKey := 1, process := KeyHeld(0))
  {
    es := [];
    assert After(CLEAN, es) == CLEAN;
    hide After;
    AfterOne(CLEAN, es, Inspect);
    es := es + [Inspect];
    AfterOne(CLEAN, es, Resolve);
    es := es + [Resolve];
    AfterOne(CLEAN, es, MarkWrite);
    es := es + [MarkWrite];
    AfterOne(CLEAN, es, WriteKey(true, true));
    es := es + [WriteKey(true, true)];
  }

  /**
   A crash between the key write and the rename leaves an orphaned key, and
   then both rows of the matrix refuse: nothing but a reset gets past it.
   */
  lemma OrphanedKeyIsRefused() returns (es: seq<Event>)
    ensures var w := After(CLEAN, es);
            && w.process == Idle && w.disk.tree == Absent && w.keybay == Some(0)
            && Step(Step(w, Inspect), Resolve) == w
  {
    es := KeyWritten();
    hide After;
    AfterOne(CLEAN, es, Crash(false, Absent));
    es := es + [Crash(false, Absent)];
  }

  lemma Provisioned() returns (es: seq<Event>)
    ensures var w := After(CLEAN, es);
            && w.process == Running(0) && w.keybay == Some(0) && w.disk.tree == Directory(Some(0))
            && !w.disk.marker && w.disk.markerMaybe == {false}
  {
    es := KeyWritten();
    hide After;
    AfterOne(CLEAN, es, MakeDirectory);
    es := es + [MakeDirectory];
    AfterOne(CLEAN, es, SyncParent);
    es := es + [SyncParent];
    AfterOne(CLEAN, es, RenameEnvelope);
    es := es + [RenameEnvelope];
  }

  /** What a crash leaves if the key is deleted right here. */
  function CrashAfterDeletion(w: World, marker: bool, tree: Tree): (r: World)
  {
    Step(w.(keybay := None), Crash(marker, tree))
  }

  /**
   Why the key goes only after the marker is durable. In this run the marker is
   visible but not synced, and deleting the key already lets a crash leave an
   envelope with neither marker nor key, which both rows of the matrix refuse.
   */
  lemma VisibleMarkerIsNotEnough() returns (es: seq<Event>)
    ensures var w := After(CLEAN, es);
            && w.process == Placed && w.disk.marker
            && var r := CrashAfterDeletion(w, false, Directory(Some(0)));
               && r.process == Idle && !r.disk.marker && r.disk.tree == Directory(Some(0)) && r.keybay == None
               && Step(Step(r, Inspect), Resolve) == r
  {
    es := Provisioned();
    assert After(CLEAN, es).disk.tree in After(CLEAN, es).disk.treeMaybe by { RunKeepsInv(CLEAN, es); }
    hide After;
    AfterOne(CLEAN, es, BeginReset);
    es := es + [BeginReset];
    AfterOne(CLEAN, es, PlaceMarker);
    es := es + [PlaceMarker];
  }

  /** Once the marker of any run is synced, no crash after the deletion leaves an envelope without it. */
  lemma DurableMarkerIsEnough(es: seq<Event>, marker: bool, tree: Tree)
    requires After(CLEAN, es).process == Placed
    ensures var r := CrashAfterDeletion(Step(After(CLEAN, es), SyncMarker(true)), marker, tree);
            Coherent(r.disk.marker, r.disk.tree, r.keybay)
  {
    assert After(CLEAN, es).disk.marker by { RunKeepsInv(CLEAN, es); hide After; }
    hide After;
  }
}
