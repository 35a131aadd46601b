/**
 Removal of the package subtree by an explicit local reset: recursive, in
 batches of directory entries, bounded in depth, never leaving the device of
 the state root, and never following a link. System calls may fail anywhere.
 */
module ResetTree {
  import opened Basics

  const MAXIMUM_DEPTH: nat := 256
  const BATCH: nat := 128

  const MARKER := ".tailscale-state.reset"
  const MARKER_TEMP := ".tailscale-state.reset.tmp"
  const SUBTREE := "tailscale"
  const PAYLOAD := "{\"format\":\"tailscale-dart-state-reset\",\"version\":1}\n"

  datatype Node = File(content: string) | Link(target: string) | Special | Directory(device: nat, children: seq<Entry>)

  datatype Entry = Entry(name: string, node: Node)

  /** A system call that may fail for reasons of its own, unless faults are excluded. */
  method Syscall(faulty: bool) returns (ok: bool)
    ensures !faulty ==> ok
  {
    ok := *;
    if !faulty { ok := true; }
  }

  /** Every directory of the tree is on one device. */
  predicate OneDevice(node: Node, device: nat)
  {
    node.Directory? ==>
      node.device == device && forall i :: 0 <= i < |node.children| ==> OneDevice(node.children[i].node, device)
  }

  predicate ProperName(name: string)
  {
    name != "." && name != ".."
  }

  /** The listing is within the depth bound and on one device. */
  predicate Removable(entries: seq<Entry>, device: nat, depth: nat)
    decreases MAXIMUM_DEPTH - depth
  {
    && depth < MAXIMUM_DEPTH
    && forall i :: 0 <= i < |entries| ==> EntryRemovable(entries[i], device, depth)
  }

  predicate EntryRemovable(e: Entry, device: nat, depth: nat)
    requires depth < MAXIMUM_DEPTH
    decreases MAXIMUM_DEPTH - depth, 0
  {
    && ProperName(e.name)
    && (e.node.Directory? ==> e.node.device == device && Removable(e.node.children, device, depth + 1))
  }

  /**
   What an interrupted removal may leave: a tail of the listing whose first
   directory may itself be partly removed. Only leaves and whole one-device
   trees are gone.
   */
  predicate Remnant(before: seq<Entry>, after: seq<Entry>, device: nat)
    decreases before
  {
    || after == before
    || (before != [] && OneDevice(before[0].node, device) && Remnant(before[1..], after, device))
    || (&& before != [] && after != [] && before[0].node.Directory? && before[0].node.device == device
        && after[0].name == before[0].name && after[1..] == before[1..]
        && after[0].node.Directory? && after[0].node.device == device
        && Remnant(before[0].node.children, after[0].node.children, device))
  }

  lemma {:induction false} RemnantBehind(before: seq<Entry>, i: nat, after: seq<Entry>, device: nat)
    requires i <= |before| && (forall j :: 0 <= j < i ==> OneDevice(before[j].node, device))
    requires Remnant(before[i..], after, device)
    ensures Remnant(before, after, device)
    decreases i
  {
    if i == 0 {
      assert before[0..] == before;
    } else {
      assert before[1..][i - 1..] == before[i..];
      RemnantBehind(before[1..], i - 1, after, device);
    }
  }

  lemma {:induction false} RemovableIsOneDevice(entries: seq<Entry>, device: nat, depth: nat)
    requires Removable(entries, device, depth)
    ensures forall i :: 0 <= i < |entries| ==> OneDevice(entries[i].node, device)
    decreases MAXIMUM_DEPTH - depth
  {
    forall i | 0 <= i < |entries| ensures OneDevice(entries[i].node, device) {
      assert EntryRemovable(entries[i], device, depth);
      if entries[i].node.Directory? {
        RemovableIsOneDevice(entries[i].node.children, device, depth + 1);
      }
    }
  }

  /** A listing with one partly removed directory in front. */
  lemma PartlyRemoved(before: seq<Entry>, i: nat, left: seq<Entry>, device: nat)
    requires i < |before| && before[i].node.Directory? && before[i].node.device == device
    requires forall j :: 0 <= j < i ==> OneDevice(before[j].node, device)
    requires Remnant(before[i].node.children, left, device)
    ensures Remnant(before, [Entry(before[i].name, Directory(device, left))] + before[i + 1..], device)
  {
    var after := [Entry(before[i].name, Directory(device, left))] + before[i + 1..];
    var tail := before[i..];
    assert tail[0] == before[i] && tail[1..] == before[i + 1..] && after[1..] == before[i + 1..];
    assert Remnant(tail, after, device);
    RemnantBehind(before, i, after, device);
  }

  lemma Untouched(before: seq<Entry>, i: nat, device: nat)
    requires i <= |before| && forall j :: 0 <= j < i ==> OneDevice(before[j].node, device)
    ensures Remnant(before, before[i..], device)
  {
    RemnantBehind(before, i, before[i..], device);
  }

  /**
   One entry of a listing: leaves and links are unlinked, a directory of the
   root's own device is emptied and then removed.
   */
  method RemoveEntry(e: Entry, device: nat, depth: nat, faulty: bool) returns (ok: bool, left: Option<Node>)
    requires depth < MAXIMUM_DEPTH
    ensures ok <==> left.None?
    ensures ok ==> EntryRemovable(e, device, depth)
    ensures !faulty && EntryRemovable(e, device, depth) ==> ok
    ensures left.Some? && left.value != e.node ==>
      && e.node.Directory? && e.node.device == device && left.value.Directory? && left.value.device == device
      && Remnant(e.node.children, left.value.children, device)
    decreases MAXIMUM_DEPTH - depth, 0
  {
    if !ProperName(e.name) { return false, Some(e.node); }
    var statted := Syscall(faulty);
    if !statted { return false, Some(e.node); }
    if !e.node.Directory? {
      var unlinked := Syscall(faulty);
      return unlinked, if unlinked then None else Some(e.node);
    }
    var entered := Syscall(faulty);
    if !entered || e.node.device != device { return false, Some(e.node); }
    var emptied, rest := RemoveContents(e.node.children, device, depth + 1, faulty);
    var emptiedNode := Directory(device, rest);
    if !emptied { return false, Some(emptiedNode); }
    var removed := Syscall(faulty);
    return removed, if removed then None else Some(emptiedNode);
  }

  /** removeDirectoryContents */
  method RemoveContents(entries: seq<Entry>, device: nat, depth: nat, faulty: bool) returns (ok: bool, left: seq<Entry>)
    requires depth <= MAXIMUM_DEPTH
    ensures ok ==> left == []
    ensures Remnant(entries, left, device)
    ensures ok ==> Removable(entries, device, depth)
    ensures !faulty && Removable(entries, device, depth) ==> ok
    decreases MAXIMUM_DEPTH - depth, 1
  {
    if depth >= MAXIMUM_DEPTH { return false, entries; }
    var i := 0;
    while true
      invariant 0 <= i <= |entries|
      invariant forall j :: 0 <= j < i ==> EntryRemovable(entries[j], device, depth)
      invariant Removable(entries[..i], device, depth)
      decreases |entries| - i
    {
      Prefix(entries, i, device, depth);
      var listed := Syscall(faulty);
      if !listed { return false, entries[i..]; }
      var end := if i + BATCH < |entries| then i + BATCH else |entries|;
      if end == i { break; }
      while i < end
        invariant 0 <= i <= end <= |entries|
        invariant forall j :: 0 <= j < i ==> EntryRemovable(entries[j], device, depth)
      {
        var removed, rest := RemoveEntry(entries[i], device, depth, faulty);
        if !removed {
          Prefix(entries, i, device, depth);
          if rest.value == entries[i].node {
            return false, entries[i..];
          }
          PartlyRemoved(entries, i, rest.value.children, device);
          return false, [Entry(entries[i].name, rest.value)] + entries[i + 1..];
        }
        i := i + 1;
      }
    }
    assert entries[..i] == entries;
    var synced := Syscall(faulty);
    return synced, [];
  }

  lemma Prefix(entries: seq<Entry>, i: nat, device: nat, depth: nat)
    requires i <= |entries| && depth < MAXIMUM_DEPTH
    requires forall j :: 0 <= j < i ==> EntryRemovable(entries[j], device, depth)
    ensures Removable(entries[..i], device, depth) && Remnant(entries, entries[i..], device)
    ensures forall j :: 0 <= j < i ==> OneDevice(entries[j].node, device)
  {
    assert forall j :: 0 <= j < i ==> entries[..i][j] == entries[j];
    RemovableIsOneDevice(entries[..i], device, depth);
    assert forall j :: 0 <= j < i ==> OneDevice(entries[..i][j].node, device);
    Untouched(entries, i, device);
  }

  /** A node occurs somewhere below a listing. */
  predicate Below(entries: seq<Entry>, n: Node)
  {
    exists i :: 0 <= i < |entries| && AtOrBelow(entries[i].node, n)
  }

  predicate AtOrBelow(root: Node, n: Node)
  {
    root == n || (root.Directory? && Below(root.children, n))
  }

  lemma {:induction false} ForeignIsElsewhere(root: Node, foreign: Node, device: nat)
    requires OneDevice(root, device) && foreign.Directory? && foreign.device != device
    ensures !AtOrBelow(root, foreign)
  {
    if root.Directory? {
      forall i | 0 <= i < |root.children| ensures !AtOrBelow(root.children[i].node, foreign) {
        ForeignIsElsewhere(root.children[i].node, foreign, device);
      }
    }
  }

  /** However a removal ends, a directory on another device is still there with everything in it. */
  lemma {:induction false} ForeignSurvives(before: seq<Entry>, after: seq<Entry>, foreign: Node, device: nat)
    requires Remnant(before, after, device) && foreign.Directory? && foreign.device != device
    ensures Below(before, foreign) ==> Below(after, foreign)
    decreases before
  {
    if after != before && Below(before, foreign) {
      var i :| 0 <= i < |before| && AtOrBelow(before[i].node, foreign);
      if OneDevice(before[0].node, device) && Remnant(before[1..], after, device) {
        ForeignIsElsewhere(before[0].node, foreign, device);
        assert before[1..][i - 1] == before[i];
        ForeignSurvives(before[1..], after, foreign, device);
      } else if i == 0 {
        ForeignSurvives(before[0].node.children, after[0].node.children, foreign, device);
        assert AtOrBelow(after[0].node, foreign);
      } else {
        assert after[1..][i - 1] == before[1..][i - 1] == before[i];
        assert AtOrBelow(after[i].node, foreign);
      }
    }
  }

  /** Whatever an interrupted removal left is still removable, so a retry without faults completes it. */
  lemma {:induction false} RemnantStaysRemovable(before: seq<Entry>, after: seq<Entry>, device: nat, depth: nat)
    requires Remnant(before, after, device) && Removable(before, device, depth)
    ensures Removable(after, device, depth)
    decreases before
  {
    if after != before {
      assert forall i :: 0 <= i < |before| - 1 ==> before[1..][i] == before[i + 1];
      assert EntryRemovable(before[0], device, depth);
      if OneDevice(before[0].node, device) && Remnant(before[1..], after, device) {
        RemnantStaysRemovable(before[1..], after, device, depth);
      } else {
        RemnantStaysRemovable(before[0].node.children, after[0].node.children, device, depth + 1);
        forall i | 0 <= i < |after| ensures EntryRemovable(after[i], device, depth) {
          if i > 0 {
            assert after[i] == after[1..][i - 1] == before[1..][i - 1] == before[i];
          }
        }
      }
    }
  }

  // ------------------------------------------------------- the state root

  predicate SameEntry(a: map<string, Node>, b: map<string, Node>, name: string)
  {
    (name in a <==> name in b) && (name in a ==> a[name] == b[name])
  }

  /** The state root while a reset holds its lease; nobody else edits it. */
  class StateResetFilesystem {
    const device: nat
    var entries: map<string, Node>
    var markerDurable: bool

    constructor (device: nat, entries: map<string, Node>)
      ensures this.device == device && this.entries == entries && !markerDurable
    {
      this.device, this.entries, markerDurable := device, entries, false;
    }

    predicate HasMarker()
      reads this
    {
      MARKER in entries && entries[MARKER] == File(PAYLOAD)
    }

    /** Everything in the root that a reset has no business with. */
    function Others(): (r: map<string, Node>)
      reads this
      ensures forall name :: name in r <==> name in entries && name != MARKER && name != MARKER_TEMP && name != SUBTREE
      ensures forall name :: name in r ==> r[name] == entries[name]
    {
      entries - {MARKER, MARKER_TEMP, SUBTREE}
    }

    predicate SubtreeRemovable()
      reads this
    {
      SUBTREE in entries && entries[SUBTREE].Directory? ==>
        entries[SUBTREE].device == device && Removable(entries[SUBTREE].children, device, 0)
    }

    /** Neither name of the marker is taken by a directory. */
    predicate Replaceable()
      reads this
    {
      && !(MARKER_TEMP in entries && entries[MARKER_TEMP].Directory?)
      && !(MARKER in entries && entries[MARKER].Directory?)
    }

    /** verifyMarker; None is an error, which only a fault can cause. */
    method VerifyMarker(faulty: bool) returns (valid: Option<bool>)
      ensures valid.Some? ==> valid.value == HasMarker()
      ensures !faulty ==> valid.Some?
    {
      var ok := Syscall(faulty);
      return if ok then Some(MARKER in entries && entries[MARKER] == File(PAYLOAD)) else None;
    }

    /** replaceMarker: through a synced temporary; a directory at either name fails closed. */
    method ReplaceMarker(faulty: bool) returns (ok: bool)
      modifies this`entries
      ensures ok ==> HasMarker() && MARKER_TEMP !in entries
      ensures !ok ==> SameEntry(old(entries), entries, MARKER)
      ensures Others() == old(Others())
      ensures SameEntry(old(entries), entries, SUBTREE)
      ensures !faulty ==> (ok <==> old(Replaceable()))
    {
      assert MARKER != MARKER_TEMP && MARKER != SUBTREE && MARKER_TEMP != SUBTREE;
      ok := Syscall(faulty);
      if !ok { return; }
      if MARKER_TEMP in entries && entries[MARKER_TEMP].Directory? { return false; }
      var rest := entries - {MARKER_TEMP};
      entries := rest[MARKER_TEMP := File(PAYLOAD)];
      var synced := Syscall(faulty);
      if synced && !(MARKER in rest && rest[MARKER].Directory?) {
        entries := rest[MARKER := File(PAYLOAD)];
        return true;
      }
      var cleaned := Syscall(faulty);
      if cleaned {
        entries := rest;
      }
      return false;
    }

    /** ensureDurableMarker */
    method EnsureDurableMarker(faulty: bool) returns (ok: bool)
      modifies this
      ensures ok ==> HasMarker() && markerDurable
      ensures !ok ==> markerDurable == old(markerDurable)
      ensures Others() == old(Others())
      ensures SameEntry(old(entries), entries, SUBTREE)
      ensures old(HasMarker()) ==> HasMarker()
      ensures !faulty ==> (ok <==> old(HasMarker()) || old(Replaceable()))
    {
      var valid := VerifyMarker(faulty);
      if valid.None? { return false; }
      if !valid.value {
        ok := ReplaceMarker(faulty);
        if !ok { return; }
      }
      valid := VerifyMarker(faulty);
      if valid != Some(true) { return false; }
      ok := Syscall(faulty);
      if !ok { return; }
      valid := VerifyMarker(faulty);
      if valid != Some(true) { return false; }
      markerDurable := true;
      return true;
    }

    /** removeOwnedStateSubtree */
    method RemoveSubtree(faulty: bool) returns (ok: bool)
      modifies this`entries
      ensures ok ==> entries == old(entries) - {SUBTREE}
      ensures !ok ==> (SUBTREE in entries <==> SUBTREE in old(entries))
      ensures entries - {SUBTREE} == old(entries) - {SUBTREE}
      ensures SUBTREE in entries && SUBTREE in old(entries) && entries[SUBTREE] != old(entries)[SUBTREE] ==>
        && old(entries)[SUBTREE].Directory? && entries[SUBTREE].Directory?
        && Remnant(old(entries)[SUBTREE].children, entries[SUBTREE].children, device)
      ensures ok ==> old(SubtreeRemovable())
      ensures !faulty ==> (ok <==> old(SubtreeRemovable()))
    {
      ok := Syscall(faulty);
      if !ok { return; }
      if SUBTREE !in entries { return; }
      var node := entries[SUBTREE];
      ok := Syscall(faulty);
      if !ok { return; }
      if node.Directory? {
        if node.device != device { return false; }
        var emptied, left := RemoveContents(node.children, device, 0, faulty);
        entries := entries[SUBTREE := Directory(device, left)];
        if !emptied { return false; }
        ok := Syscall(faulty);
        if !ok { return; }
      }
      entries := entries - {SUBTREE};
    }

    /** restoreMarkerAfterCompletionFailure, once the subtree is gone. */
    method RestoreMarker(faulty: bool)
      requires SUBTREE !in entries
      modifies this
      ensures SUBTREE !in entries && Others() == old(Others())
    {
      var replaced := ReplaceMarker(faulty);
      if replaced {
        var synced := Syscall(faulty);
        if synced { markerDurable := true; }
      }
    }

    /**
     completeAfterCustodyDeletion: success leaves neither subtree nor marker, a
     failure leaves the marker or an absent subtree, and nothing else in the
     root changes either way.
     */
    method CompleteAfterCustodyDeletion(faulty: bool) returns (ok: bool)
      modifies this
      ensures ok ==> SUBTREE !in entries && MARKER !in entries && !markerDurable
      ensures !ok && old(HasMarker()) ==> HasMarker() || SUBTREE !in entries
      ensures Others() == old(Others())
      ensures ok ==> old(markerDurable) && old(HasMarker()) && old(SubtreeRemovable())
      ensures !faulty ==> (ok <==> old(markerDurable) && old(HasMarker()) && old(SubtreeRemovable()))
      ensures SUBTREE in entries && SUBTREE in old(entries) && entries[SUBTREE] != old(entries)[SUBTREE] ==>
        && old(entries)[SUBTREE].Directory? && entries[SUBTREE].Directory?
        && Remnant(old(entries)[SUBTREE].children, entries[SUBTREE].children, device)
    {
      if !markerDurable { return false; }
      var valid := VerifyMarker(faulty);
      if valid != Some(true) { return false; }
      ok := RemoveSubtree(faulty);
      SameBeside(old(entries), entries);
      if !ok { return; }
      ok := Syscall(faulty);
      if !ok { return; }
      valid := VerifyMarker(faulty);
      if valid != Some(true) { return false; }
      ok := Syscall(faulty);
      if !ok { return; }
      entries := entries - {MARKER};
      ok := Syscall(faulty);
      if !ok {
        RestoreMarker(faulty);
        return false;
      }
      markerDurable := false;
    }
  }

  lemma SameBeside(a: map<string, Node>, b: map<string, Node>)
    requires a - {SUBTREE} == b - {SUBTREE}
    ensures a - {MARKER, MARKER_TEMP, SUBTREE} == b - {MARKER, MARKER_TEMP, SUBTREE}
    ensures SameEntry(a, b, MARKER)
  {
    forall name | name != SUBTREE ensures (name in a <==> name in b) && (name in a ==> a[name] == b[name]) {
      assert name in a <==> name in a - {SUBTREE};
      assert name in b <==> name in b - {SUBTREE};
      assert name in a ==> (a - {SUBTREE})[name] == a[name];
      assert name in b ==> (b - {SUBTREE})[name] == b[name];
    }
  }
}
