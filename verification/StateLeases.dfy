/**
 The process-local admission map behind the state lease. Acquisition and
 release run through their fault points here; Lifecycle sees only whether an
 acquisition got the lease, was refused, or left the root uncertain.
 */
module StateLeases {
  import opened Basics
  import L = Lifecycle

  /** Device and inode of a state root. */
  datatype RootId = RootId(device: nat, inode: nat)

  datatype Entry = Active(lease: nat) | PoisonedRoot

  /** Which step fails. `inspect` covers every check of the lock file before it is locked. */
  datatype AcquireFaults = AcquireFaults(
    root: bool, open: bool, inspect: bool, lock: bool, revalidate: bool, unlock: bool, close: bool, closeRoot: bool)

  datatype ReleaseFaults = ReleaseFaults(validate: bool, unlock: bool, close: bool, closeRoot: bool)

  predicate Fails(f: AcquireFaults)
  {
    f.open || f.inspect || f.lock || f.revalidate
  }

  /** Cleanup undoes only what was done: the lock once taken, the file once open, the root always. */
  predicate CleanupFails(f: AcquireFaults)
  {
    f.closeRoot || (!f.open && f.close) || (!f.open && !f.inspect && !f.lock && f.unlock)
  }

  function AdmissionOf(byRoot: map<RootId, Entry>, root: RootId): (a: L.Admission)
  {
    if root !in byRoot then L.Free
    else match byRoot[root] case Active(lease) => L.Taken(lease) case PoisonedRoot => L.Poisoned
  }

  /** finishStateLeaseAdmission: an entry of someone else's is left alone. */
  function Finish(byRoot: map<RootId, Entry>, root: RootId, lease: nat, poison: bool): (r: map<RootId, Entry>)
    ensures forall other :: other != root ==> AdmissionOf(r, other) == AdmissionOf(byRoot, other)
    ensures AdmissionOf(byRoot, root) != L.Taken(lease) ==> r == byRoot
    ensures AdmissionOf(byRoot, root) == L.Taken(lease) ==>
      AdmissionOf(r, root) == if poison then L.Poisoned else L.Free
  {
    if root !in byRoot || byRoot[root] != Active(lease) then byRoot
    else if poison then byRoot[root := PoisonedRoot]
    else byRoot - {root}
  }

  class StateLease {
    const id: nat
    const rootID: RootId
    var released: bool
    var failed: bool

    constructor (id: nat, rootID: RootId)
      ensures this.id == id && this.rootID == rootID && !released && !failed
    {
      this.id, this.rootID, released, failed := id, rootID, false, false;
    }
  }

  class Admissions {
    var byRoot: map<RootId, Entry>
    var next: nat
    ghost var live: set<StateLease>

    constructor ()
      ensures Valid() && fresh(live) && byRoot == map[] && next == 0 && live == {}
    {
      byRoot, next, live := map[], 0, {};
    }

    /** Every unreleased lease is the active entry of its root, so no two of them share a root. */
    ghost predicate Valid()
      reads this, live
    {
      && (forall l :: l in live ==>
            !l.released && l.id < next && l.rootID in byRoot && byRoot[l.rootID] == Active(l.id))
      && (forall l, m :: l in live && m in live && l.id == m.id ==> l == m)
      && (forall r :: r in byRoot && byRoot[r].Active? ==>
            byRoot[r].lease < next && exists l :: l in live && l.rootID == r && l.id == byRoot[r].lease)
    }

    lemma OnePerRoot(l: StateLease, m: StateLease)
      requires Valid() && l in live && m in live && l.rootID == m.rootID
      ensures l == m
    {
    }

    /**
     acquireStateLease. A failed step abandons the acquisition, and a cleanup
     step that fails in turn leaves the root uncertain.
     */
    method Acquire(root: RootId, f: AcquireFaults) returns (r: Option<StateLease>, ghost outcome: L.Acquired)
      requires Valid()
      modifies this
      ensures Valid()
      ensures forall root' :: root' != root ==> AdmissionOf(byRoot, root') == AdmissionOf(old(byRoot), root')
      ensures AdmissionOf(byRoot, root)
              == L.Acquire(
                   L.Leases(AdmissionOf(old(byRoot), root), old(next), [], L.NoDoubt), outcome, L.NoDoubt).0.admission
      ensures outcome == L.Got <==> r.Some?
      ensures r.Some? ==> r.value.rootID == root && live == old(live) + {r.value} && fresh(r.value)
      ensures r.None? ==> live == old(live)
      ensures r.Some? <==> root !in old(byRoot) && !f.root && !Fails(f)
      ensures outcome == L.Uncertain <==> root !in old(byRoot) && !f.root && Fails(f) && CleanupFails(f)
    {
      outcome := L.Refused;
      if f.root || root in byRoot { return None, outcome; }
      var id := next;
      byRoot, next := byRoot[root := Active(id)], next + 1;
      var hasFile := !f.open;
      var locked := hasFile && !f.inspect && !f.lock;
      if locked && !f.revalidate {
        var lease := new StateLease(id, root);
        live := live + {lease};
        return Some(lease), L.Got;
      }
      var poison := (locked && f.unlock) || (hasFile && f.close) || f.closeRoot;
      byRoot := Finish(byRoot, root, id, poison);
      return None, if poison then L.Uncertain else L.Refused;
    }

    /**
     Release: the first call gives the lease up whatever happens and poisons the
     root on any doubt; every later call only repeats the first result.
     */
    method Release(lease: StateLease, f: ReleaseFaults) returns (failed: bool)
      requires Valid() && (lease in live || lease.released)
      modifies this, lease
      ensures Valid() && lease.released && failed == lease.failed
      ensures old(lease.released) ==> byRoot == old(byRoot) && live == old(live) && failed == old(lease.failed)
      ensures !old(lease.released) ==>
        && live == old(live) - {lease}
        && failed == (f.validate || f.unlock || f.close || f.closeRoot)
        && AdmissionOf(byRoot, lease.rootID)
           == L.LetGo(L.Leases(L.Taken(lease.id), next, [], L.NoDoubt), Some(lease.id), failed, L.NoDoubt).admission
      ensures forall root' :: root' != lease.rootID ==> AdmissionOf(byRoot, root') == AdmissionOf(old(byRoot), root')
    {
      if lease.released { return lease.failed; }
      lease.released := true;
      lease.failed := f.validate || f.unlock || f.close || f.closeRoot;
      live := live - {lease};
      byRoot := Finish(byRoot, lease.rootID, lease.id, lease.failed);
      return lease.failed;
    }
  }
}
