/**
  Process incarnations backed by lifetime locks.

  A process that owns ledger rows keeps an exclusive lock on a file named after
  its incarnation.  The operating system drops the lock when the last process
  holding the descriptor exits.  A forked child shares its parent's descriptor
  until its fork handler has run; until then the child is `forking` and runs no
  other code of the program.
 */
module ProcessOwnership {
  import opened Wrappers
  import opened ResourceTable

  type ProcId = nat  // never reused, unlike the pid the operating system assigns

  datatype Process = Process(pid: nat, incarnation: Incarnation, registered: bool, forking: bool)

  /** The lock files that have a directory entry, and the processes that exist. */
  datatype Locks = Locks(linked: set<Incarnation>, procs: map<ProcId, Process>)

  /** Some process has the descriptor whose lock belongs to this incarnation. */
  predicate LockHeld(k: Locks, inc: Incarnation) {
    exists q | q in k.procs :: k.procs[q].registered && k.procs[q].incarnation == inc
  }

  /** The verdict of a probe by process p. */
  predicate Alive(k: Locks, p: ProcId, inc: Incarnation)
    requires p in k.procs
  {
    || (k.procs[p].incarnation == inc && k.procs[p].registered)
    || (inc in k.linked && LockHeld(k, inc))
  }

  predicate OwnerAlive(k: Locks, p: ProcId, owner: Owner)
    requires p in k.procs
  {
    owner.Owner? && Alive(k, p, owner.incarnation)
  }

  function OwnerOf(k: Locks, p: ProcId): Owner
    requires p in k.procs
  {
    Owner(k.procs[p].pid, k.procs[p].incarnation)
  }

  /** A probe that finds nobody holding the lock removes the lock file. */
  function Unlinked(k: Locks, dead: set<Owner>): Locks {
    k.(linked := k.linked - set o | o in dead && o.Owner? :: o.incarnation)
  }

  function Identified(k: Locks, p: ProcId): Locks
    requires p in k.procs
  {
    if k.procs[p].registered then k
    else Locks(k.linked + {k.procs[p].incarnation}, k.procs[p := k.procs[p].(registered := true)])
  }

  function Booted(k: Locks, p: ProcId, pid: nat, inc: Incarnation): Locks {
    k.(procs := k.procs[p := Process(pid, inc, false, false)])
  }

  function Forked(k: Locks, parent: ProcId, child: ProcId, pid: nat): Locks
    requires parent in k.procs
  {
    k.(procs := k.procs[child := k.procs[parent].(pid := pid, forking := true)])
  }

  function ForkHandled(k: Locks, child: ProcId, inc: Incarnation): Locks
    requires child in k.procs
  {
    k.(procs := k.procs[child := Process(k.procs[child].pid, inc, false, false)])
  }

  function Exited(k: Locks, p: ProcId): Locks {
    k.(procs := k.procs - {p})
  }

  /**
    `used` are the incarnations ever generated, `published` those some process
    ever locked; only published ones reach a ledger row.
   */
  ghost predicate OwnershipOk(k: Locks, used: set<Incarnation>, published: set<Incarnation>) {
    && published <= used
    && (forall p | p in k.procs ::
          && k.procs[p].incarnation in used
          && (k.procs[p].registered ==> k.procs[p].incarnation in k.linked && k.procs[p].incarnation in published)
          && (!k.procs[p].forking && k.procs[p].incarnation in published ==> k.procs[p].registered))
    && (forall p, q | p in k.procs && q in k.procs && p != q && !k.procs[p].forking && !k.procs[q].forking ::
          k.procs[p].incarnation != k.procs[q].incarnation)
  }

  /** No process that finished starting has this incarnation any more, and nobody holds its lock. */
  ghost predicate Gone(k: Locks, inc: Incarnation) {
    && !LockHeld(k, inc)
    && forall q | q in k.procs && !k.procs[q].forking :: k.procs[q].incarnation != inc
  }

  /** Every process reaches the same verdict: the lock is held or it is not. */
  lemma VerdictIsTheLock(k: Locks, used: set<Incarnation>, published: set<Incarnation>, p: ProcId, inc: Incarnation)
    requires OwnershipOk(k, used, published) && p in k.procs
    ensures Alive(k, p, inc) <==> LockHeld(k, inc)
  {
    if LockHeld(k, inc) {
      var q :| q in k.procs && k.procs[q].registered && k.procs[q].incarnation == inc;
      assert inc in k.linked;
    }
  }

  /** A published incarnation is judged dead exactly when its own process, and any
      child still carrying its descriptor, has gone. */
  lemma JudgedDeadIffGone(k: Locks, used: set<Incarnation>, published: set<Incarnation>, p: ProcId, inc: Incarnation)
    requires OwnershipOk(k, used, published) && p in k.procs && inc in published
    ensures !Alive(k, p, inc) <==> Gone(k, inc)
  {
    VerdictIsTheLock(k, used, published, p, inc);
  }

  class LeaseOwners {
    var linked: set<Incarnation>
    var procs: map<ProcId, Process>

    constructor ()
      ensures View() == Locks({}, map[])
    {
      linked, procs := {}, map[];
    }

    function View(): Locks
      reads this
    {
      Locks(linked, procs)
    }

    /** Takes the lifetime lock on first use, then answers with the same incarnation. */
    method Identity(p: ProcId) returns (inc: Incarnation)
      requires p in procs
      modifies this
      ensures View() == Identified(old(View()), p)
      ensures inc == old(procs)[p].incarnation
    {
      inc := procs[p].incarnation;
      if !procs[p].registered {
        linked := linked + {inc};
        procs := procs[p := procs[p].(registered := true)];
      }
    }

    /** Probes an incarnation; the only trace it leaves is the removal of a dead lock file. */
    method Probe(p: ProcId, owner: Owner) returns (alive: bool)
      requires p in procs
      modifies `linked
      ensures alive == OwnerAlive(old(View()), p, owner)
      ensures View() == if alive then old(View()) else Unlinked(old(View()), {owner})
    {
      if owner == NoOwner {
        return false;
      }
      var inc := owner.incarnation;
      if procs[p].incarnation == inc && procs[p].registered {
        return true;
      }
      if inc !in linked {
        assert linked == linked - {inc};
        return false;
      }
      if LockHeld(View(), inc) {
        return true;
      }
      linked := linked - {inc};
      return false;
    }

    /** The child closes the inherited descriptor and takes a new incarnation. */
    method AfterFork(child: ProcId, next: Incarnation)
      requires child in procs
      modifies `procs
      ensures View() == ForkHandled(old(View()), child, next)
    {
      procs := procs[child := procs[child].(registered := false)];
      procs := procs[child := Process(procs[child].pid, next, false, false)];
      assert procs == old(procs)[child := procs[child]];
    }
  }
}
