/** Agreement of the ledger with the disk, fencing, and the finality of deletion. */
module AttachmentConsistency {
  import opened Wrappers
  import opened ResourceTable
  import opened ProcessOwnership
  import opened ResourceTransactions
  import opened AttachmentRuns
  import opened AttachmentInvariant
  import opened AttachmentSteps
  import opened AttachmentTheorems

  // ----- crash consistency

  function SourceSize(st: State, r: Row): nat {
    if PathOf(r) in st.dirs && st.dirs[PathOf(r)].source.Some? then st.dirs[PathOf(r)].source.value else 0
  }

  /** Bytes of source files on disk that belong to the rows of a scope. */
  function SourceBytes(st: State, rows: seq<Row>, scope: Scope): nat {
    if rows == [] then 0
    else (if Covers(scope, rows[0]) then SourceSize(st, rows[0]) else 0) + SourceBytes(st, rows[1..], scope)
  }

  lemma {:induction false} SourcesArePaidFor(st: State, rows: seq<Row>, scope: Scope)
    requires forall r | r in rows :: PathOf(r) in st.dirs ==> Charged(r) && SourceSize(st, r) <= r.bytes
    ensures SourceBytes(st, rows, scope) <= Use(rows, Bytes(scope))
  {
    if rows != [] {
      assert rows[0] in rows;
      SourcesArePaidFor(st, rows[1..], scope);
    }
  }

  /**
    In every run, crashes included: every attachment directory has exactly one
    row, and that row is retained; and the sources on disk never take more
    bytes than the ledger charges, in any session, for any actor, or in all.
   */
  lemma DiskAgreesWithLedger(run: seq<Event>, scope: Scope)
    requires Legal(INITIAL, run)
    ensures var st := After(INITIAL, run).st;
      && (forall d | d in st.dirs :: RowOf(st.rows, d.id).Some? && PathOf(RowOf(st.rows, d.id).value) == d
                                     && RowOf(st.rows, d.id).value.retained)
      && Distinct(st.rows)
      && SourceBytes(st, st.rows, scope) <= Use(st.rows, Bytes(scope)) <= Limit(Bytes(scope))
  {
    InitialInv();
    RunKeeps(INITIAL, run);
    var w := After(INITIAL, run);
    forall d | d in w.st.dirs
      ensures RowOf(w.st.rows, d.id).Some? && PathOf(RowOf(w.st.rows, d.id).value) == d
              && RowOf(w.st.rows, d.id).value.retained
    {
      assert DirOk(w, d);
    }
    forall r | r in w.st.rows ensures PathOf(r) in w.st.dirs ==> Charged(r) && SourceSize(w.st, r) <= r.bytes {
      RowInTable(w.st.rows, r);
      assert PathOf(r) in w.st.dirs ==> DirOk(w, PathOf(r));
    }
    SourcesArePaidFor(w.st, w.st.rows, scope);
    assert Use(w.st.rows, Bytes(scope)) <= Limit(Bytes(scope));
  }

  /** A row whose source was deleted is one that is still at work, and only while its process may be. */
  lemma UnretainedIsAtWork(run: seq<Event>, id: Id)
    requires Legal(INITIAL, run)
    ensures var w := After(INITIAL, run); var found := RowOf(w.st.rows, id);
      found.Some? && !found.value.retained ==>
        && (found.value.phase == Upload || found.value.phase == Running)
        && found.value.token.Some? && found.value.owner.Owner? && PathOf(found.value) !in w.st.dirs
  {
    InitialInv();
    RunKeeps(INITIAL, run);
    var w := After(INITIAL, run);
    var found := RowOf(w.st.rows, id);
    if found.Some? && !found.value.retained {
      assert RowOk(w, found.value);
      assert PathOf(found.value) in w.st.dirs ==> DirOk(w, PathOf(found.value));
    }
  }

  /** Every part in .uploads belongs to an upload row that pays for it, or was orphaned inside abort. */
  lemma PartsArePaidFor(run: seq<Event>, id: Id)
    requires Legal(INITIAL, run) && id in After(INITIAL, run).st.parts
    ensures var w := After(INITIAL, run);
      || (RowOf(w.st.rows, id).Some? && RowOf(w.st.rows, id).value.phase == Upload
          && w.st.parts[id] <= RowOf(w.st.rows, id).value.bytes)
      || (id in w.h.leaked && RowOf(w.st.rows, id).None?)
  {
    InitialInv();
    RunKeeps(INITIAL, run);
    assert PartOk(After(INITIAL, run), id);
  }

  /** A reap removes no source whose upload was committed. */
  lemma ReapSparesCommitted(w: World, p: ProcId, d: Path)
    requires Inv(w) && Up(w.st.locks, p) && d in w.st.dirs
    requires RowOf(w.st.rows, d.id).value.phase != Upload
    ensures d in Reaped(w.st, p).dirs && Reaped(w.st, p).dirs[d] == w.st.dirs[d]
    ensures d in ReapedAndRolledBack(w.st, p).dirs
  {
    forall r | r in w.st.rows && r.phase == Upload ensures PathOf(r) != d {
      RowInTable(w.st.rows, r);
    }
  }

  /**
    What a reap does to a row at work depends on one thing: whether the lock of
    its owner is held. If so the row stays as it is; if not, an upload or a row
    whose source was deleted goes, and any other turns idle.
   */
  lemma ReapIsExact(w: World, p: ProcId, id: Id)
    requires Inv(w) && Up(w.st.locks, p)
    requires RowOf(w.st.rows, id).Some? && RowOf(w.st.rows, id).value.phase != Idle
    ensures var r := RowOf(w.st.rows, id).value;
      && (r.owner in DeadOwners(w.st, p) <==> !LockHeld(w.st.locks, r.owner.incarnation))
      && RowOf(AfterReap(w, p).st.rows, id) ==
         if LockHeld(w.st.locks, r.owner.incarnation) then Some(r)
         else if r.phase == Upload || !r.retained then None
         else Some(Idled(r))
  {
    hide EditAll, LockHeld;
    var r := RowOf(w.st.rows, id).value;
    assert RowOk(w, r);
    EditedRow(w.st.rows, Reclaim(DeadOwners(w.st, p)), id);
    VerdictIsTheLock(w.st.locks, w.h.usedIncs, w.h.published, p, r.owner.incarnation);
    assert r in w.st.rows;
    forall s | s in w.st.rows && s.owner == r.owner
      ensures OwnerAlive(w.st.locks, p, s.owner) == LockHeld(w.st.locks, r.owner.incarnation)
    {
    }
  }

  /** An upload's row, directory and part are cleared by a reap if and only if nobody holds its owner's lock. */
  lemma ReapClearsExactlyDeadUploads(w: World, p: ProcId, id: Id)
    requires Inv(w) && Up(w.st.locks, p)
    requires RowOf(w.st.rows, id).Some? && RowOf(w.st.rows, id).value.phase == Upload
    ensures var r, x := RowOf(w.st.rows, id).value, AfterReap(w, p);
            var held := LockHeld(w.st.locks, r.owner.incarnation);
      && (RowOf(x.st.rows, id).Some? <==> held)
      && (PathOf(r) in w.st.dirs ==> (PathOf(r) in x.st.dirs <==> held))
      && (id in w.st.parts ==> (id in x.st.parts <==> held))
  {
    hide LockHeld, EditAll, DeadOwners;
    var r, dead := RowOf(w.st.rows, id).value, DeadOwners(w.st, p);
    ReapIsExact(w, p, id);
    assert r in w.st.rows;
    forall s | s in w.st.rows && s.id == id ensures s == r {
      RowInTable(w.st.rows, s);
    }
  }

  /** The lock of an incarnation is held by a forked child that has not run its fork handler yet. */
  ghost predicate Carried(k: Locks, inc: Incarnation) {
    exists q | q in k.procs :: k.procs[q].forking && k.procs[q].registered && k.procs[q].incarnation == inc
  }

  ghost predicate OwnerCarried(k: Locks, r: Row) {
    r.owner.Owner? && Carried(k, r.owner.incarnation)
  }

  ghost predicate UploadOpen(w: World, id: Id) {
    exists t :: t in w.h.uploads && t.lease.id == id
  }

  /** What a reap leaves of uploads belongs to an open upload, or to a dead process whose lock a child carries. */
  lemma WhatReapLeaves(w: World, p: ProcId)
    requires Inv(w) && Up(w.st.locks, p)
    ensures var x := AfterReap(w, p);
      && (forall id | RowOf(x.st.rows, id).Some? && RowOf(x.st.rows, id).value.phase == Upload ::
            UploadOpen(x, id) || OwnerCarried(x.st.locks, RowOf(x.st.rows, id).value))
      && (forall d | d in x.st.dirs :: RowOf(x.st.rows, d.id).Some? &&
            (RowOf(x.st.rows, d.id).value.phase == Upload ==> OwnerCarried(x.st.locks, RowOf(x.st.rows, d.id).value)))
  {
    hide EditAll, DeadOwners, OwnerCarried, UploadOpen;
    var x := AfterReap(w, p);
    ReapKeeps(w, p);
    forall id | RowOf(x.st.rows, id).Some? && RowOf(x.st.rows, id).value.phase == Upload
      ensures UploadOpen(x, id) || OwnerCarried(x.st.locks, RowOf(x.st.rows, id).value)
      ensures || OwnerCarried(x.st.locks, RowOf(x.st.rows, id).value)
              || exists q :: OwnedBy(x.st.locks, RowOf(x.st.rows, id).value, q)
    {
      UploadLeft(w, p, id);
    }
    assert forall d | d in x.st.dirs :: DirOk(x, d);
  }

  lemma UploadLeft(w: World, p: ProcId, id: Id)
    requires Inv(w) && Up(w.st.locks, p)
    requires RowOf(AfterReap(w, p).st.rows, id).Some? && RowOf(AfterReap(w, p).st.rows, id).value.phase == Upload
    ensures var x := AfterReap(w, p); var r := RowOf(x.st.rows, id).value;
      || OwnerCarried(x.st.locks, r)
      || (UploadOpen(x, id) && exists q :: OwnedBy(x.st.locks, r, q))
  {
    hide EditAll, DeadOwners;
    var x := AfterReap(w, p);
    EditedRow(w.st.rows, Reclaim(DeadOwners(w.st, p)), id);
    ReapIsExact(w, p, id);
    var r := RowOf(w.st.rows, id).value;
    assert RowOk(w, r);
    var q :| q in w.st.locks.procs && w.st.locks.procs[q].registered
             && w.st.locks.procs[q].incarnation == r.owner.incarnation;
    if !w.st.locks.procs[q].forking {
      assert OwnedBy(w.st.locks, r, q) && OwnedBy(x.st.locks, r, q);
      assert Ticket(q, LeaseOf(r)) in x.h.uploads;
    } else {
      assert q in x.st.locks.procs && x.st.locks.procs[q] == w.st.locks.procs[q];
    }
  }

  // ----- no slot is lost

  /** A count of rows is at most the number of ids counted. */
  lemma {:induction false} UseIsAtMost(rows: seq<Row>, ids: set<Id>, m: Measure)
    requires Distinct(rows)
    requires forall id | RowOf(rows, id).Some? && Weight(m, RowOf(rows, id).value) >= 1 :: id in ids
    requires forall r | r in rows :: Weight(m, r) <= 1
    ensures Use(rows, m) <= |ids|
  {
    hide Weight;
    if rows != [] {
      var first := rows[0];
      assert first in rows && RowOf(rows, first.id) == Some(first);
      var rest := if Weight(m, first) >= 1 then ids - {first.id} else ids;
      forall id | RowOf(rows[1..], id).Some? && Weight(m, RowOf(rows[1..], id).value) >= 1 ensures id in rest {
      }
      UseIsAtMost(rows[1..], rest, m);
    }
  }

  /** After a reap the running rows are exactly as many as the workers that really run, unless a
      forked child still carries the lock of a running row's owner: no slot stays lost. */
  lemma NoSlotIsLost(w: World, p: ProcId)
    requires Inv(w) && Up(w.st.locks, p)
    requires forall r | r in w.st.rows && r.phase == Running :: !OwnerCarried(w.st.locks, r)
    ensures var x := AfterReap(w, p); Use(x.st.rows, RunningParses) == |x.h.workers|
  {
    hide EditAll, DeadOwners, Use, RowOf, AfterReap;
    var x := AfterReap(w, p);
    ReapKeeps(w, p);
    WorkOwnsSlots(x, x.h.workers, Running, RunningParses);
    var ids := set t | t in x.h.workers :: t.lease.id;
    TicketsByRow(x.h.workers);
    forall id | RowOf(x.st.rows, id).Some? && Weight(RunningParses, RowOf(x.st.rows, id).value) >= 1 ensures id in ids {
      RunningIsWorking(w, p, id);
    }
    UseIsAtMost(x.st.rows, ids, RunningParses);
  }

  lemma RunningIsWorking(w: World, p: ProcId, id: Id)
    requires Inv(w) && Up(w.st.locks, p)
    requires forall r | r in w.st.rows && r.phase == Running :: !OwnerCarried(w.st.locks, r)
    requires RowOf(AfterReap(w, p).st.rows, id).Some? && RowOf(AfterReap(w, p).st.rows, id).value.phase == Running
    ensures exists t :: t in AfterReap(w, p).h.workers && t.lease.id == id
  {
    hide EditAll, DeadOwners;
    EditedRow(w.st.rows, Reclaim(DeadOwners(w.st, p)), id);
    ReapIsExact(w, p, id);
    var r := RowOf(w.st.rows, id).value;
    assert RowOk(w, r);
    assert !OwnerCarried(w.st.locks, r);
    var q :| q in w.st.locks.procs && w.st.locks.procs[q].registered
             && w.st.locks.procs[q].incarnation == r.owner.incarnation;
    assert OwnedBy(w.st.locks, r, q);
    assert Ticket(q, LeaseOf(r)) in w.h.workers;
  }

  // ----- fencing

  /** A lease whose token is no longer the row's changes no row beyond reaping. */
  lemma StaleLeaseIsInert(st: State, p: ProcId, lease: Lease, filename: string, size: nat, ok: bool)
    requires Distinct(st.rows) && p in st.locks.procs
    requires RowOf(st.rows, lease.id).Some? ==> !Holds(RowOf(st.rows, lease.id).value, lease)
    ensures Finished(st, lease).rows == st.rows
    ensures Aborted(st, lease).rows == st.rows
    ensures Committed(st, lease, filename, size, ok).1 == Failure(Cancelled)
    ensures Committed(st, lease, filename, size, ok).0.rows == st.rows
    ensures TriedToStart(st, p, lease) == (Reaped(st, p), Missing)
  {
    forall r | r in st.rows ensures !Holds(r, lease) {
      RowInTable(st.rows, r);
    }
    EditWithoutEffect(st.rows, Release(lease));
    EditWithoutEffect(st.rows, Cancel(lease));
    EditedRow(st.rows, Reclaim(DeadOwners(st, p)), lease.id);
  }

  lemma {:induction false} EditWithoutEffect(rows: seq<Row>, e: Edit)
    requires forall r | r in rows :: Edited(e, r) == Some(r)
    ensures EditAll(rows, e) == rows
  {
    if rows != [] {
      assert rows[0] in rows;
      EditWithoutEffect(rows[1..], e);
    }
  }

  ghost predicate CommitsAt(w: World, e: Event, token: Token) {
    (e.Commit? || e.CommitAgain?) && e.lease.token == token && CommitRefusal(w.st, e.lease, e.size, e.checkPasses).None?
  }

  ghost predicate StartsAt(w: World, e: Event, token: Token)
    requires Enabled(w, e)
  {
    e.TryStart? && e.lease.token == token && TriedToStart(w.st, e.p, e.lease).1 == Started
  }

  ghost function Commits(w: World, run: seq<Event>, token: Token): nat
    requires Legal(w, run)
    decreases |run|
  {
    if run == [] then 0
    else (if CommitsAt(w, run[0], token) then 1 else 0) + Commits(Next(w, run[0]), run[1..], token)
  }

  ghost function Starts(w: World, run: seq<Event>, token: Token): nat
    requires Legal(w, run)
    decreases |run|
  {
    if run == [] then 0
    else (if StartsAt(w, run[0], token) then 1 else 0) + Starts(Next(w, run[0]), run[1..], token)
  }

  lemma CommitIsRemembered(w: World, e: Event, token: Token)
    requires Inv(w) && Enabled(w, e)
    ensures CommitsAt(w, e, token) ==> token !in w.h.committed && token in Next(w, e).h.committed
    ensures token in w.h.committed ==> token in Next(w, e).h.committed
  {
    if e.CommitAgain? {
      OtherLeaseIsRefused(w, e.p, e.lease, e.size, e.checkPasses);
    }
    if CommitsAt(w, e, token) {
      OpenUpload(w, e.p, e.lease);
    }
  }

  lemma StartIsRemembered(w: World, e: Event, token: Token)
    requires Inv(w) && Enabled(w, e)
    ensures StartsAt(w, e, token) ==> token !in w.h.started && token in Next(w, e).h.started
    ensures token in w.h.started ==> token in Next(w, e).h.started
  {
    hide EditAll, PartlyRemoved, DeadUploads, DeadParts, AdmissionRefusal, QueueRefusal, CommitRefusal;
    StartedGrows(w, e);
    if StartsAt(w, e, token) {
      StartIsNew(w, e.p, e.lease);
    }
  }

  lemma StartedGrows(w: World, e: Event)
    requires Enabled(w, e)
    ensures w.h.started <= Next(w, e).h.started
  {
    hide EditAll, RowOf, PartlyRemoved, DeadOwners, AdmissionRefusal, QueueRefusal, CommitRefusal, StartVerdict;
  }

  lemma StartIsNew(w: World, p: ProcId, lease: Lease)
    requires Inv(w) && Up(w.st.locks, p) && TriedToStart(w.st, p, lease).1 == Started
    ensures lease.token !in w.h.started && lease.token in AfterTryStart(w, p, lease).h.started
  {
    ReapKeeps(w, p);
    assert RowOk(AfterReap(w, p), RowOf(AfterReap(w, p).st.rows, lease.id).value);
  }

  lemma {:induction false} OnceFrom(w: World, run: seq<Event>, token: Token)
    requires Inv(w) && Legal(w, run)
    ensures Commits(w, run, token) <= if token in w.h.committed then 0 else 1
    ensures Starts(w, run, token) <= if token in w.h.started then 0 else 1
    decreases |run|
  {
    if run != [] {
      StepKeeps(w, run[0]);
      CommitIsRemembered(w, run[0], token);
      StartIsRemembered(w, run[0], token);
      OnceFrom(Next(w, run[0]), run[1..], token);
    }
  }

  /** A token that was committed is refused in every later state, whoever presents it and with whatever lease. */
  lemma CommittedTokenIsRefused(run: seq<Event>, lease: Lease, size: nat, ok: bool)
    requires Legal(INITIAL, run) && lease.token in After(INITIAL, run).h.committed
    ensures CommitRefusal(After(INITIAL, run).st, lease, size, ok) == Some(Cancelled)
  {
    InitialInv();
    RunKeeps(INITIAL, run);
    var w := After(INITIAL, run);
    if RowOf(w.st.rows, lease.id).Some? {
      assert RowOk(w, RowOf(w.st.rows, lease.id).value);
    }
  }

  /** In any run a lease is committed at most once, however often its holder tries, and told "started" at most once. */
  lemma LeasesAreUsedOnce(run: seq<Event>, token: Token)
    requires Legal(INITIAL, run)
    ensures Commits(INITIAL, run, token) <= 1
    ensures Starts(INITIAL, run, token) <= 1
  {
    InitialInv();
    OnceFrom(INITIAL, run, token);
  }

  // ----- no resurrection

  lemma {:induction false} RemovedStaysRemoved(w: World, run: seq<Event>, d: Path)
    requires Inv(w) && Legal(w, run) && d in w.h.removed
    ensures d !in After(w, run).st.dirs
    decreases |run|
  {
    if run == [] {
      assert d in w.st.dirs ==> DirOk(w, d);
    } else {
      StepKeeps(w, run[0]);
      RemovedStaysRemoved(Next(w, run[0]), run[1..], d);
    }
  }

  /**
    Once a delete has covered an attachment, including one that was still
    uploading, no later order of commits, writes and restarts brings it back.
   */
  lemma NoResurrection(before: seq<Event>, p: ProcId, sid: string, target: Option<Id>, later: seq<Event>, d: Path)
    requires Legal(INITIAL, before)
    requires Enabled(After(INITIAL, before), Delete(p, sid, target))
    requires d in CoveredPaths(After(INITIAL, before).st, sid, target)
    requires Legal(Next(After(INITIAL, before), Delete(p, sid, target)), later)
    ensures Get(After(Next(After(INITIAL, before), Delete(p, sid, target)), later).st, d) == None
  {
    InitialInv();
    RunKeeps(INITIAL, before);
    var w := After(INITIAL, before);
    StepKeeps(w, Delete(p, sid, target));
    RemovedStaysRemoved(Next(w, Delete(p, sid, target)), later, d);
  }

  // ----- bound attachments

  ghost predicate BoundAndCommitted(w: World, d: Path) {
    && d in w.st.dirs && w.st.dirs[d].meta.Some? && w.st.dirs[d].meta.value.bound
    && RowOf(w.st.rows, d.id).Some? && RowOf(w.st.rows, d.id).value.phase != Upload
  }

  /** The event deletes something else, and leaves the flag on if it writes metadata here. */
  predicate Spares(e: Event, d: Path) {
    match e
    case Delete(_, sid, target) => !(d.session == sid && (target.None? || target.value == d.id))
    case DeleteCrash(_, sid, target, _) => !(d.session == sid && (target.None? || target.value == d.id))
    case PutMeta(_, path, meta) => path == d ==> meta.bound
    case _ => true
  }

  lemma NotADeadUpload(w: World, p: ProcId, d: Path)
    requires Distinct(w.st.rows) && Up(w.st.locks, p) && BoundAndCommitted(w, d)
    ensures d !in DeadUploads(w.st.rows, DeadOwners(w.st, p))
  {
    forall r | r in w.st.rows && r.phase == Upload ensures PathOf(r) != d {
      RowInTable(w.st.rows, r);
    }
  }

  predicate Reaps(e: Event) {
    e.Reserve? || e.Queue? || e.TryStart? || e.Active? || e.ReapCrash?
  }

  lemma ReapingSparesBound(w: World, e: Event, d: Path)
    requires Distinct(w.st.rows) && Enabled(w, e) && Reaps(e) && BoundAndCommitted(w, d)
    ensures d in Next(w, e).st.dirs && Next(w, e).st.dirs[d].source == w.st.dirs[d].source
    ensures Next(w, e).st.dirs[d].meta == w.st.dirs[d].meta
  {
    NotADeadUpload(w, e.p, d);
  }

  lemma WritingSparesBound(w: World, e: Event, d: Path)
    requires Enabled(w, e) && !Reaps(e) && !e.CommitAgain? && Spares(e, d)
    requires e.Commit? || e.CommitCrash? ==> Path(e.lease.session, e.lease.id) != d
    requires BoundAndCommitted(w, d)
    ensures d in Next(w, e).st.dirs && Next(w, e).st.dirs[d].source == w.st.dirs[d].source
    ensures Next(w, e).st.dirs[d].meta.Some? && Next(w, e).st.dirs[d].meta.value.bound
  {
  }

  lemma AdmissionSparesRow(w: World, p: ProcId, a: Admission, id: Id)
    requires Distinct(w.st.rows) && Enabled(w, Reserve(p, a)) && id != a.id && RowOf(w.st.rows, a.id).None?
    ensures RowOf(AfterReserve(w, p, a).st.rows, id) in {RowOf(w.st.rows, id), RowOf(AfterReap(w, p).st.rows, id)}
  {
    var y := AfterReap(w, p);
    EditedRow(w.st.rows, Reclaim(DeadOwners(w.st, p)), a.id);
    DistinctAfterEdit(w.st.rows, Reclaim(DeadOwners(w.st, p)));
    AppendActsPerRow(y.st.rows, AdmittedRow(a, OwnerOf(y.st.locks, p)));
  }

  lemma ReapSparesPhase(w: World, p: ProcId, id: Id)
    requires Distinct(w.st.rows) && Up(w.st.locks, p)
    requires RowOf(w.st.rows, id).Some? && RowOf(w.st.rows, id).value.phase != Upload
    ensures Distinct(AfterReap(w, p).st.rows)
    ensures var after := RowOf(AfterReap(w, p).st.rows, id); after.Some? ==> after.value.phase != Upload
  {
    EditedRow(w.st.rows, Reclaim(DeadOwners(w.st, p)), id);
    DistinctAfterEdit(w.st.rows, Reclaim(DeadOwners(w.st, p)));
  }

  ghost predicate PastUpload(rows: seq<Row>, id: Id) {
    RowOf(rows, id).Some? ==> RowOf(rows, id).value.phase != Upload
  }

  lemma ReserveKeepsCommitted(w: World, p: ProcId, a: Admission, id: Id)
    requires Distinct(w.st.rows) && Enabled(w, Reserve(p, a))
    requires RowOf(w.st.rows, id).Some? && PastUpload(w.st.rows, id)
    requires id != a.id && RowOf(w.st.rows, a.id).None?
    ensures PastUpload(AfterReserve(w, p, a).st.rows, id)
  {
    hide AfterReap, AfterReserve, RowOf;
    ReapSparesPhase(w, p, id);
    AdmissionSparesRow(w, p, a, id);
  }

  lemma QueueKeepsCommitted(w: World, p: ProcId, sid: string, aid: Id, actor: string, token: Token, id: Id)
    requires Distinct(w.st.rows) && Up(w.st.locks, p)
    requires RowOf(w.st.rows, id).Some? && PastUpload(w.st.rows, id)
    ensures PastUpload(AfterQueue(w, p, sid, aid, actor, token).st.rows, id)
  {
    hide DeadOwners, EditAll, QueueRefusal, RowOf;
    var y := AfterReap(w, p);
    ReapSparesPhase(w, p, id);
    EditedRow(y.st.rows, Enqueue(aid, actor, OwnerOf(y.st.locks, p), token), id);
  }

  lemma StartKeepsCommitted(w: World, p: ProcId, lease: Lease, id: Id)
    requires Distinct(w.st.rows) && Up(w.st.locks, p)
    requires RowOf(w.st.rows, id).Some? && PastUpload(w.st.rows, id)
    ensures PastUpload(AfterTryStart(w, p, lease).st.rows, id)
  {
    hide DeadOwners, EditAll, StartVerdict, RowOf;
    ReapSparesPhase(w, p, id);
    EditedRow(AfterReap(w, p).st.rows, Start(lease.id), id);
  }

  lemma ReapingKeepsCommitted(w: World, e: Event, id: Id)
    requires Distinct(w.st.rows) && Enabled(w, e) && Reaps(e)
    requires RowOf(w.st.rows, id).Some? && PastUpload(w.st.rows, id)
    requires e.Reserve? ==> id != e.a.id && RowOf(w.st.rows, e.a.id).None?
    ensures PastUpload(Next(w, e).st.rows, id)
  {
    hide RowOf, Distinct, PartlyRemoved, DeadOwners, AfterReserve, AfterQueue, AfterTryStart;
    match e
    case Reserve(p, a) => ReserveKeepsCommitted(w, p, a, id);
    case Queue(p, sid, aid, actor, token) => QueueKeepsCommitted(w, p, sid, aid, actor, token, id);
    case TryStart(p, lease) => StartKeepsCommitted(w, p, lease, id);
    case Active(p) => ReapSparesPhase(w, p, id);
    case ReapCrash(_, _, _, _) =>
  }

  lemma EditingKeepsCommitted(rows: seq<Row>, e: Edit, id: Id)
    requires Distinct(rows) && PastUpload(rows, id)
    ensures PastUpload(EditAll(rows, e), id)
  {
    EditedRow(rows, e, id);
  }

  /** No event takes a row back to the upload phase. */
  lemma CommittedForGood(w: World, e: Event, id: Id)
    requires Inv(w) && Enabled(w, e)
    requires RowOf(w.st.rows, id).Some? && PastUpload(w.st.rows, id)
    ensures PastUpload(Next(w, e).st.rows, id)
  {
    if Reaps(e) {
      assert RowOk(w, RowOf(w.st.rows, id).value);
      assert e.Reserve? && RowOf(w.st.rows, e.a.id).Some? ==> RowOk(w, RowOf(w.st.rows, e.a.id).value);
      ReapingKeepsCommitted(w, e, id);
    } else {
      OtherwiseKeepsCommitted(w, e, id);
    }
  }

  lemma OtherwiseKeepsCommitted(w: World, e: Event, id: Id)
    requires Distinct(w.st.rows) && Enabled(w, e) && !Reaps(e) && PastUpload(w.st.rows, id)
    ensures PastUpload(Next(w, e).st.rows, id)
  {
    if e.Commit? || e.CommitAgain? {
      EditingKeepsCommitted(w.st.rows, Publish(e.lease, e.size), id);
      EditingKeepsCommitted(w.st.rows, Cancel(e.lease), id);
    } else if e.Abort? || e.AbortCrash? {
      EditingKeepsCommitted(w.st.rows, Cancel(e.lease), id);
    } else if e.FinishJob? {
      EditingKeepsCommitted(w.st.rows, Release(e.lease), id);
    } else if e.Delete? {
      EditingKeepsCommitted(w.st.rows, Forget(e.sid, e.target), id);
    }
  }

  /** A bound attachment survives every event that spares it. */
  lemma BoundSurvives(w: World, e: Event, d: Path)
    requires Inv(w) && Enabled(w, e) && Spares(e, d)
    requires BoundAndCommitted(w, d)
    ensures BoundAndCommitted(Next(w, e), d)
    ensures Next(w, e).st.dirs[d].source == w.st.dirs[d].source
  {
    if Reaps(e) {
      ReapingSparesBound(w, e, d);
    } else if e.CommitAgain? {
      OtherLeaseIsRefused(w, e.p, e.lease, e.size, e.checkPasses);
    } else {
      if e.Commit? || e.CommitCrash? {
        OpenUpload(w, e.p, e.lease);
      }
      WritingSparesBound(w, e, d);
    }
    CommittedForGood(w, e, d.id);
    StepKeeps(w, e);
    assert DirOk(Next(w, e), d);
  }

  // ----- where the program falls short

  /**
    A lease committed a second time is refused, but the refusal's clean-up
    removes the source the first commit stored, while its row stays charged:
    a refused commit destroys a directory exactly when there is one.
   */
  lemma RefusedCommitRemovesDirectory(st: State, lease: Lease, filename: string, size: nat, ok: bool)
    requires CommitRefusal(st, lease, size, ok).Some?
    ensures var d := Path(lease.session, lease.id);
      && d !in Committed(st, lease, filename, size, ok).0.dirs
      && (Committed(st, lease, filename, size, ok).0.dirs == st.dirs <==> d !in st.dirs)
  {
    var d := Path(lease.session, lease.id);
    assert d !in st.dirs ==> st.dirs - {d} == st.dirs;
  }

  lemma SecondCommitLosesSource(st: State, lease: Lease, filename: string, size: nat)
    requires Distinct(st.rows) && CommitRefusal(st, lease, size, true).None?
    ensures var first := Committed(st, lease, filename, size, true).0;
            var second := Committed(first, lease, filename, size, true).0;
      && Path(lease.session, lease.id) in first.dirs
      && Path(lease.session, lease.id) !in second.dirs
      && RowOf(second.rows, lease.id).Some? && RowOf(second.rows, lease.id).value.retained
      && RowOf(second.rows, lease.id).value.bytes == size
  {
    var first := Committed(st, lease, filename, size, true).0;
    EditedRow(st.rows, Publish(lease, size), lease.id);
    DistinctAfterEdit(st.rows, Publish(lease, size));
    EditedRow(first.rows, Cancel(lease), lease.id);
  }

  /** A part orphaned by a crash inside abort is never reclaimed by any later event. */
  lemma {:induction false} LeakedPartStays(w: World, run: seq<Event>, id: Id)
    requires Inv(w) && Legal(w, run) && id in w.h.leaked && id in w.st.parts
    requires forall t | t in w.h.held :: t.lease.id != id
    ensures id in After(w, run).st.parts
    decreases |run|
  {
    if run != [] {
      StepKeeps(w, run[0]);
      LeakedPartSurvives(w, run[0], id);
      LeakedPartStays(Next(w, run[0]), run[1..], id);
    }
  }

  /** Every crash inside the abort of an open upload whose part exists leaves such a part. */
  lemma AbortCrashLeaksPart(w: World, p: ProcId, lease: Lease)
    requires Inv(w) && Ticket(p, lease) in w.h.uploads && lease.id in w.st.parts
    ensures var x := AfterAbortCrash(w, p, lease);
      && lease.id in x.h.leaked && lease.id in x.st.parts
      && forall t | t in x.h.held :: t.lease.id != lease.id
  {
    OpenUpload(w, p, lease);
    forall t | t in w.h.held && t.lease.id == lease.id ensures t == Ticket(p, lease) {
      assert TicketOk(w, t);
      OneHolder(w, Ticket(p, lease), t);
    }
  }

  /** ... so from every reachable open upload a crash leads to a part that no later event removes. */
  lemma CrashedAbortIsNeverReclaimed(before: seq<Event>, p: ProcId, lease: Lease, later: seq<Event>)
    requires Legal(INITIAL, before)
    requires Ticket(p, lease) in After(INITIAL, before).h.uploads && lease.id in After(INITIAL, before).st.parts
    requires Legal(AfterAbortCrash(After(INITIAL, before), p, lease), later)
    ensures lease.id in After(AfterAbortCrash(After(INITIAL, before), p, lease), later).st.parts
  {
    InitialInv();
    RunKeeps(INITIAL, before);
    var w := After(INITIAL, before);
    AbortCrashKeeps(w, p, lease);
    AbortCrashLeaksPart(w, p, lease);
    LeakedPartStays(AfterAbortCrash(w, p, lease), later, lease.id);
  }

  lemma QueueNeedsRow(w: World, p: ProcId, sid: string, aid: Id, actor: string, token: Token)
    requires Inv(w) && Enabled(w, Queue(p, sid, aid, actor, token)) && RowOf(w.st.rows, aid).None?
    ensures AfterQueue(w, p, sid, aid, actor, token).h.held == w.h.held
  {
    EditedRow(w.st.rows, Reclaim(DeadOwners(w.st, p)), aid);
  }

  lemma LeakedStaysLeaked(w: World, e: Event, id: Id)
    requires Enabled(w, e) && id in w.h.leaked
    ensures id in Next(w, e).h.leaked
  {
    hide AdmissionRefusal, QueueRefusal, StartVerdict, EditAll, CommitRefusal, RowOf, PartlyRemoved;
    hide DeadOwners, DeadUploads, DeadParts;
  }

  lemma ReapLeavesPart(w: World, e: Event, id: Id)
    requires Enabled(w, e) && Reaps(e) && id in w.st.parts && RowOf(w.st.rows, id).None?
    ensures id in Next(w, e).st.parts
  {
    hide AdmissionRefusal, QueueRefusal, StartVerdict, EditAll, PartlyRemoved, DeadOwners, DeadUploads;
  }

  lemma OthersLeavePart(w: World, e: Event, id: Id)
    requires Enabled(w, e) && !Reaps(e) && id in w.st.parts
    requires w.h.uploads <= w.h.held && forall t | t in w.h.held :: t.lease.id != id
    ensures id in Next(w, e).st.parts
  {
    hide EditAll, CommitRefusal, RowOf, PartlyRemoved;
  }

  lemma NobodyHoldsIt(w: World, e: Event, id: Id)
    requires Enabled(w, e) && id in w.h.usedIds && forall t | t in w.h.held :: t.lease.id != id
    requires e.Queue? && e.aid == id ==> Next(w, e).h.held == w.h.held
    ensures forall t | t in Next(w, e).h.held :: t.lease.id != id
  {
    hide AdmissionRefusal, QueueRefusal, StartVerdict, EditAll, CommitRefusal, RowOf, PartlyRemoved;
    hide DeadOwners, DeadUploads, DeadParts;
  }

  lemma LeakedPartSurvives(w: World, e: Event, id: Id)
    requires Inv(w) && Enabled(w, e) && id in w.h.leaked && id in w.st.parts
    requires forall t | t in w.h.held :: t.lease.id != id
    ensures id in Next(w, e).h.leaked && id in Next(w, e).st.parts
    ensures forall t | t in Next(w, e).h.held :: t.lease.id != id
  {
    hide Enabled, Next, PartOk, DirOk, RowOk, TicketOk, ProcsOk;
    LeakedStaysLeaked(w, e, id);
    if Reaps(e) {
      ReapLeavesPart(w, e, id);
    } else {
      OthersLeavePart(w, e, id);
    }
    if e.Queue? && e.aid == id {
      QueueHoldsNothing(w, e, id);
    }
    NobodyHoldsIt(w, e, id);
  }

  lemma QueueHoldsNothing(w: World, e: Event, id: Id)
    requires Inv(w) && Enabled(w, e) && e.Queue? && e.aid == id && RowOf(w.st.rows, id).None?
    ensures Next(w, e).h.held == w.h.held
  {
    hide AfterQueue;
    QueueNeedsRow(w, e.p, e.sid, e.aid, e.actor, e.token);
  }
}
