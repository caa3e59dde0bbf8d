/** What every reachable world satisfies, proved event by event. */
module AttachmentInvariant {
  import opened Wrappers
  import opened ResourceTable
  import opened ProcessOwnership
  import opened ResourceTransactions
  import opened AttachmentRuns

  function LeaseOf(r: Row): Lease
    requires r.token.Some?
  {
    Lease(r.id, r.session, r.token.value)
  }

  /** Process p is up and its incarnation owns the row. */
  predicate OwnedBy(k: Locks, r: Row, p: ProcId) {
    Up(k, p) && r.owner.Owner? && r.owner.incarnation == k.procs[p].incarnation
  }

  ghost predicate RowOk(w: World, r: Row) {
    && r.id in w.h.usedIds
    && (r.token.Some? ==> r.token.value in w.h.grants && w.h.grants[r.token.value] == r.id)
    && (!r.retained ==> r.phase == Upload || r.phase == Running)
    && (r.phase != Idle ==> r.token.Some? && r.owner.Owner? && r.owner.incarnation in w.h.published)
    && (r.phase == Upload ==> r.token.value !in w.h.committed && r.token.value !in w.h.started)
    && (r.phase == Queued ==> r.token.value !in w.h.started)
    && (forall p | OwnedBy(w.st.locks, r, p) ::
          && (r.phase == Upload ==> Ticket(p, LeaseOf(r)) in w.h.uploads)
          && (r.phase == Running ==> Ticket(p, LeaseOf(r)) in w.h.workers))
  }

  ghost predicate RowsOk(w: World) {
    && Distinct(w.st.rows)
    && (forall id | RowOf(w.st.rows, id).Some? :: RowOk(w, RowOf(w.st.rows, id).value))
  }

  /** The row a held lease still names belongs to the holder. */
  ghost predicate TicketOk(w: World, t: Ticket) {
    && Up(w.st.locks, t.proc)
    && t.lease.token in w.h.grants && w.h.grants[t.lease.token] == t.lease.id
    && t.lease.id in w.h.usedIds
    && var found := RowOf(w.st.rows, t.lease.id);
    && (found.Some? && Holds(found.value, t.lease) && found.value.phase != Idle ==>
          && found.value.owner == OwnerOf(w.st.locks, t.proc)
          && w.st.locks.procs[t.proc].registered
          && found.value.session == t.lease.session)
    && (found.Some? && found.value.phase == Upload ==> Holds(found.value, t.lease))
    && (t in w.h.uploads ==> found.Some? && Holds(found.value, t.lease) && found.value.phase == Upload)
    && (t in w.h.workers ==> found.Some? && Holds(found.value, t.lease) && found.value.phase == Running)
  }

  ghost predicate TicketsOk(w: World) {
    && w.h.uploads <= w.h.held
    && w.h.workers <= w.h.held
    && (forall t | t in w.h.held :: TicketOk(w, t))
    && w.h.committed <= w.h.grants.Keys
    && w.h.started <= w.h.grants.Keys
  }

  /** A directory has a retained row that pays for its source, and was not deleted. */
  ghost predicate DirOk(w: World, d: Path)
    requires d in w.st.dirs
  {
    && d !in w.h.removed
    && var found := RowOf(w.st.rows, d.id);
    && found.Some?
    && PathOf(found.value) == d
    && found.value.retained
    && (w.st.dirs[d].source.Some? ==> w.st.dirs[d].source.value <= found.value.bytes)
    && (found.value.phase == Upload ==> forall p :: !OwnedBy(w.st.locks, found.value, p))
  }

  ghost predicate PartOk(w: World, id: Id)
    requires id in w.st.parts
  {
    id in w.h.leaked ||
    (RowOf(w.st.rows, id).Some? && RowOf(w.st.rows, id).value.phase == Upload &&
     w.st.parts[id] <= RowOf(w.st.rows, id).value.bytes)
  }

  ghost predicate FilesOk(w: World) {
    && (forall d | d in w.st.dirs :: DirOk(w, d))
    && (forall id | id in w.st.parts :: PartOk(w, id))
    && (forall id | id in w.h.leaked :: id in w.h.usedIds && RowOf(w.st.rows, id).None?)
    && (forall d | d in w.h.removed ::
          && d.id in w.h.usedIds
          && (RowOf(w.st.rows, d.id).Some? && RowOf(w.st.rows, d.id).value.session == d.session ==>
                !RowOf(w.st.rows, d.id).value.retained))
  }

  ghost predicate ProcsOk(w: World) {
    OwnershipOk(w.st.locks, w.h.usedIncs, w.h.published)
  }

  ghost predicate Inv(w: World) {
    RowsOk(w) && TicketsOk(w) && FilesOk(w) && ProcsOk(w)
  }

  /** Rows, tickets and processes do not depend on the files. */
  lemma OnlyFilesChanged(w: World, x: World)
    requires Inv(w)
    requires x.st.rows == w.st.rows && x.st.locks == w.st.locks
    requires x.h == w.h.(removed := x.h.removed, leaked := x.h.leaked)
    ensures RowsOk(x) && TicketsOk(x) && ProcsOk(x)
  {
    forall r: Row, q ensures OwnedBy(x.st.locks, r, q) == OwnedBy(w.st.locks, r, q) {}
    forall id | RowOf(x.st.rows, id).Some? ensures RowOk(x, RowOf(x.st.rows, id).value) {
      assert RowOk(w, RowOf(w.st.rows, id).value);
    }
    assert forall t | t in x.h.held :: TicketOk(w, t);
  }

  /** A directory stays in order while its row stays retained and pays no less. */
  lemma DirStays(w: World, x: World, d: Path)
    requires d in w.st.dirs && DirOk(w, d) && d in x.st.dirs && d !in x.h.removed
    requires x.st.dirs[d].source == w.st.dirs[d].source || x.st.dirs[d].source == None
    requires x.st.locks.procs == w.st.locks.procs
    requires RowOf(x.st.rows, d.id).Some?
    requires var r, r' := RowOf(w.st.rows, d.id).value, RowOf(x.st.rows, d.id).value;
             r'.session == r.session && r'.retained && r'.bytes >= r.bytes &&
             (r'.phase == Upload ==> r.phase == Upload && r'.owner == r.owner)
    ensures DirOk(x, d)
  {
    var r, r' := RowOf(w.st.rows, d.id).value, RowOf(x.st.rows, d.id).value;
    assert r'.phase == Upload ==> forall p :: OwnedBy(x.st.locks, r', p) == OwnedBy(w.st.locks, r, p);
  }

  /** A statement that deletes no retained row, lowers no retained row's bytes and leaves uploads alone. */
  ghost predicate SparesFiles(r: Row, e: Edit) {
    var after := Edited(e, r);
    && (r.retained ==>
          || after == Some(r)
          || (after.Some? && after.value.retained && after.value.bytes >= r.bytes && after.value.phase != Upload))
    && (r.phase == Upload ==> after == Some(r))
    && (!r.retained ==> after.None? || !after.value.retained)
    && (after.Some? ==> after.value.session == r.session)
  }

  lemma EditKeepsFiles(w: World, x: World, e: Edit)
    requires Inv(w)
    requires x.st == w.st.(rows := EditAll(w.st.rows, e))
    requires x.h.removed == w.h.removed && x.h.leaked == w.h.leaked && x.h.usedIds == w.h.usedIds
    requires forall id | RowOf(w.st.rows, id).Some? :: SparesFiles(RowOf(w.st.rows, id).value, e)
    ensures FilesOk(x)
  {
    forall d | d in x.st.dirs ensures DirOk(x, d) {
      assert DirOk(w, d);
      assert SparesFiles(RowOf(w.st.rows, d.id).value, e);
      EditedRow(w.st.rows, e, d.id);
      DirStays(w, x, d);
    }
    forall i | i in x.st.parts ensures PartOk(x, i) {
      assert PartOk(w, i);
      EditedRow(w.st.rows, e, i);
    }
    forall i | i in x.h.leaked ensures RowOf(x.st.rows, i).None? {
      EditedRow(w.st.rows, e, i);
    }
    forall d | d in x.h.removed
      ensures RowOf(x.st.rows, d.id).Some? && RowOf(x.st.rows, d.id).value.session == d.session ==>
                !RowOf(x.st.rows, d.id).value.retained
    {
      EditedRow(w.st.rows, e, d.id);
    }
  }

  // ----- the life of a process

  lemma InitialInv()
    ensures Inv(INITIAL)
  {
  }

  lemma ExitKeeps(w: World, p: ProcId)
    requires Inv(w)
    ensures Inv(AfterExit(w, p))
  {
    var x := AfterExit(w, p);
    forall r: Row | RowOk(w, r) ensures RowOk(x, r) {
      assert forall q | OwnedBy(x.st.locks, r, q) :: OwnedBy(w.st.locks, r, q);
    }
    assert forall t | t in x.h.held :: TicketOk(w, t);
    forall d | d in x.st.dirs ensures DirOk(x, d) {
      assert DirOk(w, d);
      assert forall q, r: Row | OwnedBy(x.st.locks, r, q) :: OwnedBy(w.st.locks, r, q);
    }
    assert forall id | id in x.st.parts :: PartOk(w, id);
  }

  /** A process with an incarnation nobody has seen owns nothing. */
  lemma NewcomerKeeps(w: World, x: World, p: ProcId)
    requires Inv(w)
    requires p in x.st.locks.procs && x.st == w.st.(locks := x.st.locks)
    requires x.st.locks == w.st.locks.(procs := w.st.locks.procs[p := x.st.locks.procs[p]])
    requires !Up(w.st.locks, p)
    requires x.h == w.h.(usedIncs := x.h.usedIncs)
    requires
      || (x.st.locks.procs[p].forking && x.h.usedIncs == w.h.usedIncs &&
          exists q :: q in w.st.locks.procs && w.st.locks.procs[q].registered == x.st.locks.procs[p].registered &&
               w.st.locks.procs[q].incarnation == x.st.locks.procs[p].incarnation)
      || (!x.st.locks.procs[p].forking && !x.st.locks.procs[p].registered &&
          x.st.locks.procs[p].incarnation !in w.h.usedIncs &&
          x.h.usedIncs == w.h.usedIncs + {x.st.locks.procs[p].incarnation})
    ensures Inv(x)
  {
    forall r: Row, q | (r.owner.Owner? ==> r.owner.incarnation in w.h.usedIncs) && OwnedBy(x.st.locks, r, q)
      ensures OwnedBy(w.st.locks, r, q)
    {
    }
    forall id | RowOf(x.st.rows, id).Some? ensures RowOk(x, RowOf(x.st.rows, id).value) {
      assert RowOk(w, RowOf(w.st.rows, id).value);
    }
    forall t | t in x.h.held ensures TicketOk(x, t) {
      assert TicketOk(w, t);
    }
    forall d | d in x.st.dirs ensures DirOk(x, d) {
      assert DirOk(w, d);
      assert RowOk(w, RowOf(w.st.rows, d.id).value);
    }
    assert forall id | id in x.st.parts :: PartOk(w, id);
  }

  // ----- reaping

  /** Files may disappear, and lock files of owners judged dead. */
  lemma LosingFilesKeeps(w: World, x: World, p: ProcId)
    requires Inv(w) && Up(w.st.locks, p)
    requires x.h == w.h && x.st.rows == w.st.rows && x.st.locks.procs == w.st.locks.procs
    requires x.st.dirs.Keys <= w.st.dirs.Keys && x.st.parts.Keys <= w.st.parts.Keys
    requires forall d | d in x.st.dirs :: x.st.dirs[d].source == w.st.dirs[d].source || x.st.dirs[d].source == None
    requires forall id | id in x.st.parts :: x.st.parts[id] == w.st.parts[id]
    requires Unlinked(w.st.locks, DeadOwners(w.st, p)).linked <= x.st.locks.linked <= w.st.locks.linked
    ensures Inv(x)
  {
    hide RowOf;
    forall r: Row, q ensures OwnedBy(x.st.locks, r, q) == OwnedBy(w.st.locks, r, q) {}
    forall q | q in w.st.locks.procs && w.st.locks.procs[q].registered
      ensures w.st.locks.procs[q].incarnation in x.st.locks.linked
    {
      assert LockHeld(w.st.locks, w.st.locks.procs[q].incarnation);
    }
    forall id | RowOf(x.st.rows, id).Some? ensures RowOk(x, RowOf(x.st.rows, id).value) {
      assert RowOk(w, RowOf(w.st.rows, id).value);
    }
    assert forall t | t in x.h.held :: TicketOk(w, t);
    forall d | d in x.st.dirs ensures DirOk(x, d) {
      assert DirOk(w, d);
    }
    assert forall id | id in x.st.parts :: PartOk(w, id);
  }

  lemma RollbackKeeps(w: World, p: ProcId)
    requires Inv(w) && Up(w.st.locks, p)
    ensures Inv(w.(st := ReapedAndRolledBack(w.st, p)))
  {
    LosingFilesKeeps(w, w.(st := ReapedAndRolledBack(w.st, p)), p);
  }

  /** No process that is up is ever judged dead. */
  lemma OwnerUpIsNotDead(w: World, p: ProcId, r: Row, q: ProcId)
    requires Inv(w) && Up(w.st.locks, p)
    requires RowOf(w.st.rows, r.id) == Some(r) && OwnedBy(w.st.locks, r, q)
    ensures r.owner !in DeadOwners(w.st, p)
  {
    forall s | s in w.st.rows && s.phase != Idle && s.owner == r.owner ensures OwnerAlive(w.st.locks, p, s.owner) {
      RowInTable(w.st.rows, s);
      assert RowOk(w, RowOf(w.st.rows, s.id).value);
      JudgedDeadIffGone(w.st.locks, w.h.usedIncs, w.h.published, p, s.owner.incarnation);
    }
  }

  lemma ReapKeepsRows(w: World, p: ProcId)
    requires Inv(w) && Up(w.st.locks, p)
    ensures RowsOk(AfterReap(w, p)) && TicketsOk(AfterReap(w, p))
  {
    var dead := DeadOwners(w.st, p);
    var x := AfterReap(w, p);
    EditActsPerRow(w.st.rows, Reclaim(dead));
    forall r: Row, q ensures OwnedBy(x.st.locks, r, q) == OwnedBy(w.st.locks, r, q) {}
    forall id | RowOf(x.st.rows, id).Some? ensures RowOk(x, RowOf(x.st.rows, id).value) {
      assert RowOk(w, RowOf(w.st.rows, id).value);
    }
    forall t | t in x.h.held ensures TicketOk(x, t) {
      assert TicketOk(w, t);
      var found := RowOf(w.st.rows, t.lease.id);
      if found.Some? && Holds(found.value, t.lease) && found.value.phase != Idle {
        OwnerUpIsNotDead(w, p, found.value, t.proc);
      }
    }
  }

  lemma ReapKeepsFiles(w: World, p: ProcId)
    requires Inv(w) && Up(w.st.locks, p)
    ensures FilesOk(AfterReap(w, p))
  {
    hide EditAll, RowOf, DeadOwners;
    var dead := DeadOwners(w.st, p);
    var x := AfterReap(w, p);
    forall d | d in x.st.dirs ensures DirOk(x, d) {
      ReapKeepsDir(w, p, d);
    }
    forall id | id in x.st.parts ensures PartOk(x, id) {
      assert PartOk(w, id);
      EditedRow(w.st.rows, Reclaim(dead), id);
      if id !in x.h.leaked {
        var r := RowOf(w.st.rows, id).value;
        assert r.owner in dead ==> id in DeadParts(w.st.rows, dead);
      }
    }
    forall id | id in x.h.leaked ensures RowOf(x.st.rows, id).None? {
      EditedRow(w.st.rows, Reclaim(dead), id);
    }
    forall d | d in x.h.removed
      ensures RowOf(x.st.rows, d.id).Some? && RowOf(x.st.rows, d.id).value.session == d.session ==>
                !RowOf(x.st.rows, d.id).value.retained
    {
      EditedRow(w.st.rows, Reclaim(dead), d.id);
    }
  }

  lemma ReapKeepsDir(w: World, p: ProcId, d: Path)
    requires Inv(w) && Up(w.st.locks, p) && d in AfterReap(w, p).st.dirs
    ensures DirOk(AfterReap(w, p), d)
  {
    hide EditAll, RowOf, DeadOwners;
    var dead := DeadOwners(w.st, p);
    var x := AfterReap(w, p);
    assert DirOk(w, d);
    EditedRow(w.st.rows, Reclaim(dead), d.id);
    var r := RowOf(w.st.rows, d.id).value;
    assert r.owner in dead && r.phase == Upload ==> d in DeadUploads(w.st.rows, dead);
    assert forall q :: OwnedBy(x.st.locks, r, q) == OwnedBy(w.st.locks, r, q);
  }

  lemma ReapKeeps(w: World, p: ProcId)
    requires Inv(w) && Up(w.st.locks, p)
    ensures Inv(AfterReap(w, p))
  {
    ReapKeepsRows(w, p);
    ReapKeepsFiles(w, p);
    RollbackKeeps(w, p);
  }
}
