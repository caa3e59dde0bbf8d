/** Every event keeps the invariant, so every run does. */
module AttachmentSteps {
  import opened Wrappers
  import opened ResourceTable
  import opened ProcessOwnership
  import opened ResourceTransactions
  import opened AttachmentRuns
  import opened AttachmentInvariant

  // ----- admission

  /** A process has drawn ids and a token, and has taken its lifetime lock. */
  function Drawn(w: World, p: ProcId, ids: set<Id>, token: Token, aid: Id): World
    requires p in w.st.locks.procs
  {
    World(w.st.(locks := Identified(w.st.locks, p)),
          w.h.(usedIds := w.h.usedIds + ids, grants := w.h.grants[token := aid],
               published := w.h.published + {w.st.locks.procs[p].incarnation}))
  }

  lemma OwnersStay(w: World, p: ProcId, ids: set<Id>, token: Token, aid: Id)
    requires p in w.st.locks.procs
    ensures forall r: Row, q :: OwnedBy(Drawn(w, p, ids, token, aid).st.locks, r, q) == OwnedBy(w.st.locks, r, q)
  {
  }

  lemma DrawnKeepsRows(w: World, p: ProcId, ids: set<Id>, token: Token, aid: Id)
    requires Inv(w) && Up(w.st.locks, p) && token !in w.h.grants
    ensures RowsOk(Drawn(w, p, ids, token, aid))
  {
    var x := Drawn(w, p, ids, token, aid);
    OwnersStay(w, p, ids, token, aid);
    hide OwnedBy, RowOf;
    forall i | RowOf(x.st.rows, i).Some? ensures RowOk(x, RowOf(x.st.rows, i).value) {
      assert RowOk(w, RowOf(w.st.rows, i).value);
    }
  }

  lemma DrawnKeepsTickets(w: World, p: ProcId, ids: set<Id>, token: Token, aid: Id)
    requires Inv(w) && Up(w.st.locks, p) && token !in w.h.grants
    ensures TicketsOk(Drawn(w, p, ids, token, aid))
  {
    hide RowOf, Holds;
    var x := Drawn(w, p, ids, token, aid);
    forall t | t in x.h.held ensures TicketOk(x, t) {
      assert TicketOk(w, t);
    }
  }

  lemma DrawnKeepsProcs(w: World, p: ProcId, ids: set<Id>, token: Token, aid: Id)
    requires ProcsOk(w) && Up(w.st.locks, p)
    ensures ProcsOk(Drawn(w, p, ids, token, aid))
  {
  }

  lemma IdentifiedKeeps(w: World, p: ProcId, ids: set<Id>, token: Token, aid: Id)
    requires Inv(w) && Up(w.st.locks, p) && token !in w.h.grants
    ensures Inv(Drawn(w, p, ids, token, aid))
  {
    DrawnKeepsRows(w, p, ids, token, aid);
    DrawnKeepsTickets(w, p, ids, token, aid);
    DrawnKeepsProcs(w, p, ids, token, aid);
    OwnersStay(w, p, ids, token, aid);
    hide RowsOk, TicketsOk, ProcsOk, OwnedBy, RowOf;
    var x := Drawn(w, p, ids, token, aid);
    assert forall d | d in x.st.dirs :: DirOk(w, d);
    assert forall i | i in x.st.parts :: PartOk(w, i);
  }

  lemma DrawingKeepsRows(w: World, ids: set<Id>, token: Token, aid: Id)
    requires Inv(w) && token !in w.h.grants
    ensures RowsOk(w.(h := w.h.(usedIds := w.h.usedIds + ids, grants := w.h.grants[token := aid])))
  {
    hide EditAll, RowOf, OwnedBy, LeaseOf;
    assert forall i | RowOf(w.st.rows, i).Some? :: RowOk(w, RowOf(w.st.rows, i).value);
  }

  lemma DrawingKeepsTickets(w: World, ids: set<Id>, token: Token, aid: Id)
    requires Inv(w) && token !in w.h.grants
    ensures TicketsOk(w.(h := w.h.(usedIds := w.h.usedIds + ids, grants := w.h.grants[token := aid])))
  {
    hide EditAll, RowOf, OwnedBy, LeaseOf, Holds;
    assert forall t | t in w.h.held :: TicketOk(w, t);
  }

  lemma DrawingKeeps(w: World, ids: set<Id>, token: Token, aid: Id)
    requires Inv(w) && token !in w.h.grants
    ensures Inv(w.(h := w.h.(usedIds := w.h.usedIds + ids, grants := w.h.grants[token := aid])))
  {
    DrawingKeepsRows(w, ids, token, aid);
    DrawingKeepsTickets(w, ids, token, aid);
    hide RowOf, OwnedBy, RowsOk, TicketsOk;
    var x := w.(h := w.h.(usedIds := w.h.usedIds + ids, grants := w.h.grants[token := aid]));
    assert forall d | d in x.st.dirs :: DirOk(w, d);
    assert forall i | i in x.st.parts :: PartOk(w, i);
  }

  lemma AdmitKeeps(w: World, p: ProcId, a: Admission)
    requires Inv(w) && Up(w.st.locks, p) && w.st.locks.procs[p].registered
    requires w.st.locks.procs[p].incarnation in w.h.published
    requires RowOf(w.st.rows, a.id).None? && a.id in w.h.usedIds && a.id !in w.h.leaked
    requires forall d | d in w.h.removed :: d.id != a.id
    requires a.token in w.h.grants && w.h.grants[a.token] == a.id
    requires a.token !in w.h.committed && a.token !in w.h.started
    requires forall t | t in w.h.held :: t.lease.token != a.token && t.lease.id != a.id
    ensures var t := Ticket(p, Lease(a.id, a.session, a.token));
            Inv(World(w.st.(rows := w.st.rows + [AdmittedRow(a, OwnerOf(w.st.locks, p))]),
                      w.h.(held := w.h.held + {t}, uploads := w.h.uploads + {t})))
  {
    hide RowOf;
    var row := AdmittedRow(a, OwnerOf(w.st.locks, p));
    var ticket := Ticket(p, Lease(a.id, a.session, a.token));
    var x := World(w.st.(rows := w.st.rows + [row]),
                   w.h.(held := w.h.held + {ticket}, uploads := w.h.uploads + {ticket}));
    AppendActsPerRow(w.st.rows, row);
    forall r: Row, q ensures OwnedBy(x.st.locks, r, q) == OwnedBy(w.st.locks, r, q) {}
    forall i | RowOf(x.st.rows, i).Some? ensures RowOk(x, RowOf(x.st.rows, i).value) {
      if i != a.id {
        assert RowOk(w, RowOf(w.st.rows, i).value);
      }
    }
    forall t | t in x.h.held ensures TicketOk(x, t) {
      if t != ticket {
        assert TicketOk(w, t);
      }
    }
    assert forall d | d in x.st.dirs :: DirOk(w, d);
    assert forall i | i in x.st.parts :: PartOk(w, i);
  }

  lemma ReserveKeeps(w: World, p: ProcId, a: Admission)
    requires Inv(w) && Enabled(w, Reserve(p, a))
    ensures Inv(AfterReserve(w, p, a))
  {
    if Reserved(w.st, p, a).1.Failure? {
      RollbackKeeps(w, p);
      DrawingKeeps(w, {a.id}, a.token, a.id);
      DrawingKeeps(w.(st := ReapedAndRolledBack(w.st, p)), {a.id}, a.token, a.id);
    } else {
      var y := AfterReap(w, p);
      ReapKeeps(w, p);
      assert RowOf(y.st.rows, a.id).None? by {
        assert RowOf(y.st.rows, a.id).Some? ==> RowOk(y, RowOf(y.st.rows, a.id).value);
      }
      IdentifiedKeeps(y, p, {a.id}, a.token, a.id);
      assert forall t | t in y.h.held :: TicketOk(y, t);
      var z := World(y.st.(locks := Identified(y.st.locks, p)),
                     y.h.(usedIds := y.h.usedIds + {a.id}, grants := y.h.grants[a.token := a.id],
                          published := y.h.published + {y.st.locks.procs[p].incarnation}));
      AdmitKeeps(z, p, a);
    }
  }

  // ----- the upload

  lemma WriteKeeps(w: World, p: ProcId, lease: Lease, size: nat)
    requires Inv(w) && Enabled(w, WritePart(p, lease, size))
    ensures Inv(AfterWrite(w, lease, size))
  {
    hide RowOf;
    var x := AfterWrite(w, lease, size);
    OnlyFilesChanged(w, x);
    assert TicketOk(w, Ticket(p, lease));
    assert forall d | d in x.st.dirs :: DirOk(w, d);
    assert forall i | i in x.st.parts && i != lease.id :: PartOk(w, i);
  }

  /** The row of an open upload: it is the lease's, and no directory exists for it. */
  lemma OpenUpload(w: World, p: ProcId, lease: Lease)
    requires Inv(w) && Ticket(p, lease) in w.h.uploads
    ensures RowOf(w.st.rows, lease.id).Some?
    ensures var r := RowOf(w.st.rows, lease.id).value;
            && Holds(r, lease) && r.phase == Upload && r.session == lease.session && OwnedBy(w.st.locks, r, p)
    ensures Path(lease.session, lease.id) !in w.st.dirs
    ensures lease.token !in w.h.committed && lease.token !in w.h.started
  {
    var r := RowOf(w.st.rows, lease.id).value;
    assert TicketOk(w, Ticket(p, lease));
    assert RowOk(w, r);
    assert OwnedBy(w.st.locks, r, p);
    assert Path(lease.session, lease.id) in w.st.dirs ==> DirOk(w, Path(lease.session, lease.id));
  }

  /** Nobody else holds a lease on a row that is in use. */
  lemma OneHolder(w: World, t: Ticket, u: Ticket)
    requires Inv(w) && t in w.h.held && u in w.h.held
    requires RowOf(w.st.rows, t.lease.id).Some?
    requires RowOf(w.st.rows, t.lease.id).value.phase != Idle
    requires Holds(RowOf(w.st.rows, t.lease.id).value, t.lease) && Holds(RowOf(w.st.rows, t.lease.id).value, u.lease)
    ensures t == u
  {
    assert TicketOk(w, t) && TicketOk(w, u);
  }

  lemma CancelKeepsRows(w: World, p: ProcId, lease: Lease)
    requires Inv(w) && Ticket(p, lease) in w.h.held
    ensures RowsOk(AfterAbort(w, p, lease))
  {
    var x := AfterAbort(w, p, lease);
    EditActsPerRow(w.st.rows, Cancel(lease));
    forall r: Row, q ensures OwnedBy(x.st.locks, r, q) == OwnedBy(w.st.locks, r, q) {}
    assert TicketOk(w, Ticket(p, lease));
    forall i | RowOf(x.st.rows, i).Some? ensures RowOk(x, RowOf(x.st.rows, i).value) {
      assert RowOk(w, RowOf(w.st.rows, i).value);
    }
  }

  lemma CancelKeepsTickets(w: World, p: ProcId, lease: Lease)
    requires Inv(w) && Ticket(p, lease) in w.h.held
    ensures TicketsOk(AfterAbort(w, p, lease))
  {
    var x := AfterAbort(w, p, lease);
    EditActsPerRow(w.st.rows, Cancel(lease));
    forall t | t in x.h.held ensures TicketOk(x, t) {
      assert TicketOk(w, t);
      if t in x.h.uploads && Holds(RowOf(w.st.rows, t.lease.id).value, lease) {
        OneHolder(w, t, Ticket(p, lease));
      }
    }
  }

  lemma CancelKeepsFiles(w: World, p: ProcId, lease: Lease)
    requires Inv(w) && Ticket(p, lease) in w.h.held
    ensures FilesOk(AfterAbort(w, p, lease))
  {
    var x := AfterAbort(w, p, lease);
    assert TicketOk(w, Ticket(p, lease));
    forall d | d in x.st.dirs ensures DirOk(x, d) {
      assert DirOk(w, d);
      EditedRow(w.st.rows, Cancel(lease), d.id);
      var r := RowOf(w.st.rows, d.id).value;
      assert Holds(r, lease) && r.phase == Upload ==> OwnedBy(w.st.locks, r, p);
      DirStays(w, x, d);
    }
    forall i | i in x.st.parts ensures PartOk(x, i) {
      assert PartOk(w, i);
      EditedRow(w.st.rows, Cancel(lease), i);
    }
    forall i ensures RowOf(w.st.rows, i).None? ==> RowOf(x.st.rows, i).None? {
      EditedRow(w.st.rows, Cancel(lease), i);
    }
    forall i | RowOf(x.st.rows, i).Some? ensures RowOf(x.st.rows, i) == RowOf(w.st.rows, i) {
      EditedRow(w.st.rows, Cancel(lease), i);
    }
  }

  lemma CancelKeeps(w: World, p: ProcId, lease: Lease)
    requires Inv(w) && Ticket(p, lease) in w.h.held
    ensures Inv(AfterAbort(w, p, lease))
  {
    CancelKeepsRows(w, p, lease);
    CancelKeepsTickets(w, p, lease);
    CancelKeepsFiles(w, p, lease);
  }

  /** The part survives the row when the process dies between the transaction and the unlink. */
  lemma AbortCrashKeeps(w: World, p: ProcId, lease: Lease)
    requires Inv(w) && Ticket(p, lease) in w.h.uploads
    ensures Inv(AfterAbortCrash(w, p, lease))
  {
    hide EditAll, RowOf;
    OpenUpload(w, p, lease);
    CancelKeeps(w, p, lease);
    var y := AfterAbort(w, p, lease);
    ExitKeeps(y, p);
    var z := AfterExit(y, p);
    var x := AfterAbortCrash(w, p, lease);
    EditActsPerRow(w.st.rows, Cancel(lease));
    assert x.h.uploads == z.h.uploads;
    OnlyFilesChanged(z, x);
    assert RowOk(w, RowOf(w.st.rows, lease.id).value);
    assert forall d | d in x.st.dirs :: DirOk(z, d);
    forall i | i in x.st.parts ensures PartOk(x, i) {
      if i != lease.id {
        assert PartOk(z, i);
      }
    }
  }

  lemma AcceptedCommitKeepsRows(w: World, p: ProcId, lease: Lease, filename: string, size: nat)
    requires Inv(w) && Ticket(p, lease) in w.h.uploads
    requires CommitRefusal(w.st, lease, size, true).None?
    ensures var x := AfterCommit(w, p, lease, filename, size, true);
            RowsOk(x) && TicketsOk(x)
  {
    OpenUpload(w, p, lease);
    var x := AfterCommit(w, p, lease, filename, size, true);
    EditActsPerRow(w.st.rows, Publish(lease, size));
    forall i | RowOf(x.st.rows, i).Some? ensures RowOk(x, RowOf(x.st.rows, i).value) {
      assert RowOk(w, RowOf(w.st.rows, i).value);
    }
    forall t | t in x.h.held ensures TicketOk(x, t) {
      assert TicketOk(w, t);
      if t in x.h.uploads && t.lease.id == lease.id {
        OneHolder(w, t, Ticket(p, lease));
      }
    }
  }

  lemma AcceptedCommitKeepsDir(w: World, p: ProcId, lease: Lease, filename: string, size: nat, d: Path)
    requires Inv(w) && Ticket(p, lease) in w.h.uploads
    requires CommitRefusal(w.st, lease, size, true).None?
    requires d in AfterCommit(w, p, lease, filename, size, true).st.dirs
    ensures DirOk(AfterCommit(w, p, lease, filename, size, true), d)
  {
    OpenUpload(w, p, lease);
    hide EditAll, RowOf;
    EditedRow(w.st.rows, Publish(lease, size), d.id);
    if d != Path(lease.session, lease.id) {
      assert DirOk(w, d);
      DirStays(w, AfterCommit(w, p, lease, filename, size, true), d);
    }
  }

  lemma AcceptedCommitKeepsFiles(w: World, p: ProcId, lease: Lease, filename: string, size: nat)
    requires Inv(w) && Ticket(p, lease) in w.h.uploads
    requires CommitRefusal(w.st, lease, size, true).None?
    ensures FilesOk(AfterCommit(w, p, lease, filename, size, true))
  {
    var e := Publish(lease, size);
    var x := AfterCommit(w, p, lease, filename, size, true);
    hide EditAll, RowOf, DirOk;
    forall d | d in x.st.dirs ensures DirOk(x, d) {
      AcceptedCommitKeepsDir(w, p, lease, filename, size, d);
    }
    forall i | i in x.st.parts ensures PartOk(x, i) {
      assert PartOk(w, i);
      EditedRow(w.st.rows, e, i);
    }
    forall d | d in x.h.removed
      ensures RowOf(x.st.rows, d.id).Some? && RowOf(x.st.rows, d.id).value.session == d.session ==>
                !RowOf(x.st.rows, d.id).value.retained
    {
      EditedRow(w.st.rows, e, d.id);
    }
    forall i | i in x.h.leaked ensures RowOf(x.st.rows, i).None? {
      EditedRow(w.st.rows, e, i);
    }
  }

  lemma AcceptedCommitKeeps(w: World, p: ProcId, lease: Lease, filename: string, size: nat)
    requires Inv(w) && Ticket(p, lease) in w.h.uploads
    requires CommitRefusal(w.st, lease, size, true).None?
    ensures Inv(AfterCommit(w, p, lease, filename, size, true))
  {
    AcceptedCommitKeepsRows(w, p, lease, filename, size);
    AcceptedCommitKeepsFiles(w, p, lease, filename, size);
  }

  /** The clean-up of a refused commit finds no directory to remove: what it does is the abort, so
      it makes no difference what happens between its steps. */
  lemma RefusedCommitIsAbort(w: World, p: ProcId, lease: Lease, filename: string, size: nat, checkPasses: bool)
    requires Inv(w) && Ticket(p, lease) in w.h.uploads
    requires CommitRefusal(w.st, lease, size, checkPasses).Some?
    ensures Path(lease.session, lease.id) !in w.st.dirs
    ensures AfterCommit(w, p, lease, filename, size, checkPasses) == AfterAbort(w, p, lease)
  {
    OpenUpload(w, p, lease);
    assert w.st.dirs - {Path(lease.session, lease.id)} == w.st.dirs;
  }

  /** When publish() fails on the disk, at whatever point, and the process lives, the clean-up leaves what
      an abort of the upload leaves: in a run such a commit is an Abort event. */
  lemma FailedPublishIsAbort(w: World, p: ProcId, lease: Lease, filename: string, size: nat, reached: Progress)
    requires Inv(w) && Ticket(p, lease) in w.h.uploads && CommitRefusal(w.st, lease, size, true).None?
    ensures var failed := w.(st := Published(w.st, lease, filename, size, reached));
      && Path(lease.session, lease.id) in failed.st.dirs
      && World(CleanedUp(failed.st, lease), w.h.(uploads := w.h.uploads - {Ticket(p, lease)}))
         == AfterAbort(w, p, lease)
  {
    hide EditAll, RowOf;
    var failed := Published(w.st, lease, filename, size, reached);
    assert failed.dirs - {Path(lease.session, lease.id)} == w.st.dirs;
    assert failed.parts - {lease.id} == w.st.parts - {lease.id};
  }

  lemma CommitKeeps(w: World, p: ProcId, lease: Lease, filename: string, size: nat, checkPasses: bool)
    requires Inv(w) && Ticket(p, lease) in w.h.uploads
    ensures Inv(AfterCommit(w, p, lease, filename, size, checkPasses))
  {
    if CommitRefusal(w.st, lease, size, checkPasses).None? {
      AcceptedCommitKeeps(w, p, lease, filename, size);
    } else {
      RefusedCommitIsAbort(w, p, lease, filename, size, checkPasses);
      CancelKeeps(w, p, lease);
    }
  }

  /** A lease that is no open upload any more, or never was one, is refused. */
  lemma OtherLeaseIsRefused(w: World, p: ProcId, lease: Lease, size: nat, checkPasses: bool)
    requires Inv(w) && Ticket(p, lease) in w.h.held - w.h.uploads
    ensures CommitRefusal(w.st, lease, size, checkPasses) == Some(Cancelled)
  {
    assert TicketOk(w, Ticket(p, lease));
    if RowOf(w.st.rows, lease.id).Some? {
      var r := RowOf(w.st.rows, lease.id).value;
      assert RowOk(w, r);
      if Holds(r, lease) && r.session == lease.session {
        assert LeaseOf(r) == lease;
      }
      assert Holds(r, lease) && r.phase == Upload ==> OwnedBy(w.st.locks, r, p);
    }
  }

  /** A crash between publish() and the commit leaves a directory on an upload row nobody owns any more. */
  lemma CommitCrashKeeps(w: World, p: ProcId, lease: Lease, filename: string, size: nat, reached: Progress)
    requires Inv(w) && Enabled(w, CommitCrash(p, lease, filename, size, reached))
    ensures Inv(AfterCommitCrash(w, p, lease, filename, size, reached))
  {
    hide EditAll;
    hide EditAll, RowOf, Use;
    OpenUpload(w, p, lease);
    ExitKeeps(w, p);
    var z := AfterExit(w, p);
    var x := AfterCommitCrash(w, p, lease, filename, size, reached);
    OnlyFilesChanged(z, x);
    var here := Path(lease.session, lease.id);
    var r := RowOf(w.st.rows, lease.id).value;
    forall q ensures !OwnedBy(x.st.locks, r, q) {
      assert OwnedBy(w.st.locks, r, p);
      assert q != p && Up(w.st.locks, q) ==> w.st.locks.procs[q].incarnation != w.st.locks.procs[p].incarnation;
    }
    forall d | d in x.st.dirs ensures DirOk(x, d) {
      if d != here {
        assert DirOk(z, d);
        DirStays(z, x, d);
      }
    }
    assert forall i | i in x.st.parts :: PartOk(z, i);
  }

  // ----- the parse job

  lemma EnqueueKeepsRows(w: World, p: ProcId, sid: string, aid: Id, actor: string, token: Token)
    requires Inv(w) && Up(w.st.locks, p) && w.st.locks.procs[p].registered
    requires w.st.locks.procs[p].incarnation in w.h.published
    requires QueueRefusal(w.st.rows, sid, aid, actor).None?
    requires token in w.h.grants && w.h.grants[token] == aid && token !in w.h.committed && token !in w.h.started
    requires forall t | t in w.h.held :: t.lease.token != token
    ensures var x := World(w.st.(rows := EditAll(w.st.rows, Enqueue(aid, actor, OwnerOf(w.st.locks, p), token))),
                           w.h.(held := w.h.held + {Ticket(p, Lease(aid, sid, token))}));
            RowsOk(x) && TicketsOk(x)
  {
    hide RowOf, EditAll;
    var e := Enqueue(aid, actor, OwnerOf(w.st.locks, p), token);
    var ticket := Ticket(p, Lease(aid, sid, token));
    var x := World(w.st.(rows := EditAll(w.st.rows, e)), w.h.(held := w.h.held + {ticket}));
    EditActsPerRow(w.st.rows, e);
    assert RowOk(w, RowOf(w.st.rows, aid).value);
    forall i | RowOf(x.st.rows, i).Some? ensures RowOk(x, RowOf(x.st.rows, i).value) {
      assert RowOk(w, RowOf(w.st.rows, i).value);
    }
    forall t | t in x.h.held ensures TicketOk(x, t) {
      assert t != ticket ==> TicketOk(w, t);
    }
  }

  lemma EnqueueKeeps(w: World, p: ProcId, sid: string, aid: Id, actor: string, token: Token)
    requires Inv(w) && Up(w.st.locks, p) && w.st.locks.procs[p].registered
    requires w.st.locks.procs[p].incarnation in w.h.published
    requires QueueRefusal(w.st.rows, sid, aid, actor).None?
    requires token in w.h.grants && w.h.grants[token] == aid && token !in w.h.committed && token !in w.h.started
    requires forall t | t in w.h.held :: t.lease.token != token
    ensures Inv(World(w.st.(rows := EditAll(w.st.rows, Enqueue(aid, actor, OwnerOf(w.st.locks, p), token))),
                      w.h.(held := w.h.held + {Ticket(p, Lease(aid, sid, token))})))
  {
    var e := Enqueue(aid, actor, OwnerOf(w.st.locks, p), token);
    EnqueueKeepsRows(w, p, sid, aid, actor, token);
    EditKeepsFiles(w, World(w.st.(rows := EditAll(w.st.rows, e)),
                            w.h.(held := w.h.held + {Ticket(p, Lease(aid, sid, token))})), e);
  }

  lemma QueueGrantedKeeps(y: World, p: ProcId, sid: string, aid: Id, actor: string, token: Token)
    requires Inv(y) && Up(y.st.locks, p) && token !in y.h.grants
    requires QueueRefusal(y.st.rows, sid, aid, actor).None?
    ensures Inv(World(y.st.(rows := EditAll(y.st.rows, Enqueue(aid, actor, OwnerOf(y.st.locks, p), token)),
                            locks := Identified(y.st.locks, p)),
                      y.h.(grants := y.h.grants[token := aid], held := y.h.held + {Ticket(p, Lease(aid, sid, token))},
                           published := y.h.published + {y.st.locks.procs[p].incarnation})))
  {
    IdentifiedKeeps(y, p, {}, token, aid);
    assert forall t | t in y.h.held :: TicketOk(y, t);
    assert y.h.usedIds + {} == y.h.usedIds;
    var z := World(y.st.(locks := Identified(y.st.locks, p)),
                   y.h.(grants := y.h.grants[token := aid],
                        published := y.h.published + {y.st.locks.procs[p].incarnation}));
    EnqueueKeeps(z, p, sid, aid, actor, token);
  }

  lemma QueueKeeps(w: World, p: ProcId, sid: string, aid: Id, actor: string, token: Token)
    requires Inv(w) && Enabled(w, Queue(p, sid, aid, actor, token))
    ensures Inv(AfterQueue(w, p, sid, aid, actor, token))
  {
    if QueuedFor(w.st, p, sid, aid, actor, token).1.Failure? {
      RollbackKeeps(w, p);
      assert w.h.usedIds + {} == w.h.usedIds;
      DrawingKeeps(w.(st := ReapedAndRolledBack(w.st, p)), {}, token, aid);
    } else {
      ReapKeeps(w, p);
      QueueGrantedKeeps(AfterReap(w, p), p, sid, aid, actor, token);
    }
  }

  lemma StartKeepsRows(w: World, p: ProcId, lease: Lease)
    requires Inv(w) && Ticket(p, lease) in w.h.held - w.h.uploads
    requires StartVerdict(w.st.rows, lease) == Started
    ensures var x := World(w.st.(rows := EditAll(w.st.rows, Start(lease.id))),
                           w.h.(workers := w.h.workers + {Ticket(p, lease)}, started := w.h.started + {lease.token}));
            RowsOk(x) && TicketsOk(x)
  {
    hide RowOf, EditAll, Use;
    var ticket := Ticket(p, lease);
    var x := World(w.st.(rows := EditAll(w.st.rows, Start(lease.id))),
                   w.h.(workers := w.h.workers + {ticket}, started := w.h.started + {lease.token}));
    EditActsPerRow(w.st.rows, Start(lease.id));
    assert TicketOk(w, ticket);
    forall i | RowOf(x.st.rows, i).Some? ensures RowOk(x, RowOf(x.st.rows, i).value) {
      assert RowOk(w, RowOf(w.st.rows, i).value);
    }
    forall t | t in x.h.held ensures TicketOk(x, t) {
      assert TicketOk(w, t);
    }
  }

  lemma StartKeeps(w: World, p: ProcId, lease: Lease)
    requires Inv(w) && Ticket(p, lease) in w.h.held - w.h.uploads
    requires StartVerdict(w.st.rows, lease) == Started
    ensures Inv(World(w.st.(rows := EditAll(w.st.rows, Start(lease.id))),
                      w.h.(workers := w.h.workers + {Ticket(p, lease)}, started := w.h.started + {lease.token})))
  {
    StartKeepsRows(w, p, lease);
    EditKeepsFiles(w, World(w.st.(rows := EditAll(w.st.rows, Start(lease.id))),
                            w.h.(workers := w.h.workers + {Ticket(p, lease)}, started := w.h.started + {lease.token})),
                   Start(lease.id));
  }

  lemma TryStartKeeps(w: World, p: ProcId, lease: Lease)
    requires Inv(w) && Enabled(w, TryStart(p, lease))
    ensures Inv(AfterTryStart(w, p, lease))
  {
    ReapKeeps(w, p);
    if TriedToStart(w.st, p, lease).1 == Started {
      StartKeeps(AfterReap(w, p), p, lease);
    }
  }

  lemma FinishKeepsRows(w: World, p: ProcId, lease: Lease)
    requires Inv(w) && Ticket(p, lease) in w.h.held - w.h.uploads
    ensures RowsOk(AfterFinish(w, p, lease))
  {
    hide EditAll, RowOf;
    var x := AfterFinish(w, p, lease);
    DistinctAfterEdit(w.st.rows, Release(lease));
    assert TicketOk(w, Ticket(p, lease));
    forall i | RowOf(x.st.rows, i).Some? ensures RowOk(x, RowOf(x.st.rows, i).value) {
      EditedRow(w.st.rows, Release(lease), i);
      assert RowOk(w, RowOf(w.st.rows, i).value);
    }
  }

  lemma FinishKeepsTickets(w: World, p: ProcId, lease: Lease)
    requires Inv(w) && Ticket(p, lease) in w.h.held - w.h.uploads
    ensures TicketsOk(AfterFinish(w, p, lease))
  {
    var x := AfterFinish(w, p, lease);
    forall t | t in x.h.held ensures TicketOk(x, t) {
      assert TicketOk(w, t);
      EditedRow(w.st.rows, Release(lease), t.lease.id);
      if t in x.h.workers + x.h.uploads && Holds(RowOf(w.st.rows, t.lease.id).value, lease) {
        OneHolder(w, t, Ticket(p, lease));
      }
    }
  }

  lemma FinishKeeps(w: World, p: ProcId, lease: Lease)
    requires Inv(w) && Ticket(p, lease) in w.h.held - w.h.uploads
    ensures Inv(AfterFinish(w, p, lease))
  {
    var e := Release(lease);
    FinishKeepsRows(w, p, lease);
    FinishKeepsTickets(w, p, lease);
    FinishKeepsUploadRows(w, p, lease);
    forall id | RowOf(w.st.rows, id).Some? ensures SparesFiles(RowOf(w.st.rows, id).value, e) {
      assert RowOk(w, RowOf(w.st.rows, id).value);
    }
    EditKeepsFiles(w, AfterFinish(w, p, lease), e);
  }

  /** The row of an upload is never the row of somebody's finished job. */
  lemma FinishKeepsUploadRows(w: World, p: ProcId, lease: Lease)
    requires Inv(w) && Ticket(p, lease) in w.h.held - w.h.uploads
    ensures forall id | RowOf(w.st.rows, id).Some? && RowOf(w.st.rows, id).value.phase == Upload ::
              Edited(Release(lease), RowOf(w.st.rows, id).value) == RowOf(w.st.rows, id)
  {
    assert TicketOk(w, Ticket(p, lease));
    forall id | RowOf(w.st.rows, id).Some? && RowOf(w.st.rows, id).value.phase == Upload
      ensures Edited(Release(lease), RowOf(w.st.rows, id).value) == RowOf(w.st.rows, id)
    {
      var r := RowOf(w.st.rows, id).value;
      assert RowOk(w, r);
      assert Holds(r, lease) ==> OwnedBy(w.st.locks, r, p) && LeaseOf(r) == lease;
    }
  }

  // ----- delete

  lemma DeleteKeepsRows(w: World, sid: string, target: Option<Id>)
    requires Inv(w)
    ensures RowsOk(AfterDelete(w, sid, target))
  {
    hide EditAll, RowOf;
    var x := AfterDelete(w, sid, target);
    var e := Forget(sid, target);
    DistinctAfterEdit(w.st.rows, e);
    forall i | RowOf(x.st.rows, i).Some? ensures RowOk(x, RowOf(x.st.rows, i).value) {
      EditedRow(w.st.rows, e, i);
      var r, r' := RowOf(w.st.rows, i).value, RowOf(x.st.rows, i).value;
      assert RowOk(w, r);
      assert forall q :: OwnedBy(x.st.locks, r', q) == OwnedBy(w.st.locks, r, q);
    }
  }

  lemma DeleteKeepsTickets(w: World, sid: string, target: Option<Id>)
    requires Inv(w)
    ensures TicketsOk(AfterDelete(w, sid, target))
  {
    hide EditAll, RowOf;
    var x := AfterDelete(w, sid, target);
    forall t | t in x.h.held ensures TicketOk(x, t) {
      assert TicketOk(w, t);
      EditedRow(w.st.rows, Forget(sid, target), t.lease.id);
    }
  }

  lemma DeleteKeepsDir(w: World, sid: string, target: Option<Id>, d: Path)
    requires Distinct(w.st.rows) && d in w.st.dirs && DirOk(w, d)
    requires d !in TargetPaths(w.st, sid, target)
    ensures d in AfterDelete(w, sid, target).st.dirs && DirOk(AfterDelete(w, sid, target), d)
  {
    hide EditAll, Use;
    EditedRow(w.st.rows, Forget(sid, target), d.id);
    DirStays(w, AfterDelete(w, sid, target), d);
  }

  lemma DeleteKeepsRemoved(w: World, sid: string, target: Option<Id>, d: Path)
    requires Inv(w) && d in AfterDelete(w, sid, target).h.removed
    ensures d.id in w.h.usedIds
    ensures var after := RowOf(AfterDelete(w, sid, target).st.rows, d.id);
            after.Some? && after.value.session == d.session ==> !after.value.retained
  {
    hide RowOf, EditAll, DirOk, PartOk;
    EditedRow(w.st.rows, Forget(sid, target), d.id);
    if d in CoveredPaths(w.st, sid, target) {
      CoveredRow(w, sid, target, d);
    }
  }

  lemma DeleteKeepsPart(w: World, sid: string, target: Option<Id>, i: Id)
    requires Inv(w)
    ensures var x := AfterDelete(w, sid, target);
      && (i in x.st.parts ==> PartOk(x, i))
      && (i in x.h.leaked ==> RowOf(x.st.rows, i).None?)
  {
    hide EditAll, RowOf;
    EditedRow(w.st.rows, Forget(sid, target), i);
    assert i in w.st.parts ==> PartOk(w, i);
  }

  lemma DeleteKeepsFiles(w: World, sid: string, target: Option<Id>)
    requires Inv(w)
    ensures FilesOk(AfterDelete(w, sid, target))
  {
    hide EditAll, Use, RowOf, DirOk, PartOk;
    var x := AfterDelete(w, sid, target);
    forall d | d in x.st.dirs ensures DirOk(x, d) {
      assert DirOk(w, d);
      DeleteKeepsDir(w, sid, target, d);
    }
    forall i | i in x.st.parts || i in x.h.leaked
      ensures i in x.st.parts ==> PartOk(x, i)
      ensures i in x.h.leaked ==> RowOf(x.st.rows, i).None?
    {
      DeleteKeepsPart(w, sid, target, i);
    }
    forall d | d in x.h.removed
      ensures d.id in x.h.usedIds
      ensures RowOf(x.st.rows, d.id).Some? && RowOf(x.st.rows, d.id).value.session == d.session ==>
                !RowOf(x.st.rows, d.id).value.retained
    {
      DeleteKeepsRemoved(w, sid, target, d);
    }
  }

  lemma DeleteKeeps(w: World, sid: string, target: Option<Id>)
    requires Inv(w)
    ensures Inv(AfterDelete(w, sid, target))
  {
    DeleteKeepsRows(w, sid, target);
    DeleteKeepsTickets(w, sid, target);
    DeleteKeepsFiles(w, sid, target);
  }

  lemma CoveredRow(w: World, sid: string, target: Option<Id>, d: Path)
    requires Inv(w) && d in CoveredPaths(w.st, sid, target)
    ensures RowOf(w.st.rows, d.id).Some? && PathOf(RowOf(w.st.rows, d.id).value) == d
    ensures Matches(RowOf(w.st.rows, d.id).value, sid, target) && d.id in w.h.usedIds
  {
    if d in TargetPaths(w.st, sid, target) {
      assert DirOk(w, d);
    } else {
      var r :| r in w.st.rows && Matches(r, sid, target) && PathOf(r) == d;
      RowInTable(w.st.rows, r);
    }
    assert RowOk(w, RowOf(w.st.rows, d.id).value);
  }

  // ----- files, and transactions cut short

  lemma PutKeeps(w: World, d: Path, dir: Directory)
    requires Inv(w) && d in w.st.dirs && dir.source == w.st.dirs[d].source
    ensures Inv(w.(st := w.st.(dirs := w.st.dirs[d := dir])))
  {
    hide RowOf, EditAll;
    var x := w.(st := w.st.(dirs := w.st.dirs[d := dir]));
    OnlyFilesChanged(w, x);
    forall c | c in x.st.dirs ensures DirOk(x, c) {
      assert DirOk(w, c);
      DirStays(w, x, c);
    }
    assert forall i | i in x.st.parts :: PartOk(w, i);
  }

  lemma FilesCrashKeeps(w: World, p: ProcId, x: World)
    requires Inv(w) && Up(w.st.locks, p)
    requires x.h == w.h && x.st.rows == w.st.rows && x.st.locks.procs == w.st.locks.procs
    requires x.st.dirs.Keys <= w.st.dirs.Keys && x.st.parts.Keys <= w.st.parts.Keys
    requires forall d | d in x.st.dirs :: x.st.dirs[d].source == w.st.dirs[d].source || x.st.dirs[d].source == None
    requires forall id | id in x.st.parts :: x.st.parts[id] == w.st.parts[id]
    requires Unlinked(w.st.locks, DeadOwners(w.st, p)).linked <= x.st.locks.linked <= w.st.locks.linked
    ensures Inv(AfterExit(x, p))
  {
    LosingFilesKeeps(w, x, p);
    ExitKeeps(x, p);
  }

  // ----- all events

  lemma StepKeeps(w: World, e: Event)
    requires Inv(w) && Enabled(w, e)
    ensures Inv(Next(w, e))
  {
    match e
    case Boot(p, pid, inc) => NewcomerKeeps(w, Next(w, e), p);
    case Fork(p, child, pid) => NewcomerKeeps(w, Next(w, e), child);
    case AfterFork(p, inc) => NewcomerKeeps(w, Next(w, e), p);
    case Exit(p) => ExitKeeps(w, p);
    case Reserve(p, a) => ReserveKeeps(w, p, a);
    case WritePart(p, lease, size) => WriteKeeps(w, p, lease, size);
    case Commit(p, lease, filename, size, ok) => CommitKeeps(w, p, lease, filename, size, ok);
    case CommitAgain(p, lease, _, size, ok) => OtherLeaseIsRefused(w, p, lease, size, ok);
    case CommitCrash(p, lease, filename, size, reached) => CommitCrashKeeps(w, p, lease, filename, size, reached);
    case Abort(p, lease) => CancelKeeps(w, p, lease);
    case AbortCrash(p, lease) => AbortCrashKeeps(w, p, lease);
    case Queue(p, sid, aid, actor, token) => QueueKeeps(w, p, sid, aid, actor, token);
    case TryStart(p, lease) => TryStartKeeps(w, p, lease);
    case FinishJob(p, lease) => FinishKeeps(w, p, lease);
    case Active(p) => ReapKeeps(w, p);
    case Delete(_, sid, target) => DeleteKeeps(w, sid, target);
    case DeleteCrash(p, _, _, dirs) => FilesCrashKeeps(w, p, w.(st := w.st.(dirs := dirs)));
    case ReapCrash(p, dirs, parts, linked) =>
      FilesCrashKeeps(w, p, w.(st := w.st.(dirs := dirs, parts := parts, locks := w.st.locks.(linked := linked))));
    case PutMeta(_, path, meta) => PutKeeps(w, path, w.st.dirs[path].(meta := Some(meta)));
    case PutFile(_, path, name, content) =>
      PutKeeps(w, path, w.st.dirs[path].(files := w.st.dirs[path].files[name := content]));
  }
}
