/** An upload and its parse as their holder sees them: what others leave alone, and that no parse is lost. */
module ParseJobs {
  import opened Wrappers
  import opened ResourceTable
  import opened ProcessOwnership
  import opened ResourceTransactions
  import opened AttachmentRuns
  import opened AttachmentInvariant
  import opened AttachmentSteps
  import opened AttachmentTheorems

  // ----- a leased row is left alone

  /** The row a lease names is at work, and under this lease. */
  predicate AtWork(rows: seq<Row>, lease: Lease) {
    && RowOf(rows, lease.id).Some?
    && RowOf(rows, lease.id).value.token == Some(lease.token)
    && RowOf(rows, lease.id).value.phase != Idle
  }

  predicate Covered(lease: Lease, sid: string, target: Option<Id>) {
    lease.session == sid && (target.None? || target.value == lease.id)
  }

  /** A step of the holder with this lease, the death of the holder, or a deletion of the attachment. */
  predicate Concerns(e: Event, t: Ticket) {
    match e
    case Commit(p, lease, _, _, _) => Ticket(p, lease) == t
    case Abort(p, lease) => Ticket(p, lease) == t
    case TryStart(p, lease) => Ticket(p, lease) == t
    case FinishJob(p, lease) => Ticket(p, lease) == t
    case Exit(p) => p == t.proc
    case CommitCrash(p, _, _, _, _) => p == t.proc
    case AbortCrash(p, _) => p == t.proc
    case DeleteCrash(p, _, _, _) => p == t.proc
    case ReapCrash(p, _, _, _) => p == t.proc
    case Delete(_, sid, target) => Covered(t.lease, sid, target)
    case _ => false
  }

  /** No process's reap touches a row whose owner is up. */
  lemma ReapLeavesRow(w: World, p: ProcId, t: Ticket)
    requires Inv(w) && Up(w.st.locks, p) && t in w.h.held && AtWork(w.st.rows, t.lease)
    ensures RowOf(AfterReap(w, p).st.rows, t.lease.id) == RowOf(w.st.rows, t.lease.id)
    ensures Distinct(AfterReap(w, p).st.rows)
  {
    hide EditAll, DeadOwners;
    assert TicketOk(w, t);
    var r := RowOf(w.st.rows, t.lease.id).value;
    OwnerUpIsNotDead(w, p, r, t.proc);
    EditedRow(w.st.rows, Reclaim(DeadOwners(w.st, p)), t.lease.id);
    DistinctAfterEdit(w.st.rows, Reclaim(DeadOwners(w.st, p)));
  }

  lemma ReserveLeavesRow(w: World, p: ProcId, a: Admission, t: Ticket)
    requires Inv(w) && Enabled(w, Reserve(p, a)) && t in w.h.held && AtWork(w.st.rows, t.lease)
    ensures RowOf(AfterReserve(w, p, a).st.rows, t.lease.id) == RowOf(w.st.rows, t.lease.id)
  {
    ReapLeavesRow(w, p, t);
    var y := AfterReap(w, p);
    assert TicketOk(w, t);
    assert RowOf(w.st.rows, a.id).Some? ==> RowOk(w, RowOf(w.st.rows, a.id).value);
    EditedRow(w.st.rows, Reclaim(DeadOwners(w.st, p)), a.id);
    hide EditAll, RowOf, DeadOwners;
    AppendActsPerRow(y.st.rows, AdmittedRow(a, OwnerOf(y.st.locks, p)));
  }

  lemma QueueLeavesRow(w: World, p: ProcId, sid: string, aid: Id, actor: string, token: Token, t: Ticket)
    requires Inv(w) && Up(w.st.locks, p) && t in w.h.held && AtWork(w.st.rows, t.lease)
    ensures RowOf(AfterQueue(w, p, sid, aid, actor, token).st.rows, t.lease.id) == RowOf(w.st.rows, t.lease.id)
  {
    ReapLeavesRow(w, p, t);
    hide EditAll, RowOf, DeadOwners;
    var y := AfterReap(w, p);
    EditedRow(y.st.rows, Enqueue(aid, actor, OwnerOf(y.st.locks, p), token), t.lease.id);
  }

  lemma TryStartLeavesRow(w: World, p: ProcId, lease: Lease, t: Ticket)
    requires Inv(w) && Enabled(w, TryStart(p, lease)) && t in w.h.held && AtWork(w.st.rows, t.lease)
    requires Ticket(p, lease) != t || TriedToStart(w.st, p, lease).1 != Started
    ensures RowOf(AfterTryStart(w, p, lease).st.rows, t.lease.id) == RowOf(w.st.rows, t.lease.id)
  {
    ReapLeavesRow(w, p, t);
    hide EditAll, DeadOwners, RowOf;
    var y := AfterReap(w, p);
    EditedRow(y.st.rows, Start(lease.id), t.lease.id);
    if StartVerdict(y.st.rows, lease) == Started && lease.id == t.lease.id {
      OneHolder(w, t, Ticket(p, lease));
    }
  }

  lemma EditLeavesRow(w: World, e: Edit, p: ProcId, lease: Lease, t: Ticket)
    requires Inv(w) && t in w.h.held && AtWork(w.st.rows, t.lease)
    requires Ticket(p, lease) in w.h.held && Ticket(p, lease) != t
    requires e == Cancel(lease) || e == Release(lease)
    ensures RowOf(EditAll(w.st.rows, e), t.lease.id) == RowOf(w.st.rows, t.lease.id)
  {
    hide EditAll;
    EditedRow(w.st.rows, e, t.lease.id);
    if Holds(RowOf(w.st.rows, t.lease.id).value, lease) {
      OneHolder(w, t, Ticket(p, lease));
    }
  }

  lemma CommitLeavesRow(w: World, p: ProcId, lease: Lease, filename: string, size: nat, ok: bool, t: Ticket)
    requires Inv(w) && t in w.h.held && AtWork(w.st.rows, t.lease)
    requires Ticket(p, lease) in w.h.uploads && Ticket(p, lease) != t
    ensures RowOf(AfterCommit(w, p, lease, filename, size, ok).st.rows, t.lease.id) == RowOf(w.st.rows, t.lease.id)
  {
    if CommitRefusal(w.st, lease, size, ok).Some? {
      EditLeavesRow(w, Cancel(lease), p, lease, t);
    } else {
      hide EditAll;
      EditedRow(w.st.rows, Publish(lease, size), t.lease.id);
      if lease.id == t.lease.id {
        OneHolder(w, t, Ticket(p, lease));
      }
    }
  }

  lemma DeleteLeavesRow(w: World, sid: string, target: Option<Id>, t: Ticket)
    requires Inv(w) && t in w.h.held && AtWork(w.st.rows, t.lease) && !Covered(t.lease, sid, target)
    ensures RowOf(AfterDelete(w, sid, target).st.rows, t.lease.id) == RowOf(w.st.rows, t.lease.id)
  {
    hide EditAll;
    assert TicketOk(w, t);
    EditedRow(w.st.rows, Forget(sid, target), t.lease.id);
  }

  lemma TicketStays(w: World, e: Event, t: Ticket)
    requires Enabled(w, e) && t in w.h.held && !Concerns(e, t) && t.lease.token in w.h.grants
    ensures t in Next(w, e).h.held && (t in w.h.uploads <==> t in Next(w, e).h.uploads)
  {
    hide PartlyRemoved, DeadUploads, DeadParts, QueueRefusal, StartVerdict, CommitRefusal, DeadOwners;
    hide RowOf, EditAll, AdmissionRefusal;
  }

  lemma ReapingLeavesRow(w: World, e: Event, t: Ticket)
    requires Inv(w) && Enabled(w, e) && t in w.h.held && AtWork(w.st.rows, t.lease) && !Concerns(e, t)
    requires e.Reserve? || e.Queue? || e.TryStart? || e.Active?
    ensures RowOf(Next(w, e).st.rows, t.lease.id) == RowOf(w.st.rows, t.lease.id)
  {
    hide Inv, EditAll, RowOf, AtWork, AfterReserve, AfterQueue, AfterTryStart, AfterReap;
    match e
    case Reserve(p, a) => ReserveLeavesRow(w, p, a, t);
    case Queue(p, sid, aid, actor, token) => QueueLeavesRow(w, p, sid, aid, actor, token, t);
    case TryStart(p, lease) => TryStartLeavesRow(w, p, lease, t);
    case Active(p) => ReapLeavesRow(w, p, t);
  }

  lemma CommittingLeavesRow(w: World, e: Event, t: Ticket)
    requires Inv(w) && Enabled(w, e) && t in w.h.held && AtWork(w.st.rows, t.lease) && !Concerns(e, t)
    requires e.Commit? || e.CommitAgain?
    ensures RowOf(Next(w, e).st.rows, t.lease.id) == RowOf(w.st.rows, t.lease.id)
  {
    hide Inv, EditAll, RowOf, AtWork, AfterCommit, CommitRefusal;
    if e.Commit? {
      CommitLeavesRow(w, e.p, e.lease, e.filename, e.size, e.checkPasses, t);
    } else {
      OtherLeaseIsRefused(w, e.p, e.lease, e.size, e.checkPasses);
    }
  }

  lemma EndingLeavesRow(w: World, e: Event, t: Ticket)
    requires Inv(w) && Enabled(w, e) && t in w.h.held && AtWork(w.st.rows, t.lease) && !Concerns(e, t)
    requires GivesUp(e)
    ensures RowOf(Next(w, e).st.rows, t.lease.id) == RowOf(w.st.rows, t.lease.id)
  {
    assert w.h.uploads <= w.h.held;
    hide Inv, EditAll, RowOf, AtWork, Covered;
    if e.Delete? {
      DeleteLeavesRow(w, e.sid, e.target, t);
    } else if e.FinishJob? {
      EditLeavesRow(w, Release(e.lease), e.p, e.lease, t);
    } else {
      EditLeavesRow(w, Cancel(e.lease), e.p, e.lease, t);
    }
  }

  /** Whatever others do, a row at work stays as it is until its holder acts on it or dies, or it is deleted. */
  lemma LeasedRowStays(w: World, e: Event, t: Ticket)
    requires Inv(w) && Enabled(w, e) && t in w.h.held && AtWork(w.st.rows, t.lease) && !Concerns(e, t)
    ensures t in Next(w, e).h.held && (t in w.h.uploads <==> t in Next(w, e).h.uploads)
    ensures RowOf(Next(w, e).st.rows, t.lease.id) == RowOf(w.st.rows, t.lease.id)
  {
    assert TicketOk(w, t);
    hide Inv, AtWork, Enabled, Next, Concerns, TicketOk, RowOf;
    TicketStays(w, e, t);
    if e.Reserve? || e.Queue? || e.TryStart? || e.Active? {
      ReapingLeavesRow(w, e, t);
    } else if e.Commit? || e.CommitAgain? {
      CommittingLeavesRow(w, e, t);
    } else if GivesUp(e) {
      EndingLeavesRow(w, e, t);
    } else {
      OthersLeaveRows(w, e);
    }
  }

  /** What a holder does with its lease without an end to its work: it is told to wait, or aborts an upload that
      has been committed, as the request does in any case when it ends. */
  ghost predicate GoesOn(w: World, e: Event, t: Ticket)
    requires Enabled(w, e)
  {
    || (e.TryStart? && TriedToStart(w.st, e.p, e.lease).1 == Wait)
    || (e.Abort? && RowOf(w.st.rows, t.lease.id).Some? && RowOf(w.st.rows, t.lease.id).value.phase != Upload)
  }

  ghost predicate Undisturbed(w: World, run: seq<Event>, t: Ticket)
    requires Legal(w, run)
    decreases |run|
  {
    run != [] ==>
      && (!Concerns(run[0], t) || GoesOn(w, run[0], t))
      && Undisturbed(Next(w, run[0]), run[1..], t)
  }

  lemma {:induction false} UndisturbedRowStays(w: World, run: seq<Event>, t: Ticket)
    requires Inv(w) && Legal(w, run) && t in w.h.held && AtWork(w.st.rows, t.lease) && Undisturbed(w, run, t)
    ensures Inv(After(w, run)) && t in After(w, run).h.held
    ensures t in w.h.uploads <==> t in After(w, run).h.uploads
    ensures RowOf(After(w, run).st.rows, t.lease.id) == RowOf(w.st.rows, t.lease.id)
    decreases |run|
  {
    hide Inv, RowOf, Enabled, Next, GoesOn;
    if run != [] {
      StepKeeps(w, run[0]);
      if Concerns(run[0], t) {
        GoingOnLeavesRow(w, run[0], t);
      } else {
        LeasedRowStays(w, run[0], t);
      }
      UndisturbedRowStays(Next(w, run[0]), run[1..], t);
    }
  }

  lemma GoingOnLeavesRow(w: World, e: Event, t: Ticket)
    requires Inv(w) && Enabled(w, e) && t in w.h.held && AtWork(w.st.rows, t.lease)
    requires GoesOn(w, e, t)
    ensures t in Next(w, e).h.held && (t in w.h.uploads <==> t in Next(w, e).h.uploads)
    ensures RowOf(Next(w, e).st.rows, t.lease.id) == RowOf(w.st.rows, t.lease.id)
  {
    if e.TryStart? {
      TryStartLeavesRow(w, e.p, e.lease, t);
    } else {
      assert TicketOk(w, t);
      hide EditAll, Inv;
      EditedRow(w.st.rows, Cancel(e.lease), t.lease.id);
    }
  }

  // ----- no parse is lost

  /** Process p holds the lease of a parse that waits for its turn. */
  ghost predicate Waiting(w: World, p: ProcId, lease: Lease) {
    && Ticket(p, lease) in w.h.held
    && AtWork(w.st.rows, lease)
    && RowOf(w.st.rows, lease.id).value.phase == Queued
    && RowOf(w.st.rows, lease.id).value.retained
  }

  function RunningRows(rows: seq<Row>): set<Row> {
    set r | r in rows && r.phase == Running
  }

  lemma QueuedRowsVerdict(rows: seq<Row>, lease: Lease)
    requires Distinct(rows) && AtWork(rows, lease)
    requires RowOf(rows, lease.id).value.phase == Queued && RowOf(rows, lease.id).value.retained
    ensures StartVerdict(rows, lease) == if |RunningRows(rows)| < 5 then Started else Wait
    ensures RowOf(EditAll(rows, Start(lease.id)), lease.id) == Some(RowOf(rows, lease.id).value.(phase := Running))
  {
    hide EditAll, Use;
    ParsesAreCounted(rows, "");
    EditedRow(rows, Start(lease.id), lease.id);
  }

  /** A parse that waits starts when fewer than five run, and is told to wait otherwise; it is never lost. */
  lemma StartsOrWaits(w: World, p: ProcId, lease: Lease)
    requires Inv(w) && Waiting(w, p, lease)
    ensures Up(w.st.locks, p)
    ensures TriedToStart(w.st, p, lease).1 == if |RunningRows(Reaped(w.st, p).rows)| < 5 then Started else Wait
    ensures RowOf(TriedToStart(w.st, p, lease).0.rows, lease.id) == var r := RowOf(w.st.rows, lease.id).value;
            Some(if |RunningRows(Reaped(w.st, p).rows)| < 5 then r.(phase := Running) else r)
  {
    assert TicketOk(w, Ticket(p, lease));
    hide Inv, TicketOk, EditAll, StartVerdict, Distinct, RunningRows, DeadOwners, RowOf;
    ReapLeavesRow(w, p, Ticket(p, lease));
    QueuedRowsVerdict(Reaped(w.st, p).rows, lease);
  }

  /** While it waits no process can queue the attachment again. */
  lemma WaitingIsBusy(w: World, p: ProcId, lease: Lease, q: ProcId, actor: string)
    requires Inv(w) && Waiting(w, p, lease) && Up(w.st.locks, q)
    ensures QueueRefusal(Reaped(w.st, q).rows, lease.session, lease.id, actor) == Some(AlreadyParsing)
  {
    assert TicketOk(w, Ticket(p, lease));
    ReapLeavesRow(w, q, Ticket(p, lease));
  }

  /** An open upload can be committed if and only if it was not deleted, its size fits what was admitted, the
      conversation is still the one it was sent to, and the part written is complete. */
  lemma CommitIff(w: World, p: ProcId, lease: Lease, size: nat, ok: bool)
    requires Inv(w) && Ticket(p, lease) in w.h.uploads
    ensures RowOf(w.st.rows, lease.id).Some?
    ensures CommitRefusal(w.st, lease, size, ok).None? <==>
      && RowOf(w.st.rows, lease.id).value.retained
      && 0 < size <= RowOf(w.st.rows, lease.id).value.bytes
      && ok
      && lease.id in w.st.parts && w.st.parts[lease.id] == size
  {
    OpenUpload(w, p, lease);
  }

  /** A row that is idle can be queued again, whatever is reaped before. */
  lemma IdleCanBeQueued(st: State, q: ProcId, id: Id, actor: string)
    requires q in st.locks.procs && Distinct(st.rows)
    requires RowOf(st.rows, id).Some? && RowOf(st.rows, id).value.phase == Idle && RowOf(st.rows, id).value.retained
    ensures QueueRefusal(Reaped(st, q).rows, RowOf(st.rows, id).value.session, id, actor)
         == if ParsingFull(Reaped(st, q).rows, actor) then Some(ParsingBusy) else None
  {
    hide EditAll, DeadOwners, ParsingFull;
    EditedRow(st.rows, Reclaim(DeadOwners(st, q)), id);
  }

  lemma CommittedRow(w: World, p: ProcId, lease: Lease, filename: string, size: nat, ok: bool)
    requires Inv(w) && Ticket(p, lease) in w.h.uploads && CommitRefusal(w.st, lease, size, ok).None?
    ensures var r, x := RowOf(w.st.rows, lease.id).value, AfterCommit(w, p, lease, filename, size, ok);
      && Inv(x) && Distinct(x.st.rows) && Ticket(p, lease) in x.h.held
      && r.token == Some(lease.token) && r.retained && r.session == lease.session
      && RowOf(x.st.rows, lease.id) == Some(r.(bytes := size, phase := if r.wantsParse then Queued else Idle))
  {
    OpenUpload(w, p, lease);
    CommitKeeps(w, p, lease, filename, size, ok);
    hide EditAll;
    EditedRow(w.st.rows, Publish(lease, size), lease.id);
    DistinctAfterEdit(w.st.rows, Publish(lease, size));
  }

  /** An accepted commit queues the parse that was asked for; one that was not asked for can be queued at once. */
  lemma ParseFollowsCommit(w: World, p: ProcId, lease: Lease, filename: string, size: nat, ok: bool)
    requires Inv(w) && Ticket(p, lease) in w.h.uploads && CommitRefusal(w.st, lease, size, ok).None?
    ensures var r, x := RowOf(w.st.rows, lease.id).value, Committed(w.st, lease, filename, size, ok).0;
      && RowOf(x.rows, lease.id) == Some(r.(bytes := size, phase := if r.wantsParse then Queued else Idle))
      && (r.wantsParse ==>
            && Up(x.locks, p)
            && TriedToStart(x, p, lease).1 == if |RunningRows(Reaped(x, p).rows)| < 5 then Started else Wait)
      && (!r.wantsParse ==> forall q, actor | Up(x.locks, q) ::
            QueueRefusal(Reaped(x, q).rows, r.session, lease.id, actor)
            == if ParsingFull(Reaped(x, q).rows, actor) then Some(ParsingBusy) else None)
  {
    var r, x := RowOf(w.st.rows, lease.id).value, AfterCommit(w, p, lease, filename, size, ok);
    CommittedRow(w, p, lease, filename, size, ok);
    hide EditAll, Inv, Distinct, RowOf, DeadOwners, CommitRefusal, QueueRefusal, RunningRows, ParsingFull;
    if r.wantsParse {
      StartsOrWaits(x, p, lease);
    } else {
      forall q, actor | Up(x.st.locks, q) ensures QueueRefusal(Reaped(x.st, q).rows, r.session, lease.id, actor)
            == if ParsingFull(Reaped(x.st, q).rows, actor) then Some(ParsingBusy) else None {
        IdleCanBeQueued(x.st, q, lease.id, actor);
      }
    }
  }

  /** A parse that waits stays where it is, through every run that does not end it, until it starts. */
  lemma ParseIsNeverLost(w: World, run: seq<Event>, p: ProcId, lease: Lease)
    requires Inv(w) && Waiting(w, p, lease) && Legal(w, run) && Undisturbed(w, run, Ticket(p, lease))
    ensures var x := After(w, run).st;
      && Up(x.locks, p)
      && TriedToStart(x, p, lease).1 == if |RunningRows(Reaped(x, p).rows)| < 5 then Started else Wait
  {
    hide Inv, RowOf, RunningRows, TriedToStart, Legal, Undisturbed, After;
    UndisturbedRowStays(w, run, Ticket(p, lease));
    StartsOrWaits(After(w, run), p, lease);
  }

  /** An open upload keeps what it was admitted for, whatever others do while it lasts. */
  lemma OpenUploadKeepsItsRow(w: World, p: ProcId, a: Admission, during: seq<Event>)
    requires Inv(w) && Enabled(w, Reserve(p, a)) && Reserved(w.st, p, a).1.Success?
    requires Legal(AfterReserve(w, p, a), during)
    requires Undisturbed(AfterReserve(w, p, a), during, Ticket(p, Lease(a.id, a.session, a.token)))
    ensures var x := After(AfterReserve(w, p, a), during);
      && Inv(x) && Ticket(p, Lease(a.id, a.session, a.token)) in x.h.uploads
      && RowOf(x.st.rows, a.id).Some?
      && RowOf(x.st.rows, a.id).value.wantsParse == a.parse
      && RowOf(x.st.rows, a.id).value.bytes == a.maxBytes
  {
    AdmittedRowIsThere(w, p, a);
    hide Inv, Enabled, AfterReserve, Reserved, Legal, Undisturbed, After;
    UndisturbedRowStays(AfterReserve(w, p, a), during, Ticket(p, Lease(a.id, a.session, a.token)));
  }

  /**
    An upload admitted with a parse gets it, an upload admitted without does not:
    whatever others do while it lasts and before the parse begins, unless the
    attachment is deleted or the process dies.
   */
  lemma UploadGetsItsParse(w: World, p: ProcId, a: Admission, during: seq<Event>, x: World, lease: Lease,
                           filename: string, size: nat, ok: bool, later: seq<Event>)
    requires Inv(w) && Enabled(w, Reserve(p, a)) && Reserved(w.st, p, a).1 == Success(lease)
    requires Legal(AfterReserve(w, p, a), during)
    requires Undisturbed(AfterReserve(w, p, a), during, Ticket(p, lease))
    requires x == After(AfterReserve(w, p, a), during) && CommitRefusal(x.st, lease, size, ok).None?
    requires Legal(AfterCommit(x, p, lease, filename, size, ok), later)
    requires Undisturbed(AfterCommit(x, p, lease, filename, size, ok), later, Ticket(p, lease))
    ensures var y, z := AfterCommit(x, p, lease, filename, size, ok).st,
                        After(AfterCommit(x, p, lease, filename, size, ok), later).st;
      && size <= a.maxBytes
      && (a.parse ==>
            && Up(z.locks, p)
            && TriedToStart(z, p, lease).1 == if |RunningRows(Reaped(z, p).rows)| < 5 then Started else Wait)
      && (!a.parse ==> RowOf(y.rows, a.id).Some? && RowOf(y.rows, a.id).value.phase == Idle)
  {
    assert lease == Lease(a.id, a.session, a.token);
    hide Reserved, AfterReserve, Legal, Undisturbed, After, AfterCommit, TriedToStart, Reaped, EditAll, RunningRows;
    hide Inv, Enabled, RowOf;
    OpenUploadKeepsItsRow(w, p, a, during);
    CommittedRow(x, p, lease, filename, size, ok);
    assert size <= a.maxBytes by {
      CommitIff(x, p, lease, size, ok);
    }
    hide CommitRefusal;
    if a.parse {
      ParseIsNeverLost(AfterCommit(x, p, lease, filename, size, ok), later, p, lease);
    }
  }

  lemma AdmittedRowIsThere(w: World, p: ProcId, a: Admission)
    requires Inv(w) && Enabled(w, Reserve(p, a)) && Reserved(w.st, p, a).1.Success?
    ensures var x := AfterReserve(w, p, a);
      && Inv(x) && Ticket(p, Lease(a.id, a.session, a.token)) in x.h.uploads
      && Ticket(p, Lease(a.id, a.session, a.token)) in x.h.held
      && RowOf(x.st.rows, a.id).Some?
      && var r := RowOf(x.st.rows, a.id).value;
      && r.phase == Upload && r.token == Some(a.token) && r.retained
      && r.wantsParse == a.parse && r.bytes == a.maxBytes && r.session == a.session && r.actor == a.actor
      && r.jobActor == a.actor && r.owner == OwnerOf(w.st.locks, p)
  {
    ReserveKeeps(w, p, a);
    assert RowOf(w.st.rows, a.id).Some? ==> RowOk(w, RowOf(w.st.rows, a.id).value);
    hide EditAll, DeadOwners, Inv;
    EditedRow(w.st.rows, Reclaim(DeadOwners(w.st, p)), a.id);
    DistinctAfterEdit(w.st.rows, Reclaim(DeadOwners(w.st, p)));
    AppendActsPerRow(Reaped(w.st, p).rows, AdmittedRow(a, OwnerOf(Reaped(w.st, p).locks, p)));
  }

  // ----- a parse asked for again, and the end of one

  /** A parse can be queued if and only if its attachment is there and idle and the queue has room. */
  lemma QueueInNumbers(rows: seq<Row>, sid: string, aid: Id, actor: string)
    requires Distinct(rows)
    ensures QueueRefusal(rows, sid, aid, actor).None? <==>
      && RowOf(rows, aid).Some?
      && RowOf(rows, aid).value.session == sid
      && RowOf(rows, aid).value.retained
      && RowOf(rows, aid).value.phase == Idle
      && |PendingRows(rows)| < 25
      && |set r | r in PendingRows(rows) && r.jobActor == actor| < 10
  {
    hide Use;
    ParsesAreCounted(rows, actor);
    assert PendingRows(rows) == set r | r in rows &&
             (r.phase == Queued || r.phase == Running || (r.phase == Upload && r.wantsParse));
    assert (set r | r in PendingRows(rows) && r.jobActor == actor) == set r | r in rows && r.jobActor == actor &&
             (r.phase == Queued || r.phase == Running || (r.phase == Upload && r.wantsParse));
  }

  function PendingRows(rows: seq<Row>): set<Row> {
    set r | r in rows && (r.phase == Queued || r.phase == Running || (r.phase == Upload && r.wantsParse))
  }

  /** A parse queued again waits for its turn, in the name of the actor who asked for it. */
  lemma QueuedParseWaits(w: World, p: ProcId, sid: string, aid: Id, actor: string, token: Token)
    requires Inv(w) && Enabled(w, Queue(p, sid, aid, actor, token))
    requires QueuedFor(w.st, p, sid, aid, actor, token).1.Success?
    ensures var lease, x := Lease(aid, sid, token), AfterQueue(w, p, sid, aid, actor, token);
      && QueuedFor(w.st, p, sid, aid, actor, token).1 == Success(lease)
      && Inv(x) && Waiting(x, p, lease)
      && RowOf(x.st.rows, aid).value.jobActor == actor
      && TriedToStart(x.st, p, lease).1 == if |RunningRows(Reaped(x.st, p).rows)| < 5 then Started else Wait
  {
    QueueKeeps(w, p, sid, aid, actor, token);
    var y := AfterReap(w, p);
    hide EditAll, Inv, DeadOwners;
    ReapedIsDistinct(w, p);
    EditedRow(y.st.rows, Enqueue(aid, actor, OwnerOf(y.st.locks, p), token), aid);
    StartsOrWaits(AfterQueue(w, p, sid, aid, actor, token), p, Lease(aid, sid, token));
  }

  lemma ReapedIsDistinct(w: World, p: ProcId)
    requires Inv(w) && Up(w.st.locks, p)
    ensures Distinct(AfterReap(w, p).st.rows)
  {
    DistinctAfterEdit(w.st.rows, Reclaim(DeadOwners(w.st, p)));
  }

  /** The end of a parse frees its place: the row turns idle, or goes when its source has been deleted. */
  lemma FinishFreesThePlace(w: World, p: ProcId, lease: Lease)
    requires Inv(w) && Ticket(p, lease) in w.h.workers
    ensures var found, after := RowOf(w.st.rows, lease.id), Finished(w.st, lease).rows;
      && found.Some? && found.value.phase == Running
      && RunningRows(after) == RunningRows(w.st.rows) - {found.value}
      && found.value in RunningRows(w.st.rows)
      && (RowOf(after, lease.id).Some? <==> found.value.retained)
      && (found.value.retained ==> RowOf(after, lease.id).value.phase == Idle && RowOf(after, lease.id).value.retained)
  {
    assert TicketOk(w, Ticket(p, lease));
    var r, after := RowOf(w.st.rows, lease.id).value, Finished(w.st, lease).rows;
    hide EditAll, Inv, TicketOk;
    EditActsPerRow(w.st.rows, Release(lease));
    forall s: Row ensures s in after <==> RowOf(after, s.id) == Some(s) {
      RowInTable(after, s);
    }
    forall s: Row ensures s in w.st.rows <==> RowOf(w.st.rows, s.id) == Some(s) {
      RowInTable(w.st.rows, s);
    }
    forall s: Row | s.phase == Running ensures s in after <==> s in w.st.rows && s != r {
    }
  }
}
