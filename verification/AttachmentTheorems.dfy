/** What holds in every run of the attachment ledger. */
module AttachmentTheorems {
  import opened Wrappers
  import opened ResourceTable
  import opened ProcessOwnership
  import opened ResourceTransactions
  import opened AttachmentRuns
  import opened AttachmentInvariant
  import opened AttachmentSteps

  ghost predicate Legal(w: World, run: seq<Event>)
    decreases |run|
  {
    run == [] || (Enabled(w, run[0]) && Legal(Next(w, run[0]), run[1..]))
  }

  ghost function After(w: World, run: seq<Event>): World
    requires Legal(w, run)
    decreases |run|
  {
    if run == [] then w else After(Next(w, run[0]), run[1..])
  }

  // ----- quotas

  lemma ReapRaisesNothing(w: World, p: ProcId, m: Measure)
    requires Up(w.st.locks, p)
    ensures Use(AfterReap(w, p).st.rows, m) <= Use(w.st.rows, m)
  {
    EditRaisesNothing(w.st.rows, Reclaim(DeadOwners(w.st, p)), m);
  }

  /** A row that passed every admission check fits within every limit. */
  lemma AdmissionFits(rows: seq<Row>, a: Admission, owner: Owner)
    requires WithinLimits(rows)
    requires AdmissionRefusal(rows, a.session, a.actor, a.maxBytes, a.parse, a.free).None?
    ensures WithinLimits(rows + [AdmittedRow(a, owner)])
  {
    var scopes := Scopes(a.session, a.actor);
    assert scopes[1..][0] == Actor(a.actor) && scopes[1..][1..][0] == Installation;
    assert FirstScopeRefusal(rows, scopes, a.maxBytes).None?;
    assert FirstScopeRefusal(rows, scopes[1..], a.maxBytes).None?;
    assert FirstScopeRefusal(rows, scopes[1..][1..], a.maxBytes).None?;
    forall m: Measure ensures Use(rows + [AdmittedRow(a, owner)], m) <= Limit(m) {
      UseOfAppend(rows, AdmittedRow(a, owner), m);
    }
  }

  /** An upload is admitted if and only if the disk keeps its reserve and every count and sum stays within bounds. */
  lemma AdmissionInNumbers(rows: seq<Row>, sid: string, actor: string, maxBytes: nat, parse: bool, free: nat)
    requires Distinct(rows)
    ensures AdmissionRefusal(rows, sid, actor, maxBytes, parse, free).None? <==>
      && free >= ReservedBytes(rows) + maxBytes + 16777216
      && |set r | r in rows && r.session == sid && (r.retained || r.phase == Upload)| < 100
      && |set r | r in rows && r.actor == actor && (r.retained || r.phase == Upload)| < 500
      && |set r | r in rows && (r.retained || r.phase == Upload)| < 2000
      && Use(rows, Bytes(Session(sid))) + maxBytes <= 524288000
      && Use(rows, Bytes(Actor(actor))) + maxBytes <= 2147483648
      && Use(rows, Bytes(Installation)) + maxBytes <= 10737418240
      && |set r | r in rows && r.session == sid && r.phase == Upload| < 5
      && |set r | r in rows && r.actor == actor && r.phase == Upload| < 5
      && |set r | r in rows && r.phase == Upload| < 10
      && (parse ==>
            && |set r | r in rows &&
                  (r.phase == Queued || r.phase == Running || (r.phase == Upload && r.wantsParse))| < 25
            && |set r | r in rows && r.jobActor == actor &&
                  (r.phase == Queued || r.phase == Running || (r.phase == Upload && r.wantsParse))| < 10)
  {
    hide Use, Distinct;
    FilesAreCounted(rows, sid, actor);
    UploadsAreCounted(rows, sid, actor);
    ParsesAreCounted(rows, actor);
    ScopesInTurn(rows, sid, actor, maxBytes);
  }

  lemma ScopesInTurn(rows: seq<Row>, sid: string, actor: string, maxBytes: nat)
    ensures var first, second := ScopeRefusal(rows, Session(sid), maxBytes), ScopeRefusal(rows, Actor(actor), maxBytes);
      FirstScopeRefusal(rows, Scopes(sid, actor), maxBytes)
      == if first.Some? then first else if second.Some? then second else ScopeRefusal(rows, Installation, maxBytes)
  {
    hide ScopeRefusal;
    var scopes := Scopes(sid, actor);
    assert scopes[1..] == [Actor(actor), Installation] && scopes[1..][1..] == [Installation];
    assert scopes[1..][1..][1..] == [];
    assert FirstScopeRefusal(rows, [], maxBytes).None?;
    assert FirstScopeRefusal(rows, scopes[1..][1..], maxBytes) == ScopeRefusal(rows, Installation, maxBytes);
  }

  /** The reason given for a refusal is true, and names a limit that the upload would break. */
  lemma RefusalIsTrue(rows: seq<Row>, a: Admission, owner: Owner)
    requires AdmissionRefusal(rows, a.session, a.actor, a.maxBytes, a.parse, a.free).Some?
    ensures var after := rows + [AdmittedRow(a, owner)];
      match AdmissionRefusal(rows, a.session, a.actor, a.maxBytes, a.parse, a.free).value
      case DiskFull => ReservedBytes(after) + 16777216 > a.free
      case StorageFull(scope) =>
        && scope in {Session(a.session), Actor(a.actor), Installation}
        && (Use(after, Files(scope)) > Limit(Files(scope)) || Use(after, Bytes(scope)) > Limit(Bytes(scope)))
      case TooManyUploads(scope) =>
        && scope in {Session(a.session), Actor(a.actor), Installation}
        && Use(after, Uploads(scope)) > Limit(Uploads(scope))
      case ParsingBusy =>
        && a.parse
        && (Use(after, PendingParses) > Limit(PendingParses)
            || Use(after, PendingParsesOf(a.actor)) > Limit(PendingParsesOf(a.actor)))
      case _ => false
  {
    var row := AdmittedRow(a, owner);
    ReservedOfAppend(rows, row);
    forall m: Measure ensures Use(rows + [row], m) == Use(rows, m) + Weight(m, row) {
      UseOfAppend(rows, row, m);
    }
    hide Use, ReservedBytes, FirstScopeRefusal;
    ScopesInTurn(rows, a.session, a.actor, a.maxBytes);
  }

  lemma {:induction false} ReservedOfAppend(rows: seq<Row>, r: Row)
    ensures ReservedBytes(rows + [r]) == ReservedBytes(rows) + if r.phase == Upload then r.bytes else 0
  {
    if rows == [] {
      assert rows + [r] == [r];
      assert [r][1..] == [];
    } else {
      assert (rows + [r])[1..] == rows[1..] + [r];
      ReservedOfAppend(rows[1..], r);
    }
  }

  /** After an admission the disk has room for everything that open uploads may still write, and the reserve. */
  lemma AdmissionLeavesRoom(st: State, p: ProcId, a: Admission)
    requires p in st.locks.procs && Reserved(st, p, a).1.Success?
    ensures ReservedBytes(Reserved(st, p, a).0.rows) + MIN_FREE_BYTES <= a.free
  {
    var reaped := Reaped(st, p);
    ReservedOfAppend(reaped.rows, AdmittedRow(a, OwnerOf(reaped.locks, p)));
  }

  lemma CommitRaisesNothing(w: World, p: ProcId, lease: Lease, size: nat, m: Measure)
    requires Inv(w) && Ticket(p, lease) in w.h.uploads
    requires CommitRefusal(w.st, lease, size, true).None?
    ensures Use(EditAll(w.st.rows, Publish(lease, size)), m) <= Use(w.st.rows, m)
  {
    OpenUpload(w, p, lease);
    forall r | r in w.st.rows && r.id == lease.id ensures Some(r) == RowOf(w.st.rows, lease.id) {
      RowInTable(w.st.rows, r);
    }
    EditRaisesNothing(w.st.rows, Publish(lease, size), m);
  }

  lemma EnqueueRaises(rows: seq<Row>, sid: string, aid: Id, actor: string, owner: Owner, token: Token, m: Measure)
    requires Distinct(rows) && QueueRefusal(rows, sid, aid, actor).None?
    ensures Use(EditAll(rows, Enqueue(aid, actor, owner, token)), m)
         <= Use(rows, m) + if m == PendingParses || m == PendingParsesOf(actor) then 1 else 0
  {
    var e := Enqueue(aid, actor, owner, token);
    forall r | r in rows && r.id == aid ensures Some(r) == RowOf(rows, aid) {
      RowInTable(rows, r);
    }
    if m == PendingParses || m == PendingParsesOf(actor) {
      EditRaisesOneRow(rows, e, m, aid);
    } else {
      EditRaisesNothing(rows, e, m);
    }
  }

  lemma StartRaises(rows: seq<Row>, lease: Lease, m: Measure)
    requires Distinct(rows) && StartVerdict(rows, lease) == Started
    ensures Use(EditAll(rows, Start(lease.id)), m) <= Use(rows, m) + if m == RunningParses then 1 else 0
  {
    var e := Start(lease.id);
    forall r | r in rows && r.id == lease.id ensures Some(r) == RowOf(rows, lease.id) {
      RowInTable(rows, r);
    }
    if m == RunningParses {
      EditRaisesOneRow(rows, e, m, lease.id);
    } else {
      EditRaisesNothing(rows, e, m);
    }
  }

  lemma QueueGrows(w: World, p: ProcId, sid: string, aid: Id, actor: string, token: Token, m: Measure)
    requires Inv(w) && Enabled(w, Queue(p, sid, aid, actor, token))
    ensures Use(AfterQueue(w, p, sid, aid, actor, token).st.rows, m)
         <= Use(w.st.rows, m) + if m == PendingParses || m == PendingParsesOf(actor) then 1 else 0
  {
    var y := AfterReap(w, p);
    ReapRaisesNothing(w, p, m);
    ReapKeepsRows(w, p);
    if QueueRefusal(y.st.rows, sid, aid, actor).None? {
      EnqueueRaises(y.st.rows, sid, aid, actor, OwnerOf(y.st.locks, p), token, m);
    }
  }

  lemma StartGrows(w: World, p: ProcId, lease: Lease, m: Measure)
    requires Inv(w) && Enabled(w, TryStart(p, lease))
    ensures Use(AfterTryStart(w, p, lease).st.rows, m) <= Use(w.st.rows, m) + if m == RunningParses then 1 else 0
  {
    var y := AfterReap(w, p);
    ReapRaisesNothing(w, p, m);
    ReapKeepsRows(w, p);
    if StartVerdict(y.st.rows, lease) == Started {
      StartRaises(y.st.rows, lease, m);
    }
  }

  lemma CommitGrowsNothing(w: World, p: ProcId, lease: Lease, filename: string, size: nat, ok: bool, m: Measure)
    requires Inv(w) && Ticket(p, lease) in w.h.uploads
    ensures Use(AfterCommit(w, p, lease, filename, size, ok).st.rows, m) <= Use(w.st.rows, m)
  {
    if CommitRefusal(w.st, lease, size, ok).None? {
      CommitRaisesNothing(w, p, lease, size, m);
    } else {
      EditRaisesNothing(w.st.rows, Cancel(lease), m);
    }
  }

  /** Statements that only give rows up, or parts of them. */
  lemma GivingUpRaisesNothing(rows: seq<Row>, e: Edit, m: Measure)
    requires e.Cancel? || e.Release? || e.Forget?
    ensures Use(EditAll(rows, e), m) <= Use(rows, m)
  {
    EditRaisesNothing(rows, e, m);
  }

  predicate Leases(e: Event) {
    e.Commit? || e.CommitAgain? || e.Queue? || e.TryStart? || e.Active?
  }

  predicate GivesUp(e: Event) {
    e.Abort? || e.AbortCrash? || e.FinishJob? || e.Delete?
  }

  lemma LeasingGrows(w: World, e: Event, m: Measure)
    requires Inv(w) && Enabled(w, e) && Leases(e)
    requires e.Queue? ==> m != PendingParses && m != PendingParsesOf(e.actor)
    requires e.TryStart? ==> m != RunningParses
    ensures Use(Next(w, e).st.rows, m) <= Use(w.st.rows, m)
  {
    hide Inv, Use, EditAll, RowOf, Weight, AfterQueue, AfterTryStart, AfterCommit, AfterReap;
    match e
    case Commit(p, lease, filename, size, ok) => CommitGrowsNothing(w, p, lease, filename, size, ok, m);
    case CommitAgain(p, lease, _, size, ok) => OtherLeaseIsRefused(w, p, lease, size, ok);
    case Queue(p, sid, aid, actor, token) => QueueGrows(w, p, sid, aid, actor, token, m);
    case TryStart(p, lease) => StartGrows(w, p, lease, m);
    case Active(p) => ReapRaisesNothing(w, p, m);
  }

  lemma GivingUpGrowsNothing(w: World, e: Event, m: Measure)
    requires Enabled(w, e) && GivesUp(e)
    ensures Use(Next(w, e).st.rows, m) <= Use(w.st.rows, m)
  {
    hide Use, EditAll, RowOf, Weight;
    match e
    case Abort(_, lease) => GivingUpRaisesNothing(w.st.rows, Cancel(lease), m);
    case AbortCrash(_, lease) => GivingUpRaisesNothing(w.st.rows, Cancel(lease), m);
    case FinishJob(_, lease) => GivingUpRaisesNothing(w.st.rows, Release(lease), m);
    case Delete(_, sid, target) => GivingUpRaisesNothing(w.st.rows, Forget(sid, target), m);
  }

  /** Only admission raises storage and upload totals, only admission and queueing raise the
      pending parses, and only a start raises the running ones. */
  lemma OnlyAdmissionGrows(w: World, e: Event, m: Measure)
    requires Inv(w) && Enabled(w, e)
    requires !e.Reserve?
    requires e.Queue? ==> m != PendingParses && m != PendingParsesOf(e.actor)
    requires e.TryStart? ==> m != RunningParses
    ensures Use(Next(w, e).st.rows, m) <= Use(w.st.rows, m)
  {
    hide Inv, Use, Enabled, Next;
    if Leases(e) {
      LeasingGrows(w, e, m);
    } else if GivesUp(e) {
      GivingUpGrowsNothing(w, e, m);
    } else {
      OthersLeaveRows(w, e);
    }
  }

  lemma OthersLeaveRows(w: World, e: Event)
    requires Enabled(w, e) && !e.Reserve? && !Leases(e) && !GivesUp(e)
    ensures Next(w, e).st.rows == w.st.rows
  {
    hide PartlyRemoved, DeadOwners, CommitRefusal, RowOf;
  }

  lemma ReapKeepsLimits(w: World, p: ProcId)
    requires WithinLimits(w.st.rows) && Up(w.st.locks, p)
    ensures WithinLimits(AfterReap(w, p).st.rows)
  {
    forall m: Measure ensures Use(AfterReap(w, p).st.rows, m) <= Limit(m) {
      ReapRaisesNothing(w, p, m);
    }
  }

  lemma StepKeepsLimits(w: World, e: Event)
    requires Inv(w) && Enabled(w, e) && WithinLimits(w.st.rows)
    ensures WithinLimits(Next(w, e).st.rows)
  {
    hide EditAll, RowOf, Use;
    if e.Reserve? {
      ReapKeepsLimits(w, e.p);
      if Reserved(w.st, e.p, e.a).1.Success? {
        AdmissionFits(AfterReap(w, e.p).st.rows, e.a, OwnerOf(AfterReap(w, e.p).st.locks, e.p));
      }
    } else {
      forall m: Measure ensures Use(Next(w, e).st.rows, m) <= Limit(m) {
        if e.Queue? && (m == PendingParses || m == PendingParsesOf(e.actor)) {
          QueueStaysWithin(w, e.p, e.sid, e.aid, e.actor, e.token, m);
        } else if e.TryStart? && m == RunningParses {
          StartStaysWithin(w, e.p, e.lease);
        } else {
          OnlyAdmissionGrows(w, e, m);
        }
      }
    }
  }

  lemma QueueStaysWithin(w: World, p: ProcId, sid: string, aid: Id, actor: string, token: Token, m: Measure)
    requires Inv(w) && Enabled(w, Queue(p, sid, aid, actor, token)) && WithinLimits(w.st.rows)
    requires m == PendingParses || m == PendingParsesOf(actor)
    ensures Use(AfterQueue(w, p, sid, aid, actor, token).st.rows, m) <= Limit(m)
  {
    var y := AfterReap(w, p);
    ReapRaisesNothing(w, p, m);
    ReapKeepsRows(w, p);
    if QueueRefusal(y.st.rows, sid, aid, actor).None? {
      EnqueueRaises(y.st.rows, sid, aid, actor, OwnerOf(y.st.locks, p), token, m);
    }
  }

  lemma StartStaysWithin(w: World, p: ProcId, lease: Lease)
    requires Inv(w) && Enabled(w, TryStart(p, lease)) && WithinLimits(w.st.rows)
    ensures Use(AfterTryStart(w, p, lease).st.rows, RunningParses) <= RUNNING_PARSES
  {
    var y := AfterReap(w, p);
    ReapRaisesNothing(w, p, RunningParses);
    ReapKeepsRows(w, p);
    if StartVerdict(y.st.rows, lease) == Started {
      StartRaises(y.st.rows, lease, RunningParses);
    }
  }

  // ----- runs

  lemma {:induction false} RunKeeps(w: World, run: seq<Event>)
    requires Inv(w) && WithinLimits(w.st.rows) && Legal(w, run)
    ensures Inv(After(w, run)) && WithinLimits(After(w, run).st.rows)
    decreases |run|
  {
    if run != [] {
      StepKeeps(w, run[0]);
      StepKeepsLimits(w, run[0]);
      RunKeeps(Next(w, run[0]), run[1..]);
    }
  }

  /** In every run every session, every actor and the installation stay within every limit. */
  lemma QuotasHold(run: seq<Event>, m: Measure)
    requires Legal(INITIAL, run)
    ensures Use(After(INITIAL, run).st.rows, m) <= Limit(m)
  {
    InitialInv();
    RunKeeps(INITIAL, run);
  }

  /** The same in numbers, for the rows of any session and any actor. */
  lemma QuotasInNumbers(run: seq<Event>, sid: string, actor: string)
    requires Legal(INITIAL, run)
    ensures var rows := After(INITIAL, run).st.rows;
      && |set r | r in rows && r.session == sid && (r.retained || r.phase == Upload)| <= 100
      && |set r | r in rows && r.actor == actor && (r.retained || r.phase == Upload)| <= 500
      && |set r | r in rows && (r.retained || r.phase == Upload)| <= 2000
      && Use(rows, Bytes(Session(sid))) <= 524288000
      && Use(rows, Bytes(Actor(actor))) <= 2147483648
      && Use(rows, Bytes(Installation)) <= 10737418240
      && |set r | r in rows && r.session == sid && r.phase == Upload| <= 5
      && |set r | r in rows && r.actor == actor && r.phase == Upload| <= 5
      && |set r | r in rows && r.phase == Upload| <= 10
      && |set r | r in rows &&
            (r.phase == Queued || r.phase == Running || (r.phase == Upload && r.wantsParse))| <= 25
      && |set r | r in rows && r.jobActor == actor &&
            (r.phase == Queued || r.phase == Running || (r.phase == Upload && r.wantsParse))| <= 10
      && |set r | r in rows && r.phase == Running| <= 5
  {
    InitialInv();
    RunKeeps(INITIAL, run);
    hide Use, Legal, After;
    LimitsInNumbers(After(INITIAL, run).st.rows, sid, actor);
  }

  lemma LimitsInNumbers(rows: seq<Row>, sid: string, actor: string)
    requires Distinct(rows) && WithinLimits(rows)
    ensures
      && |set r | r in rows && r.session == sid && (r.retained || r.phase == Upload)| <= 100
      && |set r | r in rows && r.actor == actor && (r.retained || r.phase == Upload)| <= 500
      && |set r | r in rows && (r.retained || r.phase == Upload)| <= 2000
      && Use(rows, Bytes(Session(sid))) <= 524288000
      && Use(rows, Bytes(Actor(actor))) <= 2147483648
      && Use(rows, Bytes(Installation)) <= 10737418240
      && |set r | r in rows && r.session == sid && r.phase == Upload| <= 5
      && |set r | r in rows && r.actor == actor && r.phase == Upload| <= 5
      && |set r | r in rows && r.phase == Upload| <= 10
      && |set r | r in rows &&
            (r.phase == Queued || r.phase == Running || (r.phase == Upload && r.wantsParse))| <= 25
      && |set r | r in rows && r.jobActor == actor &&
            (r.phase == Queued || r.phase == Running || (r.phase == Upload && r.wantsParse))| <= 10
      && |set r | r in rows && r.phase == Running| <= 5
  {
    hide Use, Distinct;
    FilesAreCounted(rows, sid, actor);
    UploadsAreCounted(rows, sid, actor);
    ParsesAreCounted(rows, actor);
  }

  // ----- slots

  /** Rows of distinct ids that each weigh something add up. */
  lemma {:induction false} Pigeonhole(rows: seq<Row>, ids: set<Id>, m: Measure)
    requires forall id | id in ids :: RowOf(rows, id).Some? && Weight(m, RowOf(rows, id).value) >= 1
    ensures |ids| <= Use(rows, m)
  {
    hide Weight;
    if rows == [] {
      assert forall id :: id !in ids;
      assert ids == {};
    } else {
      var id := rows[0].id;
      var others := ids - {id};
      forall o | o in others ensures RowOf(rows[1..], o).Some? && Weight(m, RowOf(rows[1..], o).value) >= 1 {
        assert RowOf(rows, o) == RowOf(rows[1..], o);
      }
      Pigeonhole(rows[1..], others, m);
      if id in ids {
        assert RowOf(rows, id) == Some(rows[0]);
        assert ids == others + {id};
      } else {
        assert ids == others;
      }
    }
  }

  /** Tickets on distinct rows are as many as the rows. */
  lemma {:induction false} TicketsByRow(ts: set<Ticket>)
    requires forall t, u | t in ts && u in ts && t.lease.id == u.lease.id :: t == u
    ensures |set t | t in ts :: t.lease.id| == |ts|
  {
    var ids := set t | t in ts :: t.lease.id;
    if ts != {} {
      var t :| t in ts;
      var rest := ts - {t};
      TicketsByRow(rest);
      assert ids == (set u | u in rest :: u.lease.id) + {t.lease.id};
      assert t.lease.id !in set u | u in rest :: u.lease.id;
    }
  }

  ghost predicate OwnsSlot(w: World, t: Ticket, phase: Phase) {
    var found := RowOf(w.st.rows, t.lease.id);
    && found.Some?
    && Holds(found.value, t.lease)
    && found.value.phase == phase
    && t.proc in w.st.locks.procs
    && found.value.owner == OwnerOf(w.st.locks, t.proc)
  }

  /** A `running` row whose process is up has its worker, an `upload` row its upload. */
  ghost predicate NoIdleSlot(w: World, r: Row, p: ProcId) {
    && r.token.Some?
    && (r.phase == Running ==> Ticket(p, LeaseOf(r)) in w.h.workers)
    && (r.phase == Upload ==> Ticket(p, LeaseOf(r)) in w.h.uploads)
  }

  lemma TicketOwns(w: World, t: Ticket, phase: Phase)
    requires Inv(w) && ((phase == Running && t in w.h.workers) || (phase == Upload && t in w.h.uploads))
    ensures OwnsSlot(w, t, phase)
  {
    hide RowOf;
    assert TicketOk(w, t);
  }

  lemma WorkOwnsSlots(w: World, ts: set<Ticket>, phase: Phase, m: Measure)
    requires Inv(w)
    requires (phase == Running && ts == w.h.workers && m == RunningParses) ||
             (phase == Upload && ts == w.h.uploads && m == Uploads(Installation))
    ensures forall t | t in ts :: OwnsSlot(w, t, phase)
    ensures forall t, u | t in ts && u in ts && t != u :: t.lease.id != u.lease.id
    ensures |ts| <= Use(w.st.rows, m)
  {
    forall t | t in ts ensures OwnsSlot(w, t, phase) {
      TicketOwns(w, t, phase);
    }
    hide Inv, Use;
    forall t, u | t in ts && u in ts && t.lease.id == u.lease.id ensures t == u {
      OneHolder(w, t, u);
    }
    TicketsByRow(ts);
    Pigeonhole(w.st.rows, set t | t in ts :: t.lease.id, m);
  }

  /**
    In every run each worker really running owns its own `running` row, so no
    more than RUNNING_PARSES run, and a `running` row whose process is up is
    never without its worker.
   */
  lemma WorkersOwnTheirSlots(run: seq<Event>)
    requires Legal(INITIAL, run)
    ensures var w := After(INITIAL, run);
      && (forall t | t in w.h.workers :: OwnsSlot(w, t, Running))
      && (forall t, u | t in w.h.workers && u in w.h.workers && t != u :: t.lease.id != u.lease.id)
      && |w.h.workers| <= Use(w.st.rows, RunningParses) <= RUNNING_PARSES
      && (forall id, p | RowOf(w.st.rows, id).Some? && RowOf(w.st.rows, id).value.phase == Running
                         && OwnedBy(w.st.locks, RowOf(w.st.rows, id).value, p) ::
            NoIdleSlot(w, RowOf(w.st.rows, id).value, p))
  {
    InitialInv();
    RunKeeps(INITIAL, run);
    var w := After(INITIAL, run);
    WorkOwnsSlots(w, w.h.workers, Running, RunningParses);
    assert Use(w.st.rows, RunningParses) <= Limit(RunningParses);
  }

  /** The same of open uploads: a deleted conversation does not free the slot of a request still uploading. */
  lemma UploadsOwnTheirSlots(run: seq<Event>)
    requires Legal(INITIAL, run)
    ensures var w := After(INITIAL, run);
      && (forall t | t in w.h.uploads :: OwnsSlot(w, t, Upload))
      && (forall t, u | t in w.h.uploads && u in w.h.uploads && t != u :: t.lease.id != u.lease.id)
      && |w.h.uploads| <= Use(w.st.rows, Uploads(Installation)) <= INSTALLATION_UPLOADS
      && (forall id, p | RowOf(w.st.rows, id).Some? && RowOf(w.st.rows, id).value.phase == Upload
                         && OwnedBy(w.st.locks, RowOf(w.st.rows, id).value, p) ::
            NoIdleSlot(w, RowOf(w.st.rows, id).value, p))
  {
    InitialInv();
    RunKeeps(INITIAL, run);
    var w := After(INITIAL, run);
    WorkOwnsSlots(w, w.h.uploads, Upload, Uploads(Installation));
    assert Use(w.st.rows, Uploads(Installation)) <= Limit(Uploads(Installation));
  }

  // ----- a slot is held until its own work ends

  ghost predicate EndsWork(e: Event, t: Ticket) {
    || (e.FinishJob? && e.p == t.proc && e.lease == t.lease)
    || ((e.Exit? || e.CommitCrash? || e.AbortCrash? || e.DeleteCrash? || e.ReapCrash?) && e.p == t.proc)
  }

  lemma WorkerStays(w: World, e: Event, t: Ticket)
    requires Enabled(w, e) && t in w.h.workers && !EndsWork(e, t)
    ensures t in Next(w, e).h.workers
  {
    hide PartlyRemoved, DeadUploads, DeadParts, QueueRefusal, StartVerdict, CommitRefusal, DeadOwners;
    hide RowOf, EditAll, AdmissionRefusal;
  }

  /** No delete, no reap and no other process's death takes a running worker's slot away. */
  lemma SlotHeldUntilWorkEnds(w: World, e: Event, t: Ticket)
    requires Inv(w) && Enabled(w, e) && t in w.h.workers && !EndsWork(e, t)
    ensures t in Next(w, e).h.workers && OwnsSlot(Next(w, e), t, Running)
  {
    hide Inv, Enabled, Next, EndsWork, OwnsSlot;
    StepKeeps(w, e);
    WorkerStays(w, e, t);
    TicketOwns(Next(w, e), t, Running);
  }

  // ----- ownership

  /** The owner of a row at work is judged dead exactly when its process has gone, and for ever. */
  lemma JudgedDeadIsFinal(w: World, run: seq<Event>, p: ProcId, id: Id)
    requires Inv(w) && WithinLimits(w.st.rows) && Up(w.st.locks, p) && Legal(w, run)
    requires RowOf(w.st.rows, id).Some? && RowOf(w.st.rows, id).value.phase != Idle
    ensures var inc := RowOf(w.st.rows, id).value.owner.incarnation;
      && (!Alive(w.st.locks, p, inc) <==> Gone(w.st.locks, inc))
      && (!Alive(w.st.locks, p, inc) ==>
            Gone(After(w, run).st.locks, inc) &&
            forall q | q in After(w, run).st.locks.procs :: !Alive(After(w, run).st.locks, q, inc))
  {
    assert RowOk(w, RowOf(w.st.rows, id).value);
    var inc := RowOf(w.st.rows, id).value.owner.incarnation;
    JudgedDeadIffGone(w.st.locks, w.h.usedIncs, w.h.published, p, inc);
    if Gone(w.st.locks, inc) {
      GoneForever(w, run, inc);
      RunKeeps(w, run);
      var x := After(w, run);
      forall q | q in x.st.locks.procs ensures !Alive(x.st.locks, q, inc) {
        VerdictIsTheLock(x.st.locks, x.h.usedIncs, x.h.published, q, inc);
      }
    }
  }

  lemma {:induction false} GoneForever(w: World, run: seq<Event>, inc: Incarnation)
    requires Inv(w) && Legal(w, run) && inc in w.h.usedIncs && Gone(w.st.locks, inc)
    ensures Gone(After(w, run).st.locks, inc)
    decreases |run|
  {
    if run != [] {
      StepKeeps(w, run[0]);
      StaysGone(w, run[0], inc);
      GoneForever(Next(w, run[0]), run[1..], inc);
    }
  }

  lemma StaysGone(w: World, e: Event, inc: Incarnation)
    requires ProcsOk(w) && Enabled(w, e) && inc in w.h.usedIncs && Gone(w.st.locks, inc)
    ensures inc in Next(w, e).h.usedIncs && Gone(Next(w, e).st.locks, inc)
  {
    hide RowOf, EditAll, AdmissionRefusal, QueueRefusal, StartVerdict;
    hide CommitRefusal, DeadUploads, DeadParts, PartlyRemoved;
    var k, k' := w.st.locks, Next(w, e).st.locks;
    forall q | q in k'.procs && k'.procs[q].incarnation == inc
      ensures q in k.procs && k.procs[q] == k'.procs[q] && k.procs[q].forking
    {
    }
  }
}
