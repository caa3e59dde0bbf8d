/** Reachable states in which the program falls short of what one would like it to keep. */
module AttachmentWitnesses {
  import opened Wrappers
  import opened ResourceTable
  import opened ProcessOwnership
  import opened ResourceTransactions
  import opened AttachmentRuns
  import opened AttachmentInvariant
  import opened AttachmentTheorems
  import opened AttachmentConsistency
  import opened AttachmentStores
  import opened AttachmentSharing
  import opened AttachmentBinding

  // ----- a first upload: two processes, one of which reserves and writes a part

  const LEASE: Lease := Lease(0, "s", 0)
  const TICKET: Ticket := Ticket(1, LEASE)
  const PLACE: Path := Path("s", 0)
  const REQUEST: Admission := Admission("s", "a", 1, false, true, MIN_FREE_BYTES + 1, 0, 0)
  const ROW: Row := Row(0, "s", "a", 1, true, Upload, "a", Owner(1, 1), Some(0), false)

  const BOOTED: World := World(
    State([], map[], map[], Locks({}, map[1 := Process(1, 1, false, false), 2 := Process(2, 2, false, false)])),
    INITIAL.h.(usedIncs := {1, 2}))

  const LOCKS: Locks := Locks({1}, map[1 := Process(1, 1, true, false), 2 := Process(2, 2, false, false)])

  const RESERVED: World := World(
    State([ROW], map[], map[], LOCKS),
    History({0}, {1, 2}, {1}, map[0 := 0], {TICKET}, {TICKET}, {}, {}, {}, {}, {}))

  const WRITTEN: World := RESERVED.(st := RESERVED.st.(parts := map[0 := 1]))

  const UPLOADING: seq<Event> := [Boot(1, 1, 1), Boot(2, 2, 2), Reserve(1, REQUEST), WritePart(1, LEASE, 1)]

  lemma ReapOfNothing(st: State, p: ProcId)
    requires p in st.locks.procs
    requires forall r | r in st.rows && r.phase != Idle :: OwnerAlive(st.locks, p, r.owner)
    ensures Reaped(st, p) == st
  {
    assert DeadOwners(st, p) == {};
    ReclaimNobody(st.rows);
    assert st.dirs - {} == st.dirs && st.parts - {} == st.parts && st.locks.linked - {} == st.locks.linked;
  }

  lemma AfterBoots()
    ensures Enabled(INITIAL, Boot(1, 1, 1))
    ensures Enabled(Next(INITIAL, Boot(1, 1, 1)), Boot(2, 2, 2))
    ensures Next(Next(INITIAL, Boot(1, 1, 1)), Boot(2, 2, 2)) == BOOTED
  {
    var w := Next(Next(INITIAL, Boot(1, 1, 1)), Boot(2, 2, 2));
    assert w.st.locks.procs == BOOTED.st.locks.procs && w.h.usedIncs == BOOTED.h.usedIncs;
  }

  lemma AfterReservation()
    ensures Enabled(BOOTED, Reserve(1, REQUEST))
    ensures Next(BOOTED, Reserve(1, REQUEST)) == RESERVED
  {
    ReapOfNothing(BOOTED.st, 1);
    hide ValidSession, AdmissionRefusal, Reaped;
    var w := Next(BOOTED, Reserve(1, REQUEST));
    assert Reserved(BOOTED.st, 1, REQUEST).1 == Success(LEASE);
    assert w.st.rows == [ROW];
    assert w.st.locks.procs == LOCKS.procs && w.st.locks.linked == LOCKS.linked;
    assert w.h.grants == RESERVED.h.grants;
  }

  lemma AfterWriting()
    ensures Enabled(RESERVED, WritePart(1, LEASE, 1))
    ensures Next(RESERVED, WritePart(1, LEASE, 1)) == WRITTEN
  {
    assert RowOf([ROW], 0) == Some(ROW);
  }

  lemma {:induction false} RunsJoin(w: World, a: seq<Event>, b: seq<Event>)
    requires Legal(w, a) && Legal(After(w, a), b)
    ensures Legal(w, a + b) && After(w, a + b) == After(After(w, a), b)
    decreases |a|
  {
    hide Enabled, Next;
    if a == [] {
      assert a + b == b;
    } else {
      assert (a + b)[1..] == a[1..] + b;
      RunsJoin(Next(w, a[0]), a[1..], b);
    }
  }

  lemma OneMoreEvent(w: World, run: seq<Event>, e: Event)
    requires Legal(w, run) && Enabled(After(w, run), e)
    ensures Legal(w, run + [e]) && After(w, run + [e]) == Next(After(w, run), e)
  {
    RunsJoin(w, run, [e]);
  }

  lemma UploadingIsReachable()
    ensures Legal(INITIAL, UPLOADING) && After(INITIAL, UPLOADING) == WRITTEN
  {
    AfterBoots();
    AfterReservation();
    AfterWriting();
    hide Enabled, Next;
    OneMoreEvent(INITIAL, [Boot(1, 1, 1)], Boot(2, 2, 2));
    assert [Boot(1, 1, 1)] + [Boot(2, 2, 2)] == [Boot(1, 1, 1), Boot(2, 2, 2)];
    OneMoreEvent(INITIAL, [Boot(1, 1, 1), Boot(2, 2, 2)], Reserve(1, REQUEST));
    assert [Boot(1, 1, 1), Boot(2, 2, 2)] + [Reserve(1, REQUEST)]
        == [Boot(1, 1, 1), Boot(2, 2, 2), Reserve(1, REQUEST)];
    OneMoreEvent(INITIAL, [Boot(1, 1, 1), Boot(2, 2, 2), Reserve(1, REQUEST)], WritePart(1, LEASE, 1));
    assert [Boot(1, 1, 1), Boot(2, 2, 2), Reserve(1, REQUEST)] + [WritePart(1, LEASE, 1)] == UPLOADING;
  }

  // ----- a part that nobody reclaims

  const LEAKED: World := AfterAbortCrash(WRITTEN, 1, LEASE)

  /** A process that dies inside abort, on a run from the start: its part stays for ever. */
  lemma LeakIsReachable(later: seq<Event>)
    requires Legal(LEAKED, later)
    ensures Legal(INITIAL, UPLOADING + [AbortCrash(1, LEASE)])
    ensures After(INITIAL, UPLOADING + [AbortCrash(1, LEASE)]) == LEAKED
    ensures 0 in LEAKED.st.parts && RowOf(LEAKED.st.rows, 0).None? && 0 in After(LEAKED, later).st.parts
  {
    UploadingIsReachable();
    OneMoreEvent(INITIAL, UPLOADING, AbortCrash(1, LEASE));
    CrashedAbortIsNeverReclaimed(UPLOADING, 1, LEASE, later);
    EditedRow(WRITTEN.st.rows, Cancel(LEASE), 0);
    assert RowOf([ROW], 0) == Some(ROW);
  }

  // ----- a dead upload that a reap leaves

  const FORKED: World := WRITTEN.(st := WRITTEN.st.(locks := Forked(LOCKS, 1, 3, 3)))

  const CRASHED: World := AfterCommitCrash(FORKED, 1, LEASE, "f", 1, MetadataWritten)

  const DYING: seq<Event> := UPLOADING + [Fork(1, 3, 3)] + [CommitCrash(1, LEASE, "f", 1, MetadataWritten)]

  lemma DyingIsReachable()
    ensures Legal(INITIAL, DYING) && After(INITIAL, DYING) == CRASHED
  {
    UploadingIsReachable();
    assert Enabled(WRITTEN, Fork(1, 3, 3));
    OneMoreEvent(INITIAL, UPLOADING, Fork(1, 3, 3));
    assert RowOf([ROW], 0) == Some(ROW);
    assert Enabled(FORKED, CommitCrash(1, LEASE, "f", 1, MetadataWritten));
    hide Enabled, Next, AfterCommitCrash;
    OneMoreEvent(INITIAL, UPLOADING + [Fork(1, 3, 3)], CommitCrash(1, LEASE, "f", 1, MetadataWritten));
  }

  /**
    A process forks, then dies while it publishes its upload, before the child's
    fork handler has run: no process that has finished starting owns the row,
    and yet a reap by another process leaves the row and the directory.
   */
  lemma CarriedLockDelaysReap()
    ensures Legal(INITIAL, DYING + [Active(2)])
    ensures var w := After(INITIAL, DYING + [Active(2)]);
      && PLACE in w.st.dirs && RowOf(w.st.rows, 0) == Some(ROW)
      && (forall q :: !OwnedBy(w.st.locks, ROW, q))
      && OwnerCarried(w.st.locks, ROW)
  {
    DyingIsReachable();
    OneMoreEvent(INITIAL, DYING, Active(2));
    var k := CRASHED.st.locks;
    assert k.procs.Keys == {2, 3} && k.procs[3] == Process(3, 1, true, true);
    assert LockHeld(k, 1) && 1 in k.linked;
    ReapOfNothing(CRASHED.st, 2);
    assert RowOf([ROW], 0) == Some(ROW);
  }

  // ----- a bound attachment that is lost

  const PROCESSING: Meta := NewMeta("f", 1)

  const COMMITTED: World := AfterCommit(WRITTEN, 1, LEASE, "f", 1, true)

  const COMMITTING: seq<Event> := UPLOADING + [Commit(1, LEASE, "f", 1, true)]

  lemma CommittingIsReachable()
    ensures Legal(INITIAL, COMMITTING) && After(INITIAL, COMMITTING) == COMMITTED
    ensures COMMITTED.st.locks == LOCKS
    ensures PLACE in COMMITTED.st.dirs && COMMITTED.st.dirs[PLACE].meta == Some(PROCESSING)
    ensures RowOf(COMMITTED.st.rows, 0).Some? && RowOf(COMMITTED.st.rows, 0).value.phase != Upload
  {
    UploadingIsReachable();
    OneMoreEvent(INITIAL, UPLOADING, Commit(1, LEASE, "f", 1, true));
    assert RowOf([ROW], 0) == Some(ROW);
    assert CommitRefusal(WRITTEN.st, LEASE, 1, true).None?;
    EditedRow([ROW], Publish(LEASE, 1), 0);
  }

  /** Acts outside the lock, as long as no process holds it. */
  function Others(events: seq<Event>): seq<Act> {
    if events == [] then [] else [Other(events[0])] + Others(events[1..])
  }

  predicate NeedsNoCopy(e: Event) {
    match e
    case Delete(_, _, Some(_)) => false
    case DeleteCrash(_, _, Some(_), _) => false
    case PutMeta(_, _, _) => false
    case PutFile(_, _, _, _) => false
    case _ => true
  }

  lemma {:induction false} RunsAreClusterRuns(w: World, events: seq<Event>)
    requires Legal(w, events) && forall i | 0 <= i < |events| :: NeedsNoCopy(events[i])
    ensures AllowedAll(Cluster(w, map[]), Others(events))
    ensures DoneAll(Cluster(w, map[]), Others(events)) == Cluster(After(w, events), map[])
    decreases |events|
  {
    hide Enabled, Next;
    if events != [] {
      var c := Cluster(w, map[]);
      assert LockAllows(c, events[0]);
      assert c.hands - LetsGo(events[0]) == map[];
      assert Done(c, Other(events[0])) == Cluster(Next(w, events[0]), map[]);
      RunsAreClusterRuns(Next(w, events[0]), events[1..]);
      assert Others(events)[1..] == Others(events[1..]);
    }
  }

  lemma CommittedClusterIsReachable()
    ensures AllowedAll(START, Others(COMMITTING)) && DoneAll(START, Others(COMMITTING)) == Cluster(COMMITTED, map[])
  {
    CommittingIsReachable();
    RunsAreClusterRuns(INITIAL, COMMITTING);
  }

  function Overlap(purpose: Purpose): seq<Act> {
    [Take(1, PLACE, purpose), Take(2, PLACE, ToChange), Put(2, BINDING)]
  }

  lemma ThreeActs(c: Cluster, a: Act, b: Act, d: Act)
    requires Allowed(c, a) && Allowed(Done(c, a), b) && Allowed(Done(Done(c, a), b), d)
    ensures AllowedAll(c, [a, b, d]) && DoneAll(c, [a, b, d]) == Done(Done(Done(c, a), b), d)
  {
    hide Allowed, Done;
    assert [a, b, d][1..] == [b, d] && [b, d][1..] == [d];
    OneAct(Done(Done(c, a), b), d);
    assert AllowedAll(Done(c, a), [b, d]) && DoneAll(Done(c, a), [b, d]) == Done(Done(Done(c, a), b), d);
  }

  /** Both processes have read the metadata, which say that the attachment is not bound. */
  function BothRead(purpose: Purpose): Cluster {
    Cluster(COMMITTED, map[1 := Hand(PLACE, PROCESSING, purpose), 2 := Hand(PLACE, PROCESSING, ToChange)])
  }

  lemma AfterTakes(purpose: Purpose)
    requires purpose != ToCheck
    ensures var c := Cluster(COMMITTED, map[]);
      && Allowed(c, Take(1, PLACE, purpose))
      && Allowed(Done(c, Take(1, PLACE, purpose)), Take(2, PLACE, ToChange))
      && Done(Done(c, Take(1, PLACE, purpose)), Take(2, PLACE, ToChange))
         == BothRead(purpose)
  {
    CommittingIsReachable();
    hide AfterCommit, RowOf, Next, Enabled;
    var c := Cluster(COMMITTED, map[]);
    assert Done(c, Take(1, PLACE, purpose)).hands == map[1 := Hand(PLACE, PROCESSING, purpose)];
  }

  lemma AfterBinding(purpose: Purpose)
    requires purpose != ToCheck
    ensures var c := BothRead(purpose);
      && Allowed(c, Put(2, BINDING))
      && BoundAndCommitted(Done(c, Put(2, BINDING)).w, PLACE)
      && Done(c, Put(2, BINDING)).hands == map[1 := Hand(PLACE, PROCESSING, purpose)]
      && Done(c, Put(2, BINDING)).w.st.locks == LOCKS
  {
    CommittingIsReachable();
    hide AfterCommit, RowOf;
  }

  lemma AfterOverlap(purpose: Purpose)
    requires purpose != ToCheck
    ensures var c := Cluster(COMMITTED, map[]);
      && AllowedAll(c, Overlap(purpose))
      && BoundAndCommitted(DoneAll(c, Overlap(purpose)).w, PLACE)
      && DoneAll(c, Overlap(purpose)).hands == map[1 := Hand(PLACE, PROCESSING, purpose)]
      && DoneAll(c, Overlap(purpose)).w.st.locks == LOCKS
  {
    hide Allowed, Done, BoundAndCommitted;
    AfterTakes(purpose);
    AfterBinding(purpose);
    ThreeActs(Cluster(COMMITTED, map[]), Take(1, PLACE, purpose), Take(2, PLACE, ToChange), Put(2, BINDING));
  }

  /**
    Two processes, on a run from the start: one has passed the check of remove(),
    or has read the metadata to update them, when the other binds the attachment.
    It is bound then; the first one's next act deletes it, or clears its flag.
   */
  lemma BoundCanBeLost(purpose: Purpose)
    requires purpose != ToCheck
    ensures AllowedAll(START, Others(COMMITTING))
    ensures var c := DoneAll(START, Others(COMMITTING));
      && AllowedAll(c, Overlap(purpose))
      && var bound := DoneAll(c, Overlap(purpose));
      && BoundAndCommitted(bound.w, PLACE)
      && exists a :: Allowed(bound, a) && !Purges(a, "s") && !BoundAndCommitted(Done(bound, a).w, PLACE)
  {
    CommittedClusterIsReachable();
    AfterOverlap(purpose);
    var bound := DoneAll(Cluster(COMMITTED, map[]), Overlap(purpose));
    assert 1 in bound.hands && Up(bound.w.st.locks, 1);
    assert StaleCopy(bound, PLACE);
    var a := StaleCopyLoses(bound, PLACE);
  }
}
