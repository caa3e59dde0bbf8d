/** Runs from the empty directory on which bind() sets the flag of some of its attachments only. */
module BindingWitnesses {
  import opened Wrappers
  import opened ResourceTable
  import opened ProcessOwnership
  import opened ResourceTransactions
  import opened AttachmentRuns
  import opened AttachmentInvariant
  import opened AttachmentTheorems
  import opened AttachmentConsistency
  import opened AttachmentFates
  import opened AttachmentStores
  import opened AttachmentSharing
  import opened AttachmentActs
  import opened AttachmentBinding
  import opened AttachmentWitnesses

  // ----- bind() cut in two, from any two attachments

  /** Process p is about to bind two attachments that are there and not bound. */
  ghost predicate AboutToBind(c: Cluster, p: ProcId, sid: string, a: Id, b: Id) {
    && Inv(c.w) && Up(c.w.st.locks, p) && p !in c.hands && a != b
    && (forall id | id in {a, b} ::
          && Get(c.w.st, Path(sid, id)).Some?
          && Get(c.w.st, Path(sid, id)).value.status == Ready && !Get(c.w.st, Path(sid, id)).value.bound
          && Stored(c.w, id))
  }

  function Starting(c: Cluster, p: ProcId, sid: string, ids: seq<Id>): Scene {
    Scene(c, Binder(p, sid, ids, Coming, []))
  }

  predicate IsBound(c: Cluster, d: Path) {
    Get(c.w.st, d).Some? && Get(c.w.st, d).value.bound
  }

  /** The first update is through. */
  function HalfWay(c: Cluster, p: ProcId, sid: string, a: Id, b: Id): Scene {
    Scene(Cluster(c.w.(st := Updated(c.w.st, Path(sid, a), BINDING)), c.hands), Binder(p, sid, [b], Coming, [a]))
  }

  lemma FirstUpdate(c: Cluster, p: ProcId, sid: string, a: Id, b: Id)
    requires AboutToBind(c, p, sid, a, b)
    ensures var s := Starting(c, p, sid, [a, b]);
      && MayStep(s, Go) && MayStep(Stepped(s, Go), Go)
      && Stepped(Stepped(s, Go), Go) == HalfWay(c, p, sid, a, b)
  {
    hide Inv, Stored;
    var s := Starting(c, p, sid, [a, b]);
    TakeIs(c, p, Path(sid, a), ToChange);
    var taken := Stepped(s, Go);
    assert [a, b][1..] == [b];
    assert taken.c.hands - {p} == c.hands;
  }

  lemma CutOff(c: Cluster, p: ProcId, sid: string, a: Id, b: Id)
    requires AboutToBind(c, p, sid, a, b)
    ensures var s := HalfWay(c, p, sid, a, b); var step := Env(Other(Exit(p)));
      && MayStep(s, step) && Stepped(s, step).b.stage == Cut
      && IsBound(Stepped(s, step).c, Path(sid, a)) && !IsBound(Stepped(s, step).c, Path(sid, b))
  {
    hide Inv, Stored;
  }

  /** Another process has checked that the second attachment may be removed. */
  function AboutToRemove(s: Scene, q: ProcId, b: Id): Scene
    requires Get(s.c.w.st, Path(s.b.sid, b)).Some?
  {
    var d := Path(s.b.sid, b);
    s.(c := s.c.(hands := s.c.hands[q := Hand(d, Get(s.c.w.st, d).value, ToRemove)]))
  }

  lemma RemovalIsChecked(c: Cluster, p: ProcId, q: ProcId, sid: string, a: Id, b: Id)
    requires AboutToBind(c, p, sid, a, b) && q != p && Up(c.w.st.locks, q) && q !in c.hands
    ensures var s := HalfWay(c, p, sid, a, b); var step := Env(Take(q, Path(sid, b), ToRemove));
      && Get(s.c.w.st, Path(s.b.sid, b)).Some?
      && MayStep(s, step) && Stepped(s, step) == AboutToRemove(s, q, b)
  {
    hide Inv, Stored;
  }

  lemma Removed(c: Cluster, p: ProcId, q: ProcId, sid: string, a: Id, b: Id)
    requires AboutToBind(c, p, sid, a, b) && q != p && Up(c.w.st.locks, q) && q !in c.hands
    ensures var s := AboutToRemove(HalfWay(c, p, sid, a, b), q, b);
      var step := Env(Other(Delete(q, sid, Some(b))));
      && MayStep(s, step) && Stepped(s, step).b == Binder(p, sid, [b], Coming, [a])
      && IsBound(Stepped(s, step).c, Path(sid, a)) && Path(sid, b) !in Stepped(s, step).c.w.st.dirs
  {
    hide Inv, Stored;
  }

  /**
    Two attachments are there and not bound, and bind() has passed its checks
    for both. It may die after the first update; or another process removes the
    second one meanwhile, and bind() comes to its end. Either way the first is
    bound and the second is not.
   */
  lemma BindCanBeHalf(c: Cluster, p: ProcId, q: ProcId, sid: string, a: Id, b: Id)
    requires AboutToBind(c, p, sid, a, b) && q != p && Up(c.w.st.locks, q) && q !in c.hands
    ensures var s := Starting(c, p, sid, [a, b]); var steps := [Go, Go, Env(Other(Exit(p)))];
      && MayRun(s, steps)
      && IsBound(AfterRun(s, steps).c, Path(sid, a)) && !IsBound(AfterRun(s, steps).c, Path(sid, b))
    ensures var s := Starting(c, p, sid, [a, b]);
      var steps := [Go, Go, Env(Take(q, Path(sid, b), ToRemove)), Env(Other(Delete(q, sid, Some(b)))), Go];
      && MayRun(s, steps) && AfterRun(s, steps).b.stage == Coming && AfterRun(s, steps).b.todo == []
      && IsBound(AfterRun(s, steps).c, Path(sid, a)) && !IsBound(AfterRun(s, steps).c, Path(sid, b))
  {
    hide AboutToBind, MayStep, Stepped, HalfWay, AboutToRemove;
    FirstUpdate(c, p, sid, a, b);
    CutOff(c, p, sid, a, b);
    RemovalIsChecked(c, p, q, sid, a, b);
    Removed(c, p, q, sid, a, b);
    var s := Starting(c, p, sid, [a, b]);
    var half := HalfWay(c, p, sid, a, b);
    var cut := Env(Other(Exit(p)));
    OneStep(half, cut);
    TwoStepsMore(s, half, [cut]);
    assert [Go, Go] + [cut] == [Go, Go, cut];
    var look, remove := Env(Take(q, Path(sid, b), ToRemove)), Env(Other(Delete(q, sid, Some(b))));
    var checked := AboutToRemove(half, q, b);
    var removed := Stepped(checked, remove);
    LastSkips(removed, b);
    OneStep(removed, Go);
    assert [remove, Go][1..] == [Go] && [look, remove, Go][1..] == [remove, Go];
    assert MayRun(checked, [remove, Go]) && AfterRun(checked, [remove, Go]) == Stepped(removed, Go);
    assert MayRun(half, [look, remove, Go]) && AfterRun(half, [look, remove, Go]) == Stepped(removed, Go);
    TwoStepsMore(s, half, [look, remove, Go]);
    assert [Go, Go] + [look, remove, Go] == [Go, Go, look, remove, Go];
  }

  lemma OneStep(s: Scene, step: Step)
    requires MayStep(s, step)
    ensures MayRun(s, [step]) && AfterRun(s, [step]) == Stepped(s, step)
  {
    hide MayStep, Stepped;
    assert [step][1..] == [];
    assert MayRun(Stepped(s, step), []) && AfterRun(Stepped(s, step), []) == Stepped(s, step);
  }

  lemma TwoStepsMore(s: Scene, half: Scene, rest: seq<Step>)
    requires MayStep(s, Go) && MayStep(Stepped(s, Go), Go) && Stepped(Stepped(s, Go), Go) == half && MayRun(half, rest)
    ensures MayRun(s, [Go, Go] + rest) && AfterRun(s, [Go, Go] + rest) == AfterRun(half, rest)
  {
    hide MayStep, Stepped;
    assert ([Go, Go] + rest)[1..] == [Go] + rest && ([Go] + rest)[1..] == rest;
    assert MayRun(Stepped(s, Go), [Go] + rest) && AfterRun(Stepped(s, Go), [Go] + rest) == AfterRun(half, rest);
  }

  lemma LastSkips(s: Scene, b: Id)
    requires s.b.todo == [b] && s.b.stage == Coming && Path(s.b.sid, b) !in s.c.w.st.dirs
    ensures MayStep(s, Go) && Stepped(s, Go) == Scene(s.c, s.b.(todo := []))
  {
    assert [b][1..] == [];
  }

  // ----- two attachments that are there, from the empty directory

  const FIRST_ROW: Row := ROW.(phase := Idle)

  const STORED: Directory := Directory(Some(1), Some(PROCESSING), map[])

  const ONE_STORED: World := World(
    State([FIRST_ROW], map[PLACE := STORED], map[], LOCKS),
    History({0}, {1, 2}, {1}, map[0 := 0], {TICKET}, {}, {}, {0}, {}, {}, {}))

  const LEASE2: Lease := Lease(1, "s", 1)
  const TICKET2: Ticket := Ticket(1, LEASE2)
  const PLACE2: Path := Path("s", 1)
  const REQUEST2: Admission := REQUEST.(id := 1, token := 1)
  const ROW2: Row := ROW.(id := 1, token := Some(1))

  const RESERVED2: World := World(
    State([FIRST_ROW, ROW2], map[PLACE := STORED], map[], LOCKS),
    History({0, 1}, {1, 2}, {1}, map[0 := 0, 1 := 1], {TICKET, TICKET2}, {TICKET2}, {}, {0}, {}, {}, {}))

  const WRITTEN2: World := RESERVED2.(st := RESERVED2.st.(parts := map[1 := 1]))

  const TWO_STORED: World := World(
    State([FIRST_ROW, ROW2.(phase := Idle)], map[PLACE := STORED, PLACE2 := STORED], map[], LOCKS),
    RESERVED2.h.(uploads := {}, committed := {0, 1}))

  lemma FirstIsStored()
    ensures COMMITTED == ONE_STORED
  {
    assert RowOf([ROW], 0) == Some(ROW);
    assert COMMITTED.st.rows == [FIRST_ROW] by {
      assert [ROW][1..] == [];
      assert EditAll([], Publish(LEASE, 1)) == [];
    }
    assert COMMITTED.st.dirs == ONE_STORED.st.dirs && COMMITTED.st.parts == map[];
    assert COMMITTED.h.uploads == {} && COMMITTED.h.committed == {0};
  }

  lemma SecondRequestFits()
    ensures AdmissionRefusal([FIRST_ROW], "s", "a", 1, false, MIN_FREE_BYTES + 1).None?
  {
    var rows := [FIRST_ROW];
    assert rows[1..] == [];
    assert forall m :: Use(rows, m) == Weight(m, FIRST_ROW);
    assert ReservedBytes(rows) == 0;
    var scopes := Scopes("s", "a");
    assert forall i | 0 <= i < 3 :: ScopeRefusal(rows, scopes[i], 1).None?;
    assert scopes[1..] == [Actor("a"), Installation] && scopes[1..][1..] == [Installation];
    assert [Installation][1..] == [];
    assert FirstScopeRefusal(rows, [Installation], 1).None?;
    assert FirstScopeRefusal(rows, scopes[1..], 1).None?;
  }

  lemma AfterSecondReservation()
    ensures Enabled(ONE_STORED, Reserve(1, REQUEST2))
    ensures Next(ONE_STORED, Reserve(1, REQUEST2)) == RESERVED2
  {
    SecondRequestFits();
    ReapOfNothing(ONE_STORED.st, 1);
    assert ValidSession("s");
    hide ValidSession, AdmissionRefusal, Reaped;
    var w := Next(ONE_STORED, Reserve(1, REQUEST2));
    assert Reserved(ONE_STORED.st, 1, REQUEST2).1 == Success(LEASE2);
    assert w.st.rows == [FIRST_ROW, ROW2];
    assert w.h.grants == RESERVED2.h.grants && w.h.usedIds == {0, 1};
  }

  lemma AfterSecondWriting()
    ensures Enabled(RESERVED2, WritePart(1, LEASE2, 1))
    ensures Next(RESERVED2, WritePart(1, LEASE2, 1)) == WRITTEN2
  {
    assert [FIRST_ROW, ROW2][1..] == [ROW2];
    assert RowOf([ROW2], 1) == Some(ROW2);
  }

  lemma AfterSecondCommit()
    ensures Enabled(WRITTEN2, Commit(1, LEASE2, "f", 1, true))
    ensures Next(WRITTEN2, Commit(1, LEASE2, "f", 1, true)) == TWO_STORED
  {
    assert [FIRST_ROW, ROW2][1..] == [ROW2] && [ROW2][1..] == [];
    assert RowOf([ROW2], 1) == Some(ROW2);
    assert CommitRefusal(WRITTEN2.st, LEASE2, 1, true).None?;
    var w := Next(WRITTEN2, Commit(1, LEASE2, "f", 1, true));
    assert EditAll([], Publish(LEASE2, 1)) == [];
    assert EditAll([ROW2], Publish(LEASE2, 1)) == [ROW2.(phase := Idle)];
    assert w.st.rows == TWO_STORED.st.rows;
    assert w.st.dirs == TWO_STORED.st.dirs && w.st.parts == map[];
    assert w.h.uploads == {} && w.h.committed == {0, 1};
  }

  const STORING: seq<Event> :=
    COMMITTING + [Reserve(1, REQUEST2)] + [WritePart(1, LEASE2, 1)] + [Commit(1, LEASE2, "f", 1, true)]

  lemma StoringIsReachable()
    ensures Legal(INITIAL, STORING) && After(INITIAL, STORING) == TWO_STORED
  {
    CommittingIsReachable();
    FirstIsStored();
    AfterSecondReservation();
    AfterSecondWriting();
    AfterSecondCommit();
    hide Enabled, Next;
    OneMoreEvent(INITIAL, COMMITTING, Reserve(1, REQUEST2));
    OneMoreEvent(INITIAL, COMMITTING + [Reserve(1, REQUEST2)], WritePart(1, LEASE2, 1));
    OneMoreEvent(INITIAL, COMMITTING + [Reserve(1, REQUEST2)] + [WritePart(1, LEASE2, 1)],
                 Commit(1, LEASE2, "f", 1, true));
  }

  /** Process 1 has finished both parses. */
  const READY: Directory := Parsed(STORED, "text", "index", [], false)

  const TWO_READY: Cluster := Cluster(
    TWO_STORED.(st := TWO_STORED.st.(dirs := map[PLACE := READY, PLACE2 := READY])), map[])

  lemma BothParsesFinish() returns (acts: seq<Act>)
    ensures AllowedAll(Cluster(TWO_STORED, map[]), acts)
    ensures DoneAll(Cluster(TWO_STORED, map[]), acts) == TWO_READY
  {
    var c := Cluster(TWO_STORED, map[]);
    FinishIsActs(c, 1, PLACE, "text", "index", [], false);
    var first := [Take(1, PLACE, ToCheck)] + Stores(1, ParseFiles("text", "index", [], false))
                 + [Take(1, PLACE, ToChange), Put(1, PARSED)];
    var next := Cluster(c.w.(st := WithDirectory(c.w.st, PLACE, READY)), map[]);
    FinishIsActs(next, 1, PLACE2, "text", "index", [], false);
    var second := [Take(1, PLACE2, ToCheck)] + Stores(1, ParseFiles("text", "index", [], false))
                  + [Take(1, PLACE2, ToChange), Put(1, PARSED)];
    hide AllowedAll, DoneAll, Stores, ParseFiles, Parsed;
    ActsJoin(c, first, second);
    assert TWO_READY.w.st.dirs == WithDirectory(next.w.st, PLACE2, READY).dirs;
    acts := first + second;
  }

  lemma ReachedIsInv(c: Cluster)
    requires Reached(c)
    ensures Inv(c.w)
  {
    hide Inv, Enabled, Next;
    var acts :| AllowedAll(START, acts) && DoneAll(START, acts) == c;
    ClusterRunsAreRuns(START, acts);
    InitialInv();
    RunKeeps(INITIAL, EventsOf(START, acts));
  }

  lemma ReadyIsReached()
    ensures Reached(TWO_READY)
  {
    hide AllowedAll, DoneAll;
    var acts := BothParsesFinish();
    StoringIsReachable();
    RunsAreClusterRuns(INITIAL, STORING);
    ActsJoin(START, Others(STORING), acts);
  }

  lemma ReadyToBind()
    ensures AboutToBind(TWO_READY, 1, "s", 0, 1)
  {
    ReadyIsReached();
    ReachedIsInv(TWO_READY);
    hide Inv, Reached;
    assert [FIRST_ROW, ROW2.(phase := Idle)][1..] == [ROW2.(phase := Idle)];
  }

  /** On runs from the empty directory bind() leaves one of two attachments bound and the other not. */
  lemma HalfBoundIsReachable()
    ensures Reached(TWO_READY)
    ensures var s := Starting(TWO_READY, 1, "s", [0, 1]); var steps := [Go, Go, Env(Other(Exit(1)))];
      && MayRun(s, steps)
      && IsBound(AfterRun(s, steps).c, PLACE) && !IsBound(AfterRun(s, steps).c, PLACE2)
    ensures var s := Starting(TWO_READY, 1, "s", [0, 1]);
      var steps := [Go, Go, Env(Take(2, PLACE2, ToRemove)), Env(Other(Delete(2, "s", Some(1)))), Go];
      && MayRun(s, steps) && AfterRun(s, steps).b.stage == Coming && AfterRun(s, steps).b.todo == []
      && IsBound(AfterRun(s, steps).c, PLACE) && !IsBound(AfterRun(s, steps).c, PLACE2)
  {
    hide MayRun, AfterRun, Reached, AboutToBind;
    ReadyIsReached();
    ReadyToBind();
    BindCanBeHalf(TWO_READY, 1, 2, "s", 0, 1);
  }
}
