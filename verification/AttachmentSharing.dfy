/**
  Several processes that read and write metadata, each under its own lock.

  `_LOCK` is a lock of one process: between the moment a process reads the metadata of
  an attachment and the moment it writes them back, or deletes what it looked at,
  other processes go on.
 */
module AttachmentSharing {
  import opened Wrappers
  import opened ResourceTable
  import opened ProcessOwnership
  import opened ResourceTransactions
  import opened AttachmentRuns
  import opened AttachmentInvariant
  import AttachmentSteps
  import opened AttachmentTheorems
  import opened AttachmentConsistency
  import opened AttachmentStores

  /** Why a process has read metadata: finish, image_url and bind only look whether they are there,
      update() writes its copy back, remove() goes by what its copy says. */
  datatype Purpose = ToCheck | ToChange | ToRemove

  /** A process in the locked part of a method of the store: what it read, and why. */
  datatype Hand = Hand(path: Path, meta: Meta, purpose: Purpose)

  datatype Cluster = Cluster(w: World, hands: map<ProcId, Hand>)

  datatype Act =
    | Take(p: ProcId, path: Path, purpose: Purpose)
    | Put(p: ProcId, changes: Changes)
    | Store(p: ProcId, name: FileName, content: string)
    | Drop(p: ProcId)
    | Other(e: Event)

  const START: Cluster := Cluster(INITIAL, map[])

  /** A deletion by remove() follows its check; what else takes the lock needs it free. Metadata and
      files are written by Put and Store only. */
  predicate LockAllows(c: Cluster, e: Event) {
    match e
    case Delete(p, sid, Some(aid)) => p in c.hands && RemovalPassed(c.hands[p], Path(sid, aid))
    case DeleteCrash(p, sid, Some(aid), _) => p in c.hands && RemovalPassed(c.hands[p], Path(sid, aid))
    case Delete(p, _, None) => p !in c.hands
    case DeleteCrash(p, _, None, _) => p !in c.hands
    case Commit(p, _, _, _, _) => p !in c.hands
    case CommitCrash(p, _, _, _, _) => p !in c.hands
    case PutMeta(_, _, _) => false
    case PutFile(_, _, _, _) => false
    case _ => true
  }

  predicate RemovalPassed(h: Hand, path: Path) {
    h.path == path && h.purpose == ToRemove && !h.meta.bound
  }

  /** A look may be followed by files and by a new reading for update(), which is called with `bound` by
      bind() only, and then to set it. */
  ghost predicate Allowed(c: Cluster, a: Act) {
    match a
    case Take(p, path, purpose) =>
      && Up(c.w.st.locks, p) && Get(c.w.st, path).Some?
      && (p in c.hands ==> c.hands[p].path == path && c.hands[p].purpose == ToCheck && purpose == ToChange)
    case Put(p, changes) =>
      Up(c.w.st.locks, p) && p in c.hands && c.hands[p].purpose == ToChange && changes.bound != Some(false)
    case Store(p, _, _) => Up(c.w.st.locks, p) && p in c.hands && c.hands[p].purpose == ToCheck
    case Drop(p) => p in c.hands
    case Other(e) => Enabled(c.w, e) && LockAllows(c, e)
  }

  /** The processes whose locked part ends with the event, or that are new. */
  function LetsGo(e: Event): set<ProcId> {
    match e
    case Boot(p, _, _) => {p}
    case Fork(_, child, _) => {child}
    case AfterFork(p, _) => {p}
    case Exit(p) => {p}
    case CommitCrash(p, _, _, _, _) => {p}
    case AbortCrash(p, _) => {p}
    case DeleteCrash(p, _, _, _) => {p}
    case ReapCrash(p, _, _, _) => {p}
    case Delete(p, _, Some(_)) => {p}
    case _ => {}
  }

  /** What the act does outside its own process: a file cannot be written into a directory that is gone. */
  function EventOf(c: Cluster, a: Act): Option<Event> {
    match a
    case Put(p, changes) =>
      if p in c.hands && c.hands[p].path in c.w.st.dirs
      then Some(PutMeta(p, c.hands[p].path, Changed(c.hands[p].meta, changes)))
      else None
    case Store(p, name, content) =>
      if p in c.hands && c.hands[p].path in c.w.st.dirs then Some(PutFile(p, c.hands[p].path, name, content)) else None
    case Other(e) => Some(e)
    case _ => None
  }

  function HandsAfter(c: Cluster, a: Act): map<ProcId, Hand>
    requires a.Take? ==> Get(c.w.st, a.path).Some?
  {
    match a
    case Take(p, path, purpose) => c.hands[p := Hand(path, Get(c.w.st, path).value, purpose)]
    case Put(p, _) => c.hands - {p}
    case Store(_, _, _) => c.hands
    case Drop(p) => c.hands - {p}
    case Other(e) => c.hands - LetsGo(e)
  }

  function Done(c: Cluster, a: Act): Cluster
    requires Allowed(c, a)
  {
    var e := EventOf(c, a);
    Cluster(if e.Some? then Next(c.w, e.value) else c.w, HandsAfter(c, a))
  }

  ghost predicate AllowedAll(c: Cluster, acts: seq<Act>)
    decreases |acts|
  {
    acts == [] || (Allowed(c, acts[0]) && AllowedAll(Done(c, acts[0]), acts[1..]))
  }

  ghost function DoneAll(c: Cluster, acts: seq<Act>): Cluster
    requires AllowedAll(c, acts)
    decreases |acts|
  {
    if acts == [] then c else DoneAll(Done(c, acts[0]), acts[1..])
  }

  // ----- every run of the cluster is a run of the world

  ghost function EventsOf(c: Cluster, acts: seq<Act>): seq<Event>
    requires AllowedAll(c, acts)
    decreases |acts|
  {
    if acts == [] then []
    else
      var rest := EventsOf(Done(c, acts[0]), acts[1..]);
      var e := EventOf(c, acts[0]);
      if e.Some? then [e.value] + rest else rest
  }

  lemma {:induction false} ClusterRunsAreRuns(c: Cluster, acts: seq<Act>)
    requires AllowedAll(c, acts)
    ensures Legal(c.w, EventsOf(c, acts))
    ensures After(c.w, EventsOf(c, acts)) == DoneAll(c, acts).w
    decreases |acts|
  {
    hide Next, Enabled, Allowed;
    if acts != [] {
      var next := Done(c, acts[0]);
      ClusterRunsAreRuns(next, acts[1..]);
      var e := EventOf(c, acts[0]);
      if e.Some? {
        EventIsEnabled(c, acts[0]);
        assert EventsOf(c, acts)[1..] == EventsOf(next, acts[1..]);
      }
    }
  }

  lemma EventIsEnabled(c: Cluster, a: Act)
    requires Allowed(c, a) && EventOf(c, a).Some?
    ensures Enabled(c.w, EventOf(c, a).value)
  {
  }

  // ----- deleted attachments

  /** The clusters that acts lead to from an empty directory. */
  ghost predicate Reached(c: Cluster) {
    exists acts :: AllowedAll(START, acts) && DoneAll(START, acts) == c
  }

  /** A run of the cluster being a run of the world, nothing that was deleted comes back, whatever a process
      that read it before still writes. */
  lemma NothingComesBack(c: Cluster, a: Act, later: seq<Act>, d: Path)
    requires Reached(c) && Allowed(c, a) && a.Other? && a.e.Delete?
    requires d in CoveredPaths(c.w.st, a.e.sid, a.e.target)
    requires AllowedAll(Done(c, a), later)
    ensures Get(DoneAll(Done(c, a), later).w.st, d) == None
  {
    hide Next, Enabled, CoveredPaths;
    var before :| AllowedAll(START, before) && DoneAll(START, before) == c;
    ClusterRunsAreRuns(START, before);
    EventIsEnabled(c, a);
    ClusterRunsAreRuns(Done(c, a), later);
    NoResurrection(EventsOf(START, before), a.e.p, a.e.sid, a.e.target, EventsOf(Done(c, a), later), d);
  }

  // ----- bound attachments

  /** The copy will be written back, or decides about a removal, and does not have the flag. */
  predicate Outdated(h: Hand, d: Path) {
    h.path == d && h.purpose != ToCheck && !h.meta.bound
  }

  /** A process that is up acts on a copy of the metadata from before the attachment was bound. */
  ghost predicate StaleCopy(c: Cluster, d: Path) {
    exists p :: p in c.hands && Up(c.w.st.locks, p) && Outdated(c.hands[p], d)
  }

  predicate Purges(a: Act, sid: string) {
    match a
    case Other(Delete(_, s, None)) => s == sid
    case Other(DeleteCrash(_, s, None, _)) => s == sid
    case _ => false
  }

  predicate NoPurge(acts: seq<Act>, sid: string) {
    forall i | 0 <= i < |acts| :: !Purges(acts[i], sid)
  }

  /**
    A bound attachment is kept in every continuation without a purge of its
    conversation if and only if no process acts on a copy of its metadata from
    before it was bound: neither a passed check of remove() nor one that
    update() is about to write back.
   */
  lemma BoundIsSafeIff(c: Cluster, d: Path)
    requires Inv(c.w) && BoundAndCommitted(c.w, d)
    ensures !StaleCopy(c, d) <==>
      forall acts | AllowedAll(c, acts) && NoPurge(acts, d.session) :: BoundAndCommitted(DoneAll(c, acts).w, d)
  {
    hide BoundAndCommitted, Inv, Purges, Allowed;
    if !StaleCopy(c, d) {
      forall acts | AllowedAll(c, acts) && NoPurge(acts, d.session) ensures BoundAndCommitted(DoneAll(c, acts).w, d) {
        ActsKeepBound(c, acts, d);
      }
    } else {
      var a := StaleCopyLoses(c, d);
      OneAct(c, a);
      assert AllowedAll(c, [a]) && NoPurge([a], d.session);
    }
  }

  /** When no other process has read the attachment, as when one process serves its conversation,
      binding it makes it safe. */
  lemma BindingAloneIsSafe(c: Cluster, p: ProcId, changes: Changes)
    requires Allowed(c, Put(p, changes)) && changes.bound == Some(true)
    requires c.hands[p].path in c.w.st.dirs
    requires forall q | q in c.hands && q != p :: !Outdated(c.hands[q], c.hands[p].path)
    ensures var d := c.hands[p].path; var next := Done(c, Put(p, changes));
      && !StaleCopy(next, d) && Get(next.w.st, d).Some? && Get(next.w.st, d).value.bound
  {
  }

  // ----- what one act does to a bound attachment

  lemma UpBefore(w: World, e: Event, q: ProcId)
    requires Enabled(w, e) && Up(Next(w, e).st.locks, q) && q !in LetsGo(e)
    ensures Up(w.st.locks, q)
  {
    hide RowOf, EditAll, AdmissionRefusal, QueueRefusal, StartVerdict;
    hide CommitRefusal, DeadUploads, DeadParts, DeadOwners, PartlyRemoved;
  }

  lemma ActSparesBound(c: Cluster, a: Act, d: Path)
    requires Allowed(c, a) && !StaleCopy(c, d) && !Purges(a, d.session)
    requires BoundAndCommitted(c.w, d)
    ensures EventOf(c, a).Some? ==> Spares(EventOf(c, a).value, d)
  {
    hide Enabled, BoundAndCommitted;
    match a
    case Put(p, _) => assert c.hands[p].path == d ==> c.hands[p].meta.bound;
    case Other(Delete(p, sid, Some(aid))) => UpIfDeletes(c, a);
    case Other(DeleteCrash(p, sid, Some(aid), _)) => UpIfDeletes(c, a);
    case _ =>
  }

  lemma UpIfDeletes(c: Cluster, a: Act)
    requires Allowed(c, a) && a.Other? && (a.e.Delete? || a.e.DeleteCrash?)
    ensures Up(c.w.st.locks, a.e.p)
  {
  }

  lemma ActKeepsCopiesFresh(c: Cluster, a: Act, d: Path)
    requires Allowed(c, a) && !StaleCopy(c, d) && BoundAndCommitted(c.w, d)
    ensures !StaleCopy(Done(c, a), d)
  {
    hide Enabled, Next;
    var next := Done(c, a);
    forall q | q in next.hands && Up(next.w.st.locks, q) ensures !Outdated(next.hands[q], d) {
      if a.Other? {
        UpBefore(c.w, a.e, q);
      } else if EventOf(c, a).Some? {
        EventIsEnabled(c, a);
        UpBefore(c.w, EventOf(c, a).value, q);
      }
    }
  }

  lemma ActKeepsBound(c: Cluster, a: Act, d: Path)
    requires Inv(c.w) && Allowed(c, a) && !StaleCopy(c, d) && !Purges(a, d.session)
    requires BoundAndCommitted(c.w, d)
    ensures Inv(Done(c, a).w) && BoundAndCommitted(Done(c, a).w, d) && !StaleCopy(Done(c, a), d)
    ensures Done(c, a).w.st.dirs[d].source == c.w.st.dirs[d].source
  {
    hide Inv, Enabled, Next, StaleCopy, Spares, Allowed;
    ActSparesBound(c, a, d);
    ActKeepsCopiesFresh(c, a, d);
    var e := EventOf(c, a);
    if e.Some? {
      EventIsEnabled(c, a);
      BoundSurvives(c.w, e.value, d);
      AttachmentSteps.StepKeeps(c.w, e.value);
    }
  }

  lemma {:induction false} ActsKeepBound(c: Cluster, acts: seq<Act>, d: Path)
    requires Inv(c.w) && AllowedAll(c, acts) && !StaleCopy(c, d) && NoPurge(acts, d.session)
    requires BoundAndCommitted(c.w, d)
    ensures BoundAndCommitted(DoneAll(c, acts).w, d)
    ensures DoneAll(c, acts).w.st.dirs[d].source == c.w.st.dirs[d].source
    decreases |acts|
  {
    hide Inv, Allowed, Done, StaleCopy, Purges;
    if acts != [] {
      ActKeepsBound(c, acts[0], d);
      ActsKeepBound(Done(c, acts[0]), acts[1..], d);
    }
  }

  /** With a stale copy about, one act of its holder is enough to lose the attachment or its flag. */
  lemma StaleCopyLoses(c: Cluster, d: Path) returns (a: Act)
    requires StaleCopy(c, d) && BoundAndCommitted(c.w, d)
    ensures Allowed(c, a) && !Purges(a, d.session) && !BoundAndCommitted(Done(c, a).w, d)
  {
    var p :| p in c.hands && Up(c.w.st.locks, p) && Outdated(c.hands[p], d);
    if c.hands[p].purpose == ToChange {
      a := Put(p, Changes(None, None, None));
    } else {
      a := Other(Delete(p, d.session, Some(d.id)));
    }
  }

  lemma OneAct(c: Cluster, a: Act)
    requires Allowed(c, a)
    ensures AllowedAll(c, [a]) && DoneAll(c, [a]) == Done(c, a)
  {
    hide Done, Allowed;
    assert [a][1..] == [];
    assert AllowedAll(Done(c, a), []) && DoneAll(Done(c, a), []) == Done(c, a);
  }
}
