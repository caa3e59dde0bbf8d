/**
  Runs of several server processes over one attachment data directory.

  An event is one ledger transaction, one file operation outside a transaction,
  one step of a process's life, or a transaction cut short by the death of its
  process.  `History` records what really happened; the program does not see it.
 */
module AttachmentRuns {
  import opened Wrappers
  import opened ResourceTable
  import opened ProcessOwnership
  import opened ResourceTransactions

  /** A lease in the hands of the process that obtained it. */
  datatype Ticket = Ticket(proc: ProcId, lease: Lease)

  datatype History = History(
    usedIds: set<Id>, usedIncs: set<Incarnation>, published: set<Incarnation>,
    grants: map<Token, Id>, // the attachment each token drawn so far was drawn for
    held: set<Ticket>,      // leases obtained by processes that still run
    uploads: set<Ticket>,   // uploads really open: not yet committed, refused or aborted
    workers: set<Ticket>,   // workers really running: told "started", not yet finished
    committed: set<Token>,  // leases that were committed
    started: set<Token>,    // leases that were told "started"
    removed: set<Path>,     // attachments a completed delete covered
    leaked: set<Id>)        // parts orphaned by a crash inside abort

  datatype World = World(st: State, h: History)

  datatype Event =
    | Boot(p: ProcId, pid: nat, inc: Incarnation)
    | Fork(p: ProcId, child: ProcId, pid: nat)
    | AfterFork(p: ProcId, inc: Incarnation)
    | Exit(p: ProcId)
    | Reserve(p: ProcId, a: Admission)
    | WritePart(p: ProcId, lease: Lease, size: nat)
    | Commit(p: ProcId, lease: Lease, filename: string, size: nat, checkPasses: bool)
    | CommitAgain(p: ProcId, lease: Lease, filename: string, size: nat, checkPasses: bool)
    | CommitCrash(p: ProcId, lease: Lease, filename: string, size: nat, reached: Progress)
    | Abort(p: ProcId, lease: Lease)
    | AbortCrash(p: ProcId, lease: Lease)
    | Queue(p: ProcId, sid: string, aid: Id, actor: string, token: Token)
    | TryStart(p: ProcId, lease: Lease)
    | FinishJob(p: ProcId, lease: Lease)
    | Active(p: ProcId)
    | Delete(p: ProcId, sid: string, target: Option<Id>)
    | DeleteCrash(p: ProcId, sid: string, target: Option<Id>, dirs: map<Path, Directory>)
    | ReapCrash(p: ProcId, dirs: map<Path, Directory>, parts: map<Id, nat>, linked: set<Incarnation>)
    | PutMeta(p: ProcId, path: Path, meta: Meta)
    | PutFile(p: ProcId, path: Path, name: FileName, content: string)

  const INITIAL: World :=
    World(State([], map[], map[], Locks({}, map[])), History({}, {}, {}, map[], {}, {}, {}, {}, {}, {}, {}))

  predicate Up(k: Locks, p: ProcId) {
    p in k.procs && !k.procs[p].forking
  }

  /** Some files of some of these directories may be gone; every other directory is as before. */
  ghost predicate PartlyRemoved(before: map<Path, Directory>, after: map<Path, Directory>, targets: set<Path>) {
    && after.Keys <= before.Keys
    && (forall d | d in before && d !in targets :: d in after && after[d] == before[d])
    && (forall d | d in after ::
          && (after[d].source == before[d].source || after[d].source == None)
          && (after[d].meta == before[d].meta || after[d].meta == None)
          && after[d].files.Keys <= before[d].files.Keys)
  }

  /** What the program and its environment guarantee when an event happens. */
  ghost predicate Enabled(w: World, e: Event) {
    match e
    case Boot(p, _, inc) => p !in w.st.locks.procs && inc !in w.h.usedIncs
    case Fork(p, child, _) => Up(w.st.locks, p) && child !in w.st.locks.procs
    case AfterFork(p, inc) => p in w.st.locks.procs && w.st.locks.procs[p].forking && inc !in w.h.usedIncs
    case Exit(p) => p in w.st.locks.procs
    case Reserve(p, a) => Up(w.st.locks, p) && a.id !in w.h.usedIds && a.token !in w.h.grants
    case WritePart(p, lease, size) =>
      && Ticket(p, lease) in w.h.uploads
      && RowOf(w.st.rows, lease.id).Some? && size <= RowOf(w.st.rows, lease.id).value.bytes
    case Commit(p, lease, _, _, _) => Ticket(p, lease) in w.h.uploads
    case CommitAgain(p, lease, _, _, _) => Ticket(p, lease) in w.h.held - w.h.uploads
    case CommitCrash(p, lease, _, size, _) =>
      Ticket(p, lease) in w.h.uploads && CommitRefusal(w.st, lease, size, true).None?
    case Abort(p, lease) => Ticket(p, lease) in w.h.held
    case AbortCrash(p, lease) => Ticket(p, lease) in w.h.uploads
    case Queue(p, _, _, _, token) => Up(w.st.locks, p) && token !in w.h.grants
    case TryStart(p, lease) => Ticket(p, lease) in w.h.held - w.h.uploads && Up(w.st.locks, p)
    case FinishJob(p, lease) => Ticket(p, lease) in w.h.held - w.h.uploads
    case Active(p) => Up(w.st.locks, p)
    case Delete(p, _, _) => Up(w.st.locks, p)
    case DeleteCrash(p, sid, target, dirs) =>
      Up(w.st.locks, p) && PartlyRemoved(w.st.dirs, dirs, TargetPaths(w.st, sid, target))
    case ReapCrash(p, dirs, parts, linked) =>
      && Up(w.st.locks, p)
      && var dead := DeadOwners(w.st, p);
      && PartlyRemoved(w.st.dirs, dirs, DeadUploads(w.st.rows, dead))
      && parts.Keys <= w.st.parts.Keys
      && (forall id | id in w.st.parts && id !in DeadParts(w.st.rows, dead) :: id in parts)
      && (forall id | id in parts :: parts[id] == w.st.parts[id])
      && Unlinked(w.st.locks, dead).linked <= linked <= w.st.locks.linked
    case PutMeta(p, path, _) => Up(w.st.locks, p) && path in w.st.dirs
    case PutFile(p, path, _, _) => Up(w.st.locks, p) && path in w.st.dirs
  }

  function WithoutProc(ts: set<Ticket>, p: ProcId): set<Ticket> {
    set t | t in ts && t.proc != p
  }

  /** A process dies: the operating system closes its descriptors and its work stops. */
  function AfterExit(w: World, p: ProcId): World {
    World(w.st.(locks := Exited(w.st.locks, p)),
          w.h.(held := WithoutProc(w.h.held, p), uploads := WithoutProc(w.h.uploads, p),
               workers := WithoutProc(w.h.workers, p)))
  }

  function AfterBoot(w: World, p: ProcId, pid: nat, inc: Incarnation): World {
    World(w.st.(locks := Booted(w.st.locks, p, pid, inc)), w.h.(usedIncs := w.h.usedIncs + {inc}))
  }

  function AfterForking(w: World, p: ProcId, child: ProcId, pid: nat): World
    requires p in w.st.locks.procs
  {
    w.(st := w.st.(locks := Forked(w.st.locks, p, child, pid)))
  }

  function AfterForkHandler(w: World, p: ProcId, inc: Incarnation): World
    requires p in w.st.locks.procs
  {
    World(w.st.(locks := ForkHandled(w.st.locks, p, inc)), w.h.(usedIncs := w.h.usedIncs + {inc}))
  }

  function AfterReap(w: World, p: ProcId): World
    requires Up(w.st.locks, p)
  {
    w.(st := Reaped(w.st, p))
  }

  function AfterReserve(w: World, p: ProcId, a: Admission): World
    requires Up(w.st.locks, p)
  {
    var (st, r) := Reserved(w.st, p, a);
    var h := w.h.(usedIds := w.h.usedIds + {a.id}, grants := w.h.grants[a.token := a.id]);
    if r.Failure? then World(st, h)
    else
      var t := Ticket(p, r.value);
      World(st, h.(held := h.held + {t}, uploads := h.uploads + {t},
                   published := h.published + {w.st.locks.procs[p].incarnation}))
  }

  function AfterWrite(w: World, lease: Lease, size: nat): World {
    w.(st := w.st.(parts := w.st.parts[lease.id := size]))
  }

  function AfterCommit(w: World, p: ProcId, lease: Lease, filename: string, size: nat, checkPasses: bool): World {
    var (st, r) := Committed(w.st, lease, filename, size, checkPasses);
    var h := w.h.(uploads := w.h.uploads - {Ticket(p, lease)});
    World(st, if r.Success? then h.(committed := h.committed + {lease.token}) else h)
  }

  /** The ledger's own commit for a lease that is no open upload, without the store's clean-up:
      a transaction that is refused changes nothing. */
  function AfterCommitAgain(w: World, p: ProcId, lease: Lease, filename: string, size: nat, checkPasses: bool): World {
    if CommitRefusal(w.st, lease, size, checkPasses).Some? then w
    else AfterCommit(w, p, lease, filename, size, checkPasses)
  }

  function AfterCommitCrash(w: World, p: ProcId, lease: Lease, filename: string, size: nat, reached: Progress): World {
    AfterExit(w.(st := Published(w.st, lease, filename, size, reached)), p)
  }

  function AfterAbort(w: World, p: ProcId, lease: Lease): World {
    World(Aborted(w.st, lease), w.h.(uploads := w.h.uploads - {Ticket(p, lease)}))
  }

  function AfterAbortCrash(w: World, p: ProcId, lease: Lease): World {
    AfterExit(World(w.st.(rows := EditAll(w.st.rows, Cancel(lease))),
                    w.h.(leaked := w.h.leaked + (if lease.id in w.st.parts then {lease.id} else {}))), p)
  }

  function AfterQueue(w: World, p: ProcId, sid: string, aid: Id, actor: string, token: Token): World
    requires Up(w.st.locks, p)
  {
    var (st, r) := QueuedFor(w.st, p, sid, aid, actor, token);
    var h := w.h.(grants := w.h.grants[token := aid]);
    if r.Failure? then World(st, h)
    else World(st, h.(held := h.held + {Ticket(p, r.value)},
                      published := h.published + {w.st.locks.procs[p].incarnation}))
  }

  function AfterTryStart(w: World, p: ProcId, lease: Lease): World
    requires Up(w.st.locks, p)
  {
    var (st, v) := TriedToStart(w.st, p, lease);
    if v != Started then w.(st := st)
    else World(st, w.h.(workers := w.h.workers + {Ticket(p, lease)}, started := w.h.started + {lease.token}))
  }

  function AfterFinish(w: World, p: ProcId, lease: Lease): World {
    World(Finished(w.st, lease), w.h.(workers := w.h.workers - {Ticket(p, lease)}))
  }

  function CoveredPaths(st: State, sid: string, target: Option<Id>): set<Path> {
    TargetPaths(st, sid, target) + set r | r in st.rows && Matches(r, sid, target) :: PathOf(r)
  }

  function AfterDelete(w: World, sid: string, target: Option<Id>): World {
    World(Deleted(w.st, sid, target), w.h.(removed := w.h.removed + CoveredPaths(w.st, sid, target)))
  }

  function Next(w: World, e: Event): World
    requires Enabled(w, e)
  {
    match e
    case Boot(p, pid, inc) => AfterBoot(w, p, pid, inc)
    case Fork(p, child, pid) => AfterForking(w, p, child, pid)
    case AfterFork(p, inc) => AfterForkHandler(w, p, inc)
    case Exit(p) => AfterExit(w, p)
    case Reserve(p, a) => AfterReserve(w, p, a)
    case WritePart(_, lease, size) => AfterWrite(w, lease, size)
    case Commit(p, lease, filename, size, checkPasses) => AfterCommit(w, p, lease, filename, size, checkPasses)
    case CommitAgain(p, lease, filename, size, checkPasses) =>
      AfterCommitAgain(w, p, lease, filename, size, checkPasses)
    case CommitCrash(p, lease, filename, size, reached) => AfterCommitCrash(w, p, lease, filename, size, reached)
    case Abort(p, lease) => AfterAbort(w, p, lease)
    case AbortCrash(p, lease) => AfterAbortCrash(w, p, lease)
    case Queue(p, sid, aid, actor, token) => AfterQueue(w, p, sid, aid, actor, token)
    case TryStart(p, lease) => AfterTryStart(w, p, lease)
    case FinishJob(p, lease) => AfterFinish(w, p, lease)
    case Active(p) => AfterReap(w, p)
    case Delete(_, sid, target) => AfterDelete(w, sid, target)
    case DeleteCrash(p, _, _, dirs) => AfterExit(w.(st := w.st.(dirs := dirs)), p)
    case ReapCrash(p, dirs, parts, linked) =>
      AfterExit(w.(st := w.st.(dirs := dirs, parts := parts, locks := w.st.locks.(linked := linked))), p)
    case PutMeta(_, path, meta) => w.(st := w.st.(dirs := w.st.dirs[path := w.st.dirs[path].(meta := Some(meta))]))
    case PutFile(_, path, name, content) =>
      w.(st := w.st.(dirs := w.st.dirs[path := w.st.dirs[path].(files := w.st.dirs[path].files[name := content])]))
  }
}
