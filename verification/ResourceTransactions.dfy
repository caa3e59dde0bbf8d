/**
  What each transaction of the attachment ledger does to the shared data
  directory: the table, the attachment directories, the upload parts and the
  lock files.  A transaction that is refused rolls its table changes back, but
  files its reap has removed stay removed.
 */
module ResourceTransactions {
  import opened Wrappers
  import opened ResourceTable
  import opened ProcessOwnership

  datatype Path = Path(session: string, id: Id)

  datatype Status = Processing | Ready | Failed

  datatype Meta = Meta(filename: string, size: nat, status: Status, bound: bool, error: string)

  datatype FileName = ParsedText | NativeText | ParsedIndex | ImageText(index: nat)

  /** One attachment directory: the source and its size, metadata.json, and the derived files. */
  datatype Directory = Directory(source: Option<nat>, meta: Option<Meta>, files: map<FileName, string>)

  datatype State = State(rows: seq<Row>, dirs: map<Path, Directory>, parts: map<Id, nat>, locks: Locks)

  datatype Refusal =
    | InvalidSession | ConversationChanged | DiskFull
    | StorageFull(scope: Scope) | TooManyUploads(scope: Scope) | ParsingBusy
    | Cancelled | BadSize | MissingPart | IncompletePart | DirectoryExists | PublishFailed
    | NotFound | AlreadyParsing

  datatype Verdict = Missing | Wait | Started

  predicate ValidSession(sid: string) {
    1 <= |sid| <= 200 &&
    forall c | c in sid :: 'a' <= c <= 'z' || 'A' <= c <= 'Z' || '0' <= c <= '9' || c == '_' || c == '-'
  }

  function PathOf(r: Row): Path {
    Path(r.session, r.id)
  }

  // ----- reap

  function DeadOwners(st: State, p: ProcId): set<Owner>
    requires p in st.locks.procs
  {
    set r | r in st.rows && r.phase != Idle && !OwnerAlive(st.locks, p, r.owner) :: r.owner
  }

  function DeadUploads(rows: seq<Row>, dead: set<Owner>): set<Path> {
    set r | r in rows && r.owner in dead && r.phase == Upload :: PathOf(r)
  }

  function DeadParts(rows: seq<Row>, dead: set<Owner>): set<Id> {
    set r | r in rows && r.owner in dead && r.phase == Upload :: r.id
  }

  /** The part of a reap no rollback brings back. */
  function ReapFiles(st: State, dead: set<Owner>): State {
    st.(dirs := st.dirs - DeadUploads(st.rows, dead),
        parts := st.parts - DeadParts(st.rows, dead),
        locks := Unlinked(st.locks, dead))
  }

  function Reaped(st: State, p: ProcId): State
    requires p in st.locks.procs
  {
    var dead := DeadOwners(st, p);
    ReapFiles(st, dead).(rows := EditAll(st.rows, Reclaim(dead)))
  }

  /** A transaction that reaped and then raised. */
  function ReapedAndRolledBack(st: State, p: ProcId): State
    requires p in st.locks.procs
  {
    ReapFiles(st, DeadOwners(st, p))
  }

  // ----- reserve

  function ReservedBytes(rows: seq<Row>): nat {
    if rows == [] then 0
    else (if rows[0].phase == Upload then rows[0].bytes else 0) + ReservedBytes(rows[1..])
  }

  function ScopeRefusal(rows: seq<Row>, scope: Scope, maxBytes: nat): Option<Refusal> {
    if Use(rows, Files(scope)) >= Limit(Files(scope)) || Use(rows, Bytes(scope)) + maxBytes > Limit(Bytes(scope))
    then Some(StorageFull(scope))
    else if Use(rows, Uploads(scope)) >= Limit(Uploads(scope)) then Some(TooManyUploads(scope))
    else None
  }

  function FirstScopeRefusal(rows: seq<Row>, scopes: seq<Scope>, maxBytes: nat): Option<Refusal> {
    if scopes == [] then None
    else if ScopeRefusal(rows, scopes[0], maxBytes).Some? then ScopeRefusal(rows, scopes[0], maxBytes)
    else FirstScopeRefusal(rows, scopes[1..], maxBytes)
  }

  predicate ParsingFull(rows: seq<Row>, actor: string) {
    Use(rows, PendingParses) >= PENDING_PARSES || Use(rows, PendingParsesOf(actor)) >= ACTOR_PARSES
  }

  function Scopes(sid: string, actor: string): seq<Scope> {
    [Session(sid), Actor(actor), Installation]
  }

  function AdmissionRefusal(rows: seq<Row>, sid: string, actor: string, maxBytes: nat, parse: bool, free: nat)
    : Option<Refusal>
  {
    if free < ReservedBytes(rows) + maxBytes + MIN_FREE_BYTES then Some(DiskFull)
    else if FirstScopeRefusal(rows, Scopes(sid, actor), maxBytes).Some?
    then FirstScopeRefusal(rows, Scopes(sid, actor), maxBytes)
    else if parse && ParsingFull(rows, actor) then Some(ParsingBusy)
    else None
  }

  /** The request for admission: who asks, for what, and what its surroundings answer. */
  datatype Admission = Admission(
    session: string, actor: string, maxBytes: nat, parse: bool, checkPasses: bool, free: nat, id: Id, token: Token)

  function AdmittedRow(a: Admission, owner: Owner): Row {
    Row(a.id, a.session, a.actor, a.maxBytes, true, Upload, a.actor, owner, Some(a.token), a.parse)
  }

  function Reserved(st: State, p: ProcId, a: Admission): (State, Result<Lease, Refusal>)
    requires p in st.locks.procs
  {
    if !ValidSession(a.session) then (st, Failure(InvalidSession))
    else
      var reaped := Reaped(st, p);
      if !a.checkPasses then (ReapedAndRolledBack(st, p), Failure(ConversationChanged))
      else
        match AdmissionRefusal(reaped.rows, a.session, a.actor, a.maxBytes, a.parse, a.free)
        case Some(why) => (ReapedAndRolledBack(st, p), Failure(why))
        case None =>
          (reaped.(rows := reaped.rows + [AdmittedRow(a, OwnerOf(reaped.locks, p))],
                   locks := Identified(reaped.locks, p)),
           Success(Lease(a.id, a.session, a.token)))
  }

  // ----- commit and abort of an upload

  function CommitRefusal(st: State, lease: Lease, size: nat, checkPasses: bool): Option<Refusal> {
    match RowOf(st.rows, lease.id)
    case None => Some(Cancelled)
    case Some(r) =>
      if !Holds(r, lease) || r.phase != Upload || !r.retained then Some(Cancelled)
      else if !(0 < size <= r.bytes) then Some(BadSize)
      else if !checkPasses then Some(ConversationChanged)
      else if lease.id !in st.parts then Some(MissingPart)
      else if st.parts[lease.id] != size then Some(IncompletePart)
      else if Path(lease.session, lease.id) in st.dirs then Some(DirectoryExists)
      else None
  }

  function NewMeta(filename: string, size: nat): Meta {
    Meta(filename, size, Processing, false, "")
  }

  /** publish(): make the directory, move the part into it, write the metadata. */
  function PublishFiles(st: State, lease: Lease, filename: string, size: nat): State {
    st.(dirs := st.dirs[Path(lease.session, lease.id) := Directory(Some(size), Some(NewMeta(filename, size)), map[])],
        parts := st.parts - {lease.id})
  }

  /** How far publish() had come when it failed, or when its process died. */
  datatype Progress = DirectoryMade | SourceMoved | MetadataWritten

  function Published(st: State, lease: Lease, filename: string, size: nat, reached: Progress): State {
    var d := Path(lease.session, lease.id);
    match reached
    case DirectoryMade => st.(dirs := st.dirs[d := Directory(None, None, map[])])
    case SourceMoved => st.(dirs := st.dirs[d := Directory(Some(size), None, map[])], parts := st.parts - {lease.id})
    case MetadataWritten => PublishFiles(st, lease, filename, size)
  }

  function Aborted(st: State, lease: Lease): State {
    st.(rows := EditAll(st.rows, Cancel(lease)), parts := st.parts - {lease.id})
  }

  /** The exception handler of commit_upload: it removes the directory and aborts. */
  function CleanedUp(st: State, lease: Lease): State {
    Aborted(st.(dirs := st.dirs - {Path(lease.session, lease.id)}), lease)
  }

  /** commit_upload with its exception handler. */
  function Committed(st: State, lease: Lease, filename: string, size: nat, checkPasses: bool)
    : (State, Result<Meta, Refusal>)
  {
    match CommitRefusal(st, lease, size, checkPasses)
    case Some(why) =>
      (CleanedUp(st, lease), Failure(why))
    case None =>
      (PublishFiles(st, lease, filename, size).(rows := EditAll(st.rows, Publish(lease, size))),
       Success(NewMeta(filename, size)))
  }

  // ----- the parse job

  function QueueRefusal(rows: seq<Row>, sid: string, aid: Id, actor: string): Option<Refusal> {
    match RowOf(rows, aid)
    case None => Some(NotFound)
    case Some(r) =>
      if r.session != sid || !r.retained then Some(NotFound)
      else if r.phase != Idle then Some(AlreadyParsing)
      else if ParsingFull(rows, actor) then Some(ParsingBusy)
      else None
  }

  function QueuedFor(st: State, p: ProcId, sid: string, aid: Id, actor: string, token: Token)
    : (State, Result<Lease, Refusal>)
    requires p in st.locks.procs
  {
    var reaped := Reaped(st, p);
    match QueueRefusal(reaped.rows, sid, aid, actor)
    case Some(why) => (ReapedAndRolledBack(st, p), Failure(why))
    case None =>
      (reaped.(rows := EditAll(reaped.rows, Enqueue(aid, actor, OwnerOf(reaped.locks, p), token)),
               locks := Identified(reaped.locks, p)),
       Success(Lease(aid, sid, token)))
  }

  function StartVerdict(rows: seq<Row>, lease: Lease): Verdict {
    match RowOf(rows, lease.id)
    case None => Missing
    case Some(r) =>
      if !Holds(r, lease) || !r.retained || r.phase != Queued then Missing
      else if Use(rows, RunningParses) >= RUNNING_PARSES then Wait
      else Started
  }

  function TriedToStart(st: State, p: ProcId, lease: Lease): (State, Verdict)
    requires p in st.locks.procs
  {
    var reaped := Reaped(st, p);
    var v := StartVerdict(reaped.rows, lease);
    (if v == Started then reaped.(rows := EditAll(reaped.rows, Start(lease.id))) else reaped, v)
  }

  function Finished(st: State, lease: Lease): State {
    st.(rows := EditAll(st.rows, Release(lease)))
  }

  predicate ParseActive(rows: seq<Row>, sid: string, aid: Id) {
    match RowOf(rows, aid)
    case None => false
    case Some(r) => r.session == sid && (r.phase == Queued || r.phase == Running) && r.retained
  }

  // ----- metadata

  /** AttachmentStore.get: whatever metadata.json holds. */
  function Get(st: State, d: Path): Option<Meta> {
    if d in st.dirs then st.dirs[d].meta else None
  }

  // ----- delete

  function TargetPaths(st: State, sid: string, target: Option<Id>): set<Path> {
    set d | d in st.dirs && d.session == sid && (target.None? || target.value == d.id)
  }

  function Deleted(st: State, sid: string, target: Option<Id>): State {
    st.(dirs := st.dirs - TargetPaths(st, sid, target), rows := EditAll(st.rows, Forget(sid, target)))
  }
}
