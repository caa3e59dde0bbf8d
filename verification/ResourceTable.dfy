/**
  The `resources` table of the attachment ledger.

  The table is a sequence of rows in insertion order.  Every UPDATE or DELETE
  the ledger issues is one `Edit`: it maps each row to its new contents, or to
  None when the statement deletes the row.
 */
module ResourceTable {
  import opened Wrappers

  type Id = nat           // attachment ids, uuid4 in the program
  type Token = nat        // fencing tokens, uuid4 in the program
  type Incarnation = nat  // process incarnations, uuid4 in the program

  datatype Phase = Upload | Queued | Running | Idle

  /** The (pid, incarnation) columns; NoOwner is the pair (0, ''). */
  datatype Owner = NoOwner | Owner(pid: nat, incarnation: Incarnation)

  datatype Row = Row(
    id: Id, session: string, actor: string, bytes: nat, retained: bool,
    phase: Phase, jobActor: string, owner: Owner, token: Option<Token>, wantsParse: bool)

  datatype Lease = Lease(id: Id, session: string, token: Token)

  // ----- quotas

  const SESSION_FILES: nat := 100
  const ACTOR_FILES: nat := 500
  const INSTALLATION_FILES: nat := 2000
  const SESSION_BYTES: nat := 500 * 1024 * 1024
  const ACTOR_BYTES: nat := 2 * 1024 * 1024 * 1024
  const INSTALLATION_BYTES: nat := 10 * 1024 * 1024 * 1024
  const SESSION_UPLOADS: nat := 5
  const ACTOR_UPLOADS: nat := 5
  const INSTALLATION_UPLOADS: nat := 10
  const PENDING_PARSES: nat := 25
  const ACTOR_PARSES: nat := 10
  const RUNNING_PARSES: nat := 5
  const MIN_FREE_BYTES: nat := 16 * 1024 * 1024

  datatype Scope = Session(sid: string) | Actor(actor: string) | Installation

  /** Everything the ledger puts a limit on. */
  datatype Measure =
    | Files(scope: Scope)
    | Bytes(scope: Scope)
    | Uploads(scope: Scope)
    | PendingParses
    | PendingParsesOf(actor: string)
    | RunningParses

  function Limit(m: Measure): nat {
    match m
    case Files(Session(_)) => SESSION_FILES
    case Files(Actor(_)) => ACTOR_FILES
    case Files(Installation) => INSTALLATION_FILES
    case Bytes(Session(_)) => SESSION_BYTES
    case Bytes(Actor(_)) => ACTOR_BYTES
    case Bytes(Installation) => INSTALLATION_BYTES
    case Uploads(Session(_)) => SESSION_UPLOADS
    case Uploads(Actor(_)) => ACTOR_UPLOADS
    case Uploads(Installation) => INSTALLATION_UPLOADS
    case PendingParses => PENDING_PARSES
    case PendingParsesOf(_) => ACTOR_PARSES
    case RunningParses => RUNNING_PARSES
  }

  predicate Covers(scope: Scope, r: Row) {
    match scope
    case Session(sid) => r.session == sid
    case Actor(actor) => r.actor == actor
    case Installation => true
  }

  predicate Charged(r: Row) {
    r.retained || r.phase == Upload
  }

  predicate Pending(r: Row) {
    r.phase == Queued || r.phase == Running || (r.phase == Upload && r.wantsParse)
  }

  /** What one row contributes to a measure. */
  function Weight(m: Measure, r: Row): nat {
    match m
    case Files(scope) => if Charged(r) && Covers(scope, r) then 1 else 0
    case Bytes(scope) => if Charged(r) && Covers(scope, r) then r.bytes else 0
    case Uploads(scope) => if r.phase == Upload && Covers(scope, r) then 1 else 0
    case PendingParses => if Pending(r) then 1 else 0
    case PendingParsesOf(actor) => if Pending(r) && r.jobActor == actor then 1 else 0
    case RunningParses => if r.phase == Running then 1 else 0
  }

  /** The SUM or COUNT the ledger reads for a measure. */
  function Use(rows: seq<Row>, m: Measure): nat {
    if rows == [] then 0 else Weight(m, rows[0]) + Use(rows[1..], m)
  }

  ghost predicate WithinLimits(rows: seq<Row>) {
    forall m: Measure :: Use(rows, m) <= Limit(m)
  }

  // ----- statements

  datatype Edit =
    | Reclaim(dead: set<Owner>)
    | Publish(lease: Lease, size: nat)
    | Cancel(lease: Lease)
    | Enqueue(id: Id, actor: string, owner: Owner, token: Token)
    | Start(id: Id)
    | Release(lease: Lease)
    | Forget(session: string, target: Option<Id>)

  predicate Holds(r: Row, lease: Lease) {
    r.id == lease.id && r.token == Some(lease.token)
  }

  predicate Matches(r: Row, session: string, target: Option<Id>) {
    r.session == session && (target.None? || target.value == r.id)
  }

  function Idled(r: Row): Row {
    r.(phase := Idle, owner := NoOwner, token := None, wantsParse := false)
  }

  function Edited(e: Edit, r: Row): Option<Row> {
    match e
    case Reclaim(dead) =>
      if r.owner !in dead then Some(r)
      else if r.phase == Upload || !r.retained then None
      else Some(Idled(r))
    case Publish(lease, size) =>
      if r.id != lease.id then Some(r)
      else Some(r.(bytes := size, phase := if r.wantsParse then Queued else Idle))
    case Cancel(lease) =>
      if Holds(r, lease) && r.phase == Upload then None else Some(r)
    case Enqueue(id, actor, owner, token) =>
      if r.id != id then Some(r)
      else Some(r.(phase := Queued, jobActor := actor, owner := owner, token := Some(token), wantsParse := true))
    case Start(id) =>
      if r.id != id then Some(r) else Some(r.(phase := Running))
    case Release(lease) =>
      if Holds(r, lease) && !r.retained then None
      else if Holds(r, lease) && (r.phase == Queued || r.phase == Running) then Some(Idled(r))
      else Some(r)
    case Forget(session, target) =>
      if !Matches(r, session, target) then Some(r)
      else if r.phase == Upload then Some(r.(retained := false))
      else if r.phase == Running then Some(r.(retained := false, bytes := 0))
      else None
  }

  function EditAll(rows: seq<Row>, e: Edit): seq<Row> {
    if rows == [] then []
    else
      match Edited(e, rows[0])
      case None => EditAll(rows[1..], e)
      case Some(r) => [r] + EditAll(rows[1..], e)
  }

  /** SELECT ... WHERE id = ? */
  function RowOf(rows: seq<Row>, id: Id): (r: Option<Row>)
    ensures r.Some? ==> r.value.id == id && r.value in rows
    ensures r.None? ==> forall x | x in rows :: x.id != id
  {
    if rows == [] then None
    else if rows[0].id == id then Some(rows[0])
    else RowOf(rows[1..], id)
  }

  /** The primary key constraint. */
  ghost predicate Distinct(rows: seq<Row>) {
    forall i, j | 0 <= i < j < |rows| :: rows[i].id != rows[j].id
  }

  // ----- how statements act on one row and on the sums

  lemma {:induction false} RowInTable(rows: seq<Row>, r: Row)
    requires Distinct(rows)
    ensures r in rows <==> RowOf(rows, r.id) == Some(r)
  {
    if rows != [] {
      RowInTable(rows[1..], r);
      if r in rows && rows[0].id == r.id {
        var i :| 0 <= i < |rows| && rows[i] == r;
        assert i == 0;
      }
    }
  }

  lemma {:induction false} EditKeepsIds(rows: seq<Row>, e: Edit, r: Row)
    requires r in EditAll(rows, e)
    ensures exists q :: q in rows && q.id == r.id
  {
    var rest := EditAll(rows[1..], e);
    if r in rest {
      EditKeepsIds(rows[1..], e, r);
      var q :| q in rows[1..] && q.id == r.id;
      assert q in rows;
    } else {
      assert rows[0] in rows && rows[0].id == r.id;
    }
  }

  lemma {:induction false} DistinctAfterEdit(rows: seq<Row>, e: Edit)
    requires Distinct(rows)
    ensures Distinct(EditAll(rows, e))
  {
    if rows != [] {
      DistinctAfterEdit(rows[1..], e);
      forall r | r in EditAll(rows[1..], e) ensures r.id != rows[0].id {
        EditKeepsIds(rows[1..], e, r);
      }
    }
  }

  /** The row a statement leaves for an id is the edit of the row it found. */
  lemma {:induction false} EditedRow(rows: seq<Row>, e: Edit, id: Id)
    requires Distinct(rows)
    ensures RowOf(EditAll(rows, e), id) == (match RowOf(rows, id) case None => None case Some(r) => Edited(e, r))
  {
    if rows != [] {
      EditedRow(rows[1..], e, id);
      if rows[0].id == id {
        assert RowOf(rows[1..], id) == None;
      }
      var rest := EditAll(rows[1..], e);
      match Edited(e, rows[0])
      case None =>
      case Some(r) =>
        assert ([r] + rest)[1..] == rest;
    }
  }

  lemma EditActsPerRow(rows: seq<Row>, e: Edit)
    requires Distinct(rows)
    ensures Distinct(EditAll(rows, e))
    ensures forall id :: RowOf(EditAll(rows, e), id) ==
                         (match RowOf(rows, id) case None => None case Some(r) => Edited(e, r))
  {
    DistinctAfterEdit(rows, e);
    forall id ensures RowOf(EditAll(rows, e), id) ==
                      (match RowOf(rows, id) case None => None case Some(r) => Edited(e, r))
    {
      EditedRow(rows, e, id);
    }
  }

  lemma {:induction false} UseOfAppend(rows: seq<Row>, r: Row, m: Measure)
    ensures Use(rows + [r], m) == Use(rows, m) + Weight(m, r)
  {
    if rows == [] {
      assert rows + [r] == [r];
      assert [r][1..] == [];
    } else {
      assert (rows + [r])[1..] == rows[1..] + [r];
      UseOfAppend(rows[1..], r, m);
    }
  }

  lemma {:induction false} AppendActsPerRow(rows: seq<Row>, r: Row)
    requires Distinct(rows) && RowOf(rows, r.id) == None
    ensures Distinct(rows + [r])
    ensures forall id :: RowOf(rows + [r], id) == if id == r.id then Some(r) else RowOf(rows, id)
  {
    if rows == [] {
      assert rows + [r] == [r];
      assert [r][1..] == [];
    } else {
      assert (rows + [r])[1..] == rows[1..] + [r];
      AppendActsPerRow(rows[1..], r);
    }
  }

  /** A statement that raises no row's contribution does not raise the total. */
  lemma {:induction false} EditRaisesNothing(rows: seq<Row>, e: Edit, m: Measure)
    requires forall r | r in rows ::
               Edited(e, r).Some? ==> Weight(m, Edited(e, r).value) <= Weight(m, r)
    ensures Use(EditAll(rows, e), m) <= Use(rows, m)
  {
    if rows != [] {
      EditRaisesNothing(rows[1..], e, m);
      var rest := EditAll(rows[1..], e);
      match Edited(e, rows[0])
      case None =>
      case Some(r) =>
        assert rows[0] in rows;
        assert ([r] + rest)[1..] == rest;
    }
  }

  /** A statement that changes only one row raises a total by at most that row's gain. */
  lemma {:induction false} EditRaisesOneRow(rows: seq<Row>, e: Edit, m: Measure, id: Id)
    requires Distinct(rows)
    requires forall r | r in rows && r.id != id :: Edited(e, r) == Some(r)
    requires RowOf(rows, id).Some? ==>
               Edited(e, RowOf(rows, id).value).Some? &&
               Weight(m, Edited(e, RowOf(rows, id).value).value) <= Weight(m, RowOf(rows, id).value) + 1
    ensures Use(EditAll(rows, e), m) <= Use(rows, m) + 1
    ensures RowOf(rows, id).None? ==> Use(EditAll(rows, e), m) == Use(rows, m)
  {
    if rows != [] {
      assert rows[0] in rows;
      var rest := EditAll(rows[1..], e);
      EditRaisesOneRow(rows[1..], e, m, id);
      if rows[0].id == id {
        assert RowOf(rows[1..], id).None?;
      }
      var r := Edited(e, rows[0]).value;
      assert ([r] + rest)[1..] == rest;
    }
  }

  // ----- what the sums mean

  function Counted(rows: seq<Row>, m: Measure): set<Row> {
    set r | r in rows && Weight(m, r) == 1
  }

  lemma CountedFirst(rows: seq<Row>, m: Measure)
    requires rows != []
    ensures Counted(rows, m) == (if Weight(m, rows[0]) == 1 then {rows[0]} else {}) + Counted(rows[1..], m)
  {
    hide Weight;
    assert forall r :: r in rows <==> r == rows[0] || r in rows[1..];
  }

  /** Every measure but the bytes counts rows. */
  lemma {:induction false} CountOfRows(rows: seq<Row>, m: Measure)
    requires Distinct(rows) && !m.Bytes?
    ensures Use(rows, m) == |Counted(rows, m)|
  {
    if rows == [] {
      assert Counted(rows, m) == {};
    } else {
      assert Weight(m, rows[0]) <= 1;
      assert rows[0] !in rows[1..];
      assert rows[0] !in Counted(rows[1..], m);
      CountOfRows(rows[1..], m);
      CountedFirst(rows, m);
      hide Weight, Distinct, Counted;
    }
  }

  /** A file counts while it is retained or being uploaded. */
  lemma FilesAreCounted(rows: seq<Row>, sid: string, actor: string)
    requires Distinct(rows)
    ensures Use(rows, Files(Session(sid)))
         == |set r | r in rows && r.session == sid && (r.retained || r.phase == Upload)|
    ensures Use(rows, Files(Actor(actor)))
         == |set r | r in rows && r.actor == actor && (r.retained || r.phase == Upload)|
    ensures Use(rows, Files(Installation))
         == |set r | r in rows && (r.retained || r.phase == Upload)|
  {
    hide Use;
    CountOfRows(rows, Files(Session(sid)));
    CountOfRows(rows, Files(Actor(actor)));
    CountOfRows(rows, Files(Installation));
    assert Counted(rows, Files(Session(sid)))
        == set r | r in rows && r.session == sid && (r.retained || r.phase == Upload);
    assert Counted(rows, Files(Actor(actor)))
        == set r | r in rows && r.actor == actor && (r.retained || r.phase == Upload);
    assert Counted(rows, Files(Installation))
        == set r | r in rows && (r.retained || r.phase == Upload);
  }

  lemma UploadsAreCounted(rows: seq<Row>, sid: string, actor: string)
    requires Distinct(rows)
    ensures Use(rows, Uploads(Session(sid)))
         == |set r | r in rows && r.session == sid && r.phase == Upload|
    ensures Use(rows, Uploads(Actor(actor)))
         == |set r | r in rows && r.actor == actor && r.phase == Upload|
    ensures Use(rows, Uploads(Installation))
         == |set r | r in rows && r.phase == Upload|
  {
    hide Use;
    CountOfRows(rows, Uploads(Session(sid)));
    CountOfRows(rows, Uploads(Actor(actor)));
    CountOfRows(rows, Uploads(Installation));
    assert Counted(rows, Uploads(Session(sid)))
        == set r | r in rows && r.session == sid && r.phase == Upload;
    assert Counted(rows, Uploads(Actor(actor)))
        == set r | r in rows && r.actor == actor && r.phase == Upload;
    assert Counted(rows, Uploads(Installation))
        == set r | r in rows && r.phase == Upload;
  }

  /** A parse is pending from the upload that asks for it to its end. */
  lemma ParsesAreCounted(rows: seq<Row>, actor: string)
    requires Distinct(rows)
    ensures Use(rows, PendingParses)
         == |set r | r in rows && (r.phase == Queued || r.phase == Running || (r.phase == Upload && r.wantsParse))|
    ensures Use(rows, PendingParsesOf(actor))
         == |set r | r in rows && r.jobActor == actor &&
               (r.phase == Queued || r.phase == Running || (r.phase == Upload && r.wantsParse))|
    ensures Use(rows, RunningParses)
         == |set r | r in rows && r.phase == Running|
  {
    hide Use;
    CountOfRows(rows, PendingParses);
    CountOfRows(rows, PendingParsesOf(actor));
    CountOfRows(rows, RunningParses);
    assert Counted(rows, PendingParses)
        == set r | r in rows && (r.phase == Queued || r.phase == Running || (r.phase == Upload && r.wantsParse));
    assert Counted(rows, PendingParsesOf(actor))
        == set r | r in rows && r.jobActor == actor &&
             (r.phase == Queued || r.phase == Running || (r.phase == Upload && r.wantsParse));
    assert Counted(rows, RunningParses)
        == set r | r in rows && r.phase == Running;
  }

  /** The bytes of a file count while the file does. */
  lemma {:induction false} BytesAreSummed(rows: seq<Row>, r: Row, sid: string, actor: string)
    ensures Use([], Bytes(Session(sid))) == 0 && Use([], Bytes(Actor(actor))) == 0 && Use([], Bytes(Installation)) == 0
    ensures var charged := r.retained || r.phase == Upload;
      && Use(rows + [r], Bytes(Session(sid)))
         == Use(rows, Bytes(Session(sid))) + (if charged && r.session == sid then r.bytes else 0)
      && Use(rows + [r], Bytes(Actor(actor)))
         == Use(rows, Bytes(Actor(actor))) + (if charged && r.actor == actor then r.bytes else 0)
      && Use(rows + [r], Bytes(Installation)) == Use(rows, Bytes(Installation)) + (if charged then r.bytes else 0)
  {
    UseOfAppend(rows, r, Bytes(Session(sid)));
    UseOfAppend(rows, r, Bytes(Actor(actor)));
    UseOfAppend(rows, r, Bytes(Installation));
  }

  // ----- reclaiming one owner after another is reclaiming all of them

  lemma {:induction false} ReclaimInTurn(rows: seq<Row>, done: set<Owner>, next: Owner)
    ensures EditAll(EditAll(rows, Reclaim(done)), Reclaim({next})) == EditAll(rows, Reclaim(done + {next}))
  {
    if rows != [] {
      ReclaimInTurn(rows[1..], done, next);
      var rest := EditAll(rows[1..], Reclaim(done));
      match Edited(Reclaim(done), rows[0])
      case None =>
      case Some(r) =>
        assert ([r] + rest)[1..] == rest;
    }
  }

  lemma {:induction false} ReclaimNobody(rows: seq<Row>)
    ensures EditAll(rows, Reclaim({})) == rows
  {
    if rows != [] {
      ReclaimNobody(rows[1..]);
    }
  }
}
