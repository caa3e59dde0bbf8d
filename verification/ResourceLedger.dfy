/** The ledger object: the methods that run the transactions, statement by statement. */
module ResourceLedgers {
  import opened Wrappers
  import opened ResourceTable
  import opened ProcessOwnership
  import opened ResourceTransactions

  class ResourceLedger {
    var rows: seq<Row>
    var dirs: map<Path, Directory>
    var parts: map<Id, nat>
    const owners: LeaseOwners

    constructor (owners: LeaseOwners)
      ensures this.owners == owners && rows == [] && dirs == map[] && parts == map[]
    {
      rows, dirs, parts := [], map[], map[];
      this.owners := owners;
    }

    function View(): State
      reads this, owners
    {
      State(rows, dirs, parts, owners.View())
    }

    /** Probes the owner of every row that is not idle. */
    method FindDead(p: ProcId) returns (dead: set<Owner>)
      requires p in owners.procs
      modifies owners`linked
      ensures dead == DeadOwners(old(View()), p)
      ensures View() == old(View()).(locks := Unlinked(old(View()).locks, dead))
    {
      dead := {};
      ghost var before := View();
      for i := 0 to |rows|
        invariant dead == set r | r in rows[..i] && r.phase != Idle && !OwnerAlive(before.locks, p, r.owner) :: r.owner
        invariant View() == before.(locks := Unlinked(before.locks, dead))
      {
        assert rows[..i + 1] == rows[..i] + [rows[i]];
        if rows[i].phase != Idle {
          ProbingKeepsVerdicts(before.locks, dead, p, rows[i].owner);
          var alive := owners.Probe(p, rows[i].owner);
          if !alive {
            dead := dead + {rows[i].owner};
          }
        }
      }
      assert rows[..|rows|] == rows;
    }

    /** Removes what dead owners were uploading and returns their other rows to idle, owner by owner. */
    method Reap(p: ProcId)
      requires p in owners.procs
      modifies `rows, `dirs, `parts, owners`linked
      ensures View() == Reaped(old(View()), p)
      ensures Distinct(old(rows)) ==>
        && Distinct(rows)
        && forall id :: RowOf(rows, id) ==
             match RowOf(old(rows), id)
             case None => None
             case Some(r) =>
               if r.owner !in DeadOwners(old(View()), p) then Some(r)
               else if r.phase == Upload || !r.retained then None
               else Some(r.(phase := Idle, owner := NoOwner, token := None, wantsParse := false))
    {
      ghost var before := View();
      var dead := FindDead(p);
      var left, done := dead, {};
      ReclaimNobody(rows);
      while left != {}
        invariant done !! left && done + left == dead
        invariant rows == EditAll(before.rows, Reclaim(done))
        invariant dirs == before.dirs - DeadUploads(before.rows, done)
        invariant parts == before.parts - DeadParts(before.rows, done)
        invariant owners.View() == Unlinked(before.locks, dead)
      {
        var owner :| owner in left;
        assert owner in dead;
        UploadsLeft(before.rows, done, owner);
        RemovedInTurn(before.dirs, DeadUploads(before.rows, done), DeadUploads(rows, {owner}));
        RemovedInTurn(before.parts, DeadParts(before.rows, done), DeadParts(rows, {owner}));
        ReclaimInTurn(before.rows, done, owner);
        dirs := dirs - DeadUploads(rows, {owner});
        parts := parts - DeadParts(rows, {owner});
        rows := EditAll(rows, Reclaim({owner}));
        left, done := left - {owner}, done + {owner};
      }
      assert done == dead;
      if Distinct(before.rows) {
        EditActsPerRow(before.rows, Reclaim(dead));
      }
    }

    method Reserve(p: ProcId, a: Admission) returns (r: Result<Lease, Refusal>)
      requires p in owners.procs
      modifies this, owners
      ensures (View(), r) == Reserved(old(View()), p, a)
      ensures r.Failure? ==> rows == old(rows)
      ensures r.Success? <==>
        && ValidSession(a.session) && a.checkPasses
        && AdmissionRefusal(Reaped(old(View()), p).rows, a.session, a.actor, a.maxBytes, a.parse, a.free).None?
      ensures r.Success? ==>
        && r.value == Lease(a.id, a.session, a.token)
        && var owner := Owner(old(owners.procs)[p].pid, old(owners.procs)[p].incarnation);
           rows == Reaped(old(View()), p).rows +
             [Row(a.id, a.session, a.actor, a.maxBytes, true, Upload, a.actor, owner, Some(a.token), a.parse)]
    {
      if !ValidSession(a.session) {
        return Failure(InvalidSession);
      }
      var saved := rows;
      Reap(p);
      if !a.checkPasses {
        rows := saved;
        return Failure(ConversationChanged);
      }
      if a.free < ReservedBytes(rows) + a.maxBytes + MIN_FREE_BYTES {
        rows := saved;
        return Failure(DiskFull);
      }
      var scopes := Scopes(a.session, a.actor);
      for i := 0 to |scopes|
        invariant FirstScopeRefusal(rows, scopes, a.maxBytes) == FirstScopeRefusal(rows, scopes[i..], a.maxBytes)
        invariant View() == Reaped(old(View()), p)
      {
        if Use(rows, Files(scopes[i])) >= Limit(Files(scopes[i]))
           || Use(rows, Bytes(scopes[i])) + a.maxBytes > Limit(Bytes(scopes[i])) {
          rows := saved;
          return Failure(StorageFull(scopes[i]));
        }
        if Use(rows, Uploads(scopes[i])) >= Limit(Uploads(scopes[i])) {
          rows := saved;
          return Failure(TooManyUploads(scopes[i]));
        }
      }
      if a.parse && ParsingFull(rows, a.actor) {
        rows := saved;
        return Failure(ParsingBusy);
      }
      var pid := owners.procs[p].pid;
      var inc := owners.Identity(p);
      rows := rows + [AdmittedRow(a, Owner(pid, inc))];
      return Success(Lease(a.id, a.session, a.token));
    }

    /** The transaction of commit(): on a refusal nothing has been written. When the disk fails, publish() may
        raise at any point; then the table is as before, the files are not. */
    method Commit(lease: Lease, filename: string, size: nat, checkPasses: bool, fails: Option<Progress>)
      returns (r: Result<Meta, Refusal>)
      modifies `rows, `dirs, `parts
      ensures CommitRefusal(old(View()), lease, size, checkPasses).Some? ==>
                View() == old(View()) && r == Failure(CommitRefusal(old(View()), lease, size, checkPasses).value)
      ensures CommitRefusal(old(View()), lease, size, checkPasses).None? && fails.None? ==>
                (View(), r) == Committed(old(View()), lease, filename, size, checkPasses)
      ensures CommitRefusal(old(View()), lease, size, checkPasses).None? && fails.None? && Distinct(old(rows)) ==>
        && Distinct(rows)
        && (forall id | id != lease.id :: RowOf(rows, id) == RowOf(old(rows), id))
        && var r := RowOf(old(rows), lease.id).value;
           RowOf(rows, lease.id) == Some(r.(bytes := size, phase := if r.wantsParse then Queued else Idle))
      ensures CommitRefusal(old(View()), lease, size, checkPasses).None? && fails.Some? ==>
                View() == Published(old(View()), lease, filename, size, fails.value) && r == Failure(PublishFailed)
    {
      var row := RowOf(rows, lease.id);
      if row.None? || !Holds(row.value, lease) || row.value.phase != Upload || !row.value.retained {
        return Failure(Cancelled);
      }
      if !(0 < size <= row.value.bytes) {
        return Failure(BadSize);
      }
      if !checkPasses {
        return Failure(ConversationChanged);
      }
      if lease.id !in parts {
        return Failure(MissingPart);
      }
      if parts[lease.id] != size {
        return Failure(IncompletePart);
      }
      var d := Path(lease.session, lease.id);
      if d in dirs {
        return Failure(DirectoryExists);
      }
      ghost var before := dirs;
      dirs := dirs[d := Directory(None, None, map[])];
      if fails == Some(DirectoryMade) {
        return Failure(PublishFailed);
      }
      dirs := dirs[d := dirs[d].(source := Some(size))];
      assert dirs == before[d := Directory(Some(size), None, map[])];
      parts := parts - {lease.id};
      if fails == Some(SourceMoved) {
        return Failure(PublishFailed);
      }
      var meta := NewMeta(filename, size);
      dirs := dirs[d := dirs[d].(meta := Some(meta))];
      assert dirs == before[d := Directory(Some(size), Some(meta), map[])];
      if fails == Some(MetadataWritten) {
        return Failure(PublishFailed);
      }
      if Distinct(rows) {
        EditActsPerRow(rows, Publish(lease, size));
      }
      rows := EditAll(rows, Publish(lease, size));
      return Success(meta);
    }

    /** Only an upload that this token still holds loses its row; the part goes in any case. */
    method Abort(lease: Lease)
      modifies `rows, `parts
      ensures View() == Aborted(old(View()), lease)
      ensures Distinct(old(rows)) ==>
        && Distinct(rows)
        && forall id :: RowOf(rows, id) ==
             if RowOf(old(rows), id).Some? && Holds(RowOf(old(rows), id).value, lease)
                && RowOf(old(rows), id).value.phase == Upload
             then None else RowOf(old(rows), id)
      ensures forall id :: id in parts <==> id in old(parts) && id != lease.id
      ensures forall id | id in parts :: parts[id] == old(parts)[id]
    {
      if Distinct(rows) {
        EditActsPerRow(rows, Cancel(lease));
      }
      rows := EditAll(rows, Cancel(lease));
      parts := parts - {lease.id};
    }

    method Queue(p: ProcId, sid: string, aid: Id, actor: string, token: Token) returns (r: Result<Lease, Refusal>)
      requires p in owners.procs
      modifies this, owners
      ensures (View(), r) == QueuedFor(old(View()), p, sid, aid, actor, token)
      ensures r.Failure? ==> rows == old(rows)
      ensures r.Success? <==> QueueRefusal(Reaped(old(View()), p).rows, sid, aid, actor).None?
    {
      var saved := rows;
      Reap(p);
      var row := RowOf(rows, aid);
      if row.None? || row.value.session != sid || !row.value.retained {
        rows := saved;
        return Failure(NotFound);
      }
      if row.value.phase != Idle {
        rows := saved;
        return Failure(AlreadyParsing);
      }
      if ParsingFull(rows, actor) {
        rows := saved;
        return Failure(ParsingBusy);
      }
      var pid := owners.procs[p].pid;
      var inc := owners.Identity(p);
      rows := EditAll(rows, Enqueue(aid, actor, Owner(pid, inc), token));
      return Success(Lease(aid, sid, token));
    }

    method TryStart(p: ProcId, lease: Lease) returns (v: Verdict)
      requires p in owners.procs
      modifies this, owners
      ensures (View(), v) == TriedToStart(old(View()), p, lease)
    {
      Reap(p);
      var row := RowOf(rows, lease.id);
      if row.None? || !Holds(row.value, lease) || !row.value.retained || row.value.phase != Queued {
        return Missing;
      }
      if Use(rows, RunningParses) >= RUNNING_PARSES {
        return Wait;
      }
      rows := EditAll(rows, Start(lease.id));
      return Started;
    }

    /** Only the row this token holds changes: it goes if its source was deleted, and a job's row turns idle. */
    method FinishJob(lease: Lease)
      modifies `rows
      ensures View() == Finished(old(View()), lease)
      ensures Distinct(old(rows)) ==>
        && Distinct(rows)
        && (forall id | id != lease.id :: RowOf(rows, id) == RowOf(old(rows), id))
        && RowOf(rows, lease.id) ==
           match RowOf(old(rows), lease.id)
           case None => None
           case Some(r) =>
             if r.token != Some(lease.token) then Some(r)
             else if !r.retained then None
             else if r.phase == Queued || r.phase == Running
             then Some(r.(phase := Idle, owner := NoOwner, token := None, wantsParse := false))
             else Some(r)
    {
      hide EditAll, RowOf, Distinct;
      if Distinct(rows) {
        ReleasedRows(rows, lease);
      }
      rows := EditAll(rows, Release(lease));
    }

    /** A parse counts as active when its row is at work, its source was not deleted, and its owner is alive. */
    method Active(p: ProcId, sid: string, aid: Id) returns (b: bool)
      requires p in owners.procs
      modifies this, owners
      ensures View() == Reaped(old(View()), p)
      ensures Distinct(old(rows)) ==>
        (b <==> var found := RowOf(old(rows), aid);
                && found.Some? && found.value.session == sid && found.value.retained
                && (found.value.phase == Queued || found.value.phase == Running)
                && OwnerAlive(old(owners.View()), p, found.value.owner))
    {
      ghost var before := View();
      Reap(p);
      b := ParseActive(rows, sid, aid);
      if Distinct(before.rows) {
        ActiveIsAlive(before, p, sid, aid);
      }
    }

    /** The directories covered go, and no others. Rows of work that still runs stay, unretained,
        an upload with its bytes; all other rows covered go. */
    method Delete(sid: string, target: Option<Id>)
      modifies `rows, `dirs
      ensures View() == Deleted(old(View()), sid, target)
      ensures forall d :: d in dirs <==> d in old(dirs) && !(d.session == sid && (target.None? || target.value == d.id))
      ensures forall d | d in dirs :: dirs[d] == old(dirs)[d]
      ensures Distinct(old(rows)) ==>
        && Distinct(rows)
        && forall id :: RowOf(rows, id) ==
             match RowOf(old(rows), id)
             case None => None
             case Some(r) =>
               if r.session != sid || (target.Some? && target.value != id) then Some(r)
               else if r.phase == Upload then Some(r.(retained := false))
               else if r.phase == Running then Some(r.(retained := false, bytes := 0))
               else None
    {
      if Distinct(rows) {
        EditActsPerRow(rows, Forget(sid, target));
      }
      dirs := dirs - TargetPaths(View(), sid, target);
      rows := EditAll(rows, Forget(sid, target));
    }
  }

  lemma ReleasedRows(rows: seq<Row>, lease: Lease)
    requires Distinct(rows)
    ensures var after := EditAll(rows, Release(lease));
      && Distinct(after)
      && (forall id | id != lease.id :: RowOf(after, id) == RowOf(rows, id))
      && RowOf(after, lease.id) ==
         match RowOf(rows, lease.id)
         case None => None
         case Some(r) =>
           if r.token != Some(lease.token) then Some(r)
           else if !r.retained then None
           else if r.phase == Queued || r.phase == Running
           then Some(r.(phase := Idle, owner := NoOwner, token := None, wantsParse := false))
           else Some(r)
  {
    hide EditAll;
    DistinctAfterEdit(rows, Release(lease));
    forall id ensures RowOf(EditAll(rows, Release(lease)), id) ==
                      (match RowOf(rows, id) case None => None case Some(r) => Edited(Release(lease), r))
    {
      EditedRow(rows, Release(lease), id);
    }
  }

  /** After a reap a parse is active exactly when it was at work and its owner was alive. */
  lemma ActiveIsAlive(st: State, p: ProcId, sid: string, aid: Id)
    requires Distinct(st.rows) && p in st.locks.procs
    ensures ParseActive(Reaped(st, p).rows, sid, aid) <==>
      var found := RowOf(st.rows, aid);
      && found.Some? && found.value.session == sid && found.value.retained
      && (found.value.phase == Queued || found.value.phase == Running)
      && OwnerAlive(st.locks, p, found.value.owner)
  {
    hide EditAll, OwnerAlive;
    EditedRow(st.rows, Reclaim(DeadOwners(st, p)), aid);
  }

  lemma RemovedInTurn<K, V>(m: map<K, V>, first: set<K>, second: set<K>)
    ensures m - first - second == m - (first + second)
  {
  }

  /** Removing the lock files of owners found dead changes no later verdict of the same sweep. */
  lemma ProbingKeepsVerdicts(k: Locks, dead: set<Owner>, p: ProcId, owner: Owner)
    requires p in k.procs
    requires forall o | o in dead :: !OwnerAlive(k, p, o)
    ensures OwnerAlive(Unlinked(k, dead), p, owner) == OwnerAlive(k, p, owner)
  {
    if owner.Owner? {
      var inc := owner.incarnation;
      if inc in k.linked && inc !in Unlinked(k, dead).linked {
        var o :| o in dead && o.Owner? && o.incarnation == inc;
        assert !OwnerAlive(k, p, o);
      }
      assert LockHeld(Unlinked(k, dead), inc) == LockHeld(k, inc);
    }
  }

  /** After the owners in `done` have been reclaimed, the uploads of the next one are still all there. */
  lemma {:induction false} UploadsLeft(rows: seq<Row>, done: set<Owner>, next: Owner)
    requires next !in done
    ensures DeadUploads(EditAll(rows, Reclaim(done)), {next}) == DeadUploads(rows, {next})
    ensures DeadParts(EditAll(rows, Reclaim(done)), {next}) == DeadParts(rows, {next})
    ensures DeadUploads(rows, done + {next}) == DeadUploads(rows, done) + DeadUploads(rows, {next})
    ensures DeadParts(rows, done + {next}) == DeadParts(rows, done) + DeadParts(rows, {next})
  {
    forall r: Row ensures r.owner == next && r.phase == Upload ==>
                       (r in rows <==> r in EditAll(rows, Reclaim(done)))
    {
      if r.owner == next && r.phase == Upload {
        UploadSurvives(rows, done, r);
      }
    }
  }

  lemma {:induction false} UploadSurvives(rows: seq<Row>, done: set<Owner>, r: Row)
    requires r.owner !in done && r.phase == Upload
    ensures r in rows <==> r in EditAll(rows, Reclaim(done))
  {
    if rows != [] {
      UploadSurvives(rows[1..], done, r);
      assert r in rows <==> r == rows[0] || r in rows[1..];
      match Edited(Reclaim(done), rows[0])
      case None =>
      case Some(q) =>
        assert EditAll(rows, Reclaim(done)) == [q] + EditAll(rows[1..], Reclaim(done));
    }
  }
}
