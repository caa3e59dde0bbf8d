/** What becomes of the directory of a stored attachment: deletions and writes of its metadata decide alone. */
module AttachmentFates {
  import opened Wrappers
  import opened ResourceTable
  import opened ProcessOwnership
  import opened ResourceTransactions
  import opened AttachmentRuns
  import opened AttachmentInvariant
  import AttachmentSteps
  import opened AttachmentConsistency

  /** Whole: its metadata can be read. Headless: a deletion that died half way took them. */
  datatype Fate = Whole | Headless | Gone

  function FateIn(st: State, d: Path): Fate {
    if d !in st.dirs then Gone else if st.dirs[d].meta.None? then Headless else Whole
  }

  /** Only deletions and writes of the metadata count. */
  function FateAfter(f: Fate, e: Event, d: Path): Fate {
    if f == Gone then Gone
    else
      match e
      case Delete(_, sid, target) => if d.session == sid && (target.None? || target.value == d.id) then Gone else f
      case DeleteCrash(_, _, _, dirs) => if d !in dirs then Gone else if dirs[d].meta.None? then Headless else f
      case PutMeta(_, path, _) => if path == d then Whole else f
      case _ => f
  }

  /** The attachment has been stored, whether it is still there or not. */
  ghost predicate Stored(w: World, id: Id) {
    id in w.h.usedIds && PastUpload(w.st.rows, id)
  }

  lemma NoRowComesBack(w: World, e: Event, id: Id)
    requires Inv(w) && Enabled(w, e) && id in w.h.usedIds && RowOf(w.st.rows, id).None?
    ensures RowOf(Next(w, e).st.rows, id).None?
  {
    // Nobody sees whether a part with this id has been orphaned.
    hide Enabled, Next, Inv;
    LeakedIsInv(w, id);
    LeakedGoesOn(w, e, id);
    AttachmentSteps.StepKeeps(WithLeaked(w, id), e);
    LeakedHasNoRow(Next(WithLeaked(w, id), e), id);
  }

  function WithLeaked(w: World, id: Id): World {
    w.(h := w.h.(leaked := w.h.leaked + {id}))
  }

  lemma LeakedIsInv(w: World, id: Id)
    requires Inv(w) && id in w.h.usedIds && RowOf(w.st.rows, id).None?
    ensures Inv(WithLeaked(w, id))
  {
    hide RowOf;
    var x := WithLeaked(w, id);
    OnlyFilesChanged(w, x);
    assert forall d | d in w.st.dirs :: DirOk(w, d) && DirOk(x, d);
    assert forall i | i in w.st.parts :: PartOk(w, i) && PartOk(x, i);
  }

  lemma LeakedGoesOn(w: World, e: Event, id: Id)
    requires Enabled(w, e)
    ensures var x := WithLeaked(w, id);
      Enabled(x, e) && id in Next(x, e).h.leaked && Next(x, e).st == Next(w, e).st
  {
    hide Reaped, Reserved, Committed, QueuedFor, TriedToStart, Deleted, Finished, Aborted, Published;
    hide PartlyRemoved, DeadUploads, DeadParts, DeadOwners, AdmissionRefusal, QueueRefusal, StartVerdict;
    hide CommitRefusal, EditAll, RowOf;
  }

  lemma LeakedHasNoRow(w: World, id: Id)
    requires Inv(w) && id in w.h.leaked
    ensures RowOf(w.st.rows, id).None?
  {
  }

  lemma StoredForGood(w: World, e: Event, id: Id)
    requires Inv(w) && Enabled(w, e) && Stored(w, id)
    ensures Stored(Next(w, e), id)
  {
    UsedStaysUsed(w, e, id);
    if RowOf(w.st.rows, id).Some? {
      CommittedForGood(w, e, id);
    } else {
      NoRowComesBack(w, e, id);
    }
  }

  lemma UsedStaysUsed(w: World, e: Event, id: Id)
    requires Enabled(w, e) && id in w.h.usedIds
    ensures id in Next(w, e).h.usedIds
  {
    hide Reaped, Reserved, Committed, QueuedFor, TriedToStart, Deleted, Finished, Aborted, Published;
    hide PartlyRemoved, DeadUploads, DeadParts, DeadOwners, AdmissionRefusal, QueueRefusal, StartVerdict;
    hide CommitRefusal, EditAll, RowOf;
  }

  lemma StoredIsNotDead(w: World, p: ProcId, d: Path)
    requires Distinct(w.st.rows) && Up(w.st.locks, p) && Stored(w, d.id)
    ensures d !in DeadUploads(w.st.rows, DeadOwners(w.st, p))
  {
    forall r | r in w.st.rows && r.phase == Upload ensures PathOf(r) != d {
      RowInTable(w.st.rows, r);
    }
  }

  lemma ReapingSparesStored(w: World, e: Event, d: Path)
    requires Distinct(w.st.rows) && Enabled(w, e) && Reaps(e) && Stored(w, d.id)
    ensures FateIn(Next(w, e).st, d) == FateIn(w.st, d)
  {
    StoredIsNotDead(w, e.p, d);
    hide DeadUploads, DeadOwners, DeadParts, EditAll, RowOf, AdmissionRefusal, QueueRefusal, StartVerdict;
  }

  /** Deletions and writes of its metadata decide alone what becomes of a stored attachment: no reap, no commit
      and no death of a process outside a deletion touches it. */
  lemma FateFollows(w: World, e: Event, d: Path)
    requires Inv(w) && Enabled(w, e) && Stored(w, d.id)
    ensures FateIn(Next(w, e).st, d) == FateAfter(FateIn(w.st, d), e, d)
  {
    if Reaps(e) {
      ReapingSparesStored(w, e, d);
    } else if e.CommitAgain? {
      AttachmentSteps.OtherLeaseIsRefused(w, e.p, e.lease, e.size, e.checkPasses);
    } else {
      if e.Commit? || e.CommitCrash? {
        AttachmentSteps.OpenUpload(w, e.p, e.lease);
      }
      OtherFate(w, e, d);
    }
  }

  lemma OtherFate(w: World, e: Event, d: Path)
    requires Enabled(w, e) && !Reaps(e) && !e.CommitAgain?
    requires e.Commit? || e.CommitCrash? ==> e.lease.id != d.id
    ensures FateIn(Next(w, e).st, d) == FateAfter(FateIn(w.st, d), e, d)
  {
    hide EditAll, RowOf, CommitRefusal;
  }
}
