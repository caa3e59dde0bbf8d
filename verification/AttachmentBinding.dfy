/**
  bind() while other processes go on.

  Under its process's lock it first looks at all the attachments, then updates
  one after the other. Each update reads the metadata again and writes them
  back; nothing is undone when one of them finds no attachment, or when the
  process dies.
 */
module AttachmentBinding {
  import opened Wrappers
  import opened ResourceTable
  import opened ProcessOwnership
  import opened ResourceTransactions
  import opened AttachmentRuns
  import opened AttachmentInvariant
  import AttachmentSteps
  import opened AttachmentTheorems
  import opened AttachmentConsistency
  import opened AttachmentFates
  import opened AttachmentStores
  import opened AttachmentSharing
  import opened AttachmentActs

  // ----- the updates of bind()

  datatype Stage = Coming | Reading | Raised | Cut

  /** bind() after its checks: what is still to update, and the attachments whose flag it has set.
      Reading: update() has read the metadata of the first. Raised: it could not write them back. */
  datatype Binder = Binder(p: ProcId, sid: string, todo: seq<Id>, stage: Stage, marked: seq<Id>) {
    predicate Holding() {
      todo != [] && (stage == Coming || stage == Reading)
    }

    function First(): Path
      requires todo != []
    {
      Path(sid, todo[0])
    }
  }

  /** The next thing bind() does, or an act of anybody else. */
  datatype Step = Go | Env(a: Act)

  datatype Scene = Scene(c: Cluster, b: Binder)

  const BINDING: Changes := Changes(None, None, Some(true))

  /** What process p does under its lock. */
  predicate UsesLock(a: Act, p: ProcId) {
    match a
    case Other(Delete(q, _, _)) => q == p
    case Other(DeleteCrash(q, _, _, _)) => q == p
    case Other(Commit(q, _, _, _, _)) => q == p
    case Other(CommitCrash(q, _, _, _, _)) => q == p
    case Other(_) => false
    case _ => a.p == p
  }

  /** What the binder's next step does; update() does nothing to an attachment that is not there. */
  function GoAct(s: Scene): Option<Act>
    requires s.b.Holding()
  {
    if s.b.stage == Reading then Some(Put(s.b.p, BINDING))
    else if Get(s.c.w.st, s.b.First()).None? then None
    else Some(Take(s.b.p, s.b.First(), ToChange))
  }

  ghost predicate MayStep(s: Scene, step: Step) {
    match step
    case Go => s.b.Holding() && (GoAct(s).Some? ==> Allowed(s.c, GoAct(s).value))
    case Env(a) => Allowed(s.c, a) && (s.b.Holding() ==> !UsesLock(a, s.b.p))
  }

  function AfterGo(s: Scene): Binder
    requires s.b.Holding()
  {
    var (b, id) := (s.b, s.b.todo[0]);
    if b.stage == Coming then
      if Get(s.c.w.st, b.First()).None? then b.(todo := b.todo[1..]) else b.(stage := Reading)
    else if b.First() in s.c.w.st.dirs then b.(todo := b.todo[1..], stage := Coming, marked := b.marked + [id])
    else b.(stage := Raised)
  }

  function Stepped(s: Scene, step: Step): Scene
    requires MayStep(s, step)
  {
    match step
    case Go => Scene(if GoAct(s).Some? then Done(s.c, GoAct(s).value) else s.c, AfterGo(s))
    case Env(a) =>
      var next := Done(s.c, a);
      Scene(next, if s.b.Holding() && !Up(next.w.st.locks, s.b.p) then s.b.(stage := Cut) else s.b)
  }

  ghost predicate MayRun(s: Scene, steps: seq<Step>)
    decreases |steps|
  {
    steps == [] || (MayStep(s, steps[0]) && MayRun(Stepped(s, steps[0]), steps[1..]))
  }

  ghost function AfterRun(s: Scene, steps: seq<Step>): Scene
    requires MayRun(s, steps)
    decreases |steps|
  {
    if steps == [] then s else AfterRun(Stepped(s, steps[0]), steps[1..])
  }

  // ----- the binder is never stuck, and its runs are runs of the cluster

  /** While bind() runs, its process is up, and holds what update() has just read. */
  ghost predicate SceneOk(s: Scene) {
    && Inv(s.c.w)
    && NoDuplicates(s.b.todo)
    && (forall id | id in s.b.todo :: Stored(s.c.w, id))
    && (s.b.stage == Raised || s.b.stage == Cut ==> s.b.todo != [])
    && (s.b.Holding() ==>
          && Up(s.c.w.st.locks, s.b.p)
          && (s.b.stage == Coming ==> s.b.p !in s.c.hands)
          && (s.b.stage == Reading ==>
                && s.b.p in s.c.hands
                && s.c.hands[s.b.p].path == s.b.First()
                && s.c.hands[s.b.p].purpose == ToChange))
  }

  lemma BinderGoesOn(s: Scene)
    requires SceneOk(s) && s.b.Holding()
    ensures MayStep(s, Go)
  {
  }

  lemma ActKeepsInv(c: Cluster, a: Act)
    requires Inv(c.w) && Allowed(c, a)
    ensures Inv(Done(c, a).w)
  {
    hide Inv, Enabled, Next, Allowed;
    if EventOf(c, a).Some? {
      EventIsEnabled(c, a);
      AttachmentSteps.StepKeeps(c.w, EventOf(c, a).value);
    }
  }

  lemma ActKeepsStored(c: Cluster, a: Act, id: Id)
    requires Inv(c.w) && Allowed(c, a) && Stored(c.w, id)
    ensures Stored(Done(c, a).w, id)
  {
    hide Inv, Stored, Enabled, Next, Allowed;
    if EventOf(c, a).Some? {
      EventIsEnabled(c, a);
      StoredForGood(c.w, EventOf(c, a).value, id);
    }
  }

  /** Nobody else changes what a process holds while it stays up. */
  lemma OwnHandStays(c: Cluster, a: Act, p: ProcId)
    requires Allowed(c, a) && !UsesLock(a, p) && Up(c.w.st.locks, p) && Up(Done(c, a).w.st.locks, p)
    ensures p in Done(c, a).hands <==> p in c.hands
    ensures p in c.hands ==> Done(c, a).hands[p] == c.hands[p]
  {
    hide PartlyRemoved, DeadUploads, DeadParts, DeadOwners, AdmissionRefusal, QueueRefusal, StartVerdict;
    hide CommitRefusal, EditAll, RowOf;
  }

  lemma PutKeepsLocks(c: Cluster, p: ProcId, changes: Changes)
    requires Allowed(c, Put(p, changes))
    ensures Done(c, Put(p, changes)).w.st.locks == c.w.st.locks
  {
  }

  lemma SceneStays(s: Scene, step: Step)
    requires SceneOk(s) && MayStep(s, step)
    ensures SceneOk(Stepped(s, step))
  {
    hide Inv, Stored, Allowed, Done, Enabled, Next;
    var next := Stepped(s, step);
    var act := if step.Go? then GoAct(s) else Some(step.a);
    if act.Some? {
      ActKeepsInv(s.c, act.value);
      forall id | id in s.b.todo ensures Stored(next.c.w, id) {
        ActKeepsStored(s.c, act.value, id);
      }
    }
    if next.b.Holding() {
      HandAfter(s, step);
    }
  }

  lemma HandAfter(s: Scene, step: Step)
    requires SceneOk(s) && MayStep(s, step) && s.b.Holding() && Stepped(s, step).b.Holding()
    ensures var next := Stepped(s, step);
      && Up(next.c.w.st.locks, s.b.p)
      && (next.b.stage == Coming ==> s.b.p !in next.c.hands)
      && (next.b.stage == Reading ==>
            && s.b.p in next.c.hands
            && next.c.hands[s.b.p].path == next.b.First()
            && next.c.hands[s.b.p].purpose == ToChange)
  {
    hide Inv, Stored, Enabled, Next;
    match step
    case Go =>
      if s.b.stage == Reading {
        PutKeepsLocks(s.c, s.b.p, BINDING);
      }
    case Env(a) => OwnHandStays(s.c, a, s.b.p);
  }

  // ----- which attachments are marked

  function ActFate(f: Fate, c: Cluster, a: Act, d: Path): Fate {
    match EventOf(c, a)
    case None => f
    case Some(e) => FateAfter(f, e, d)
  }

  /** When update() comes to the attachment it can be read, and when it writes the directory is there. */
  predicate Met(s: Scene, step: Step, id: Id, f: Fate) {
    step.Go? && s.b.todo != [] && id == s.b.todo[0] ==> if s.b.stage == Coming then f == Whole else f != Gone
  }

  /** Whenever the binder turns to the attachment, what others have deleted and written lets it go on. */
  ghost predicate Spared(s: Scene, steps: seq<Step>, id: Id, f: Fate)
    requires MayRun(s, steps)
    decreases |steps|
  {
    steps == [] || id !in s.b.todo ||
    (&& Met(s, steps[0], id, f)
     && Spared(Stepped(s, steps[0]), steps[1..], id,
               if steps[0].Go? then f else ActFate(f, s.c, steps[0].a, Path(s.b.sid, id))))
  }

  function FateOf(s: Scene, id: Id): Fate {
    FateIn(s.c.w.st, Path(s.b.sid, id))
  }

  ghost predicate AllSpared(s: Scene, steps: seq<Step>)
    requires MayRun(s, steps)
  {
    forall id | id in s.b.todo :: Spared(s, steps, id, FateOf(s, id))
  }

  lemma ActFateFollows(c: Cluster, a: Act, d: Path)
    requires Inv(c.w) && Allowed(c, a) && Stored(c.w, d.id)
    ensures FateIn(Done(c, a).w.st, d) == ActFate(FateIn(c.w.st, d), c, a, d)
  {
    hide Inv, Stored, Enabled, Next, Allowed, FateAfter;
    if EventOf(c, a).Some? {
      EventIsEnabled(c, a);
      FateFollows(c.w, EventOf(c, a).value, d);
    }
  }

  /** The binder's own step leaves the attachments it has not come to as they are. */
  lemma GoSparesOthers(s: Scene, id: Id)
    requires SceneOk(s) && s.b.Holding() && MayStep(s, Go) && id in Stepped(s, Go).b.todo
    ensures id in s.b.todo && FateOf(Stepped(s, Go), id) == FateOf(s, id)
  {
    hide Inv, Stored;
  }

  lemma SparedLater(s: Scene, steps: seq<Step>, id: Id)
    requires SceneOk(s) && MayRun(s, steps) && steps != [] && id in Stepped(s, steps[0]).b.todo
    ensures id in s.b.todo
    ensures Spared(s, steps, id, FateOf(s, id))
        <==> && Met(s, steps[0], id, FateOf(s, id))
             && Spared(Stepped(s, steps[0]), steps[1..], id, FateOf(Stepped(s, steps[0]), id))
  {
    hide Inv, Stored, Allowed, Done, ActFate;
    match steps[0]
    case Go => GoSparesOthers(s, id);
    case Env(a) => ActFateFollows(s.c, a, Path(s.b.sid, id));
  }

  /** Nothing is marked twice; a binder that was cut off or raised does nothing more and has not come to its end. */
  lemma {:induction false} HowRunsEnd(s: Scene, steps: seq<Step>)
    requires MayRun(s, steps)
    ensures var e := AfterRun(s, steps).b;
      && |e.marked| + |e.todo| <= |s.b.marked| + |s.b.todo|
      && (s.b.stage == Raised || s.b.stage == Cut ==> e == s.b)
      && ((s.b.stage == Raised || s.b.stage == Cut ==> s.b.todo != []) ==>
          (e.stage == Raised || e.stage == Cut ==> e.todo != []))
    decreases |steps|
  {
    hide Allowed, Done;
    if steps != [] {
      HowRunsEnd(Stepped(s, steps[0]), steps[1..]);
    }
  }

  /** Spared, an attachment keeps the binder going: nothing is skipped and nothing raised. */
  lemma {:induction false} SparedAreMarked(s: Scene, steps: seq<Step>)
    requires SceneOk(s) && MayRun(s, steps) && AllSpared(s, steps) && s.b.stage != Raised
    ensures var e := AfterRun(s, steps).b; e.stage != Raised && e.marked + e.todo == s.b.marked + s.b.todo
    decreases |steps|
  {
    hide SceneOk, Allowed, Done, Spared, Stepped, Met;
    if steps != [] {
      var next := Stepped(s, steps[0]);
      SceneStays(s, steps[0]);
      FirstIsMarked(s, steps);
      forall id | id in next.b.todo ensures Spared(next, steps[1..], id, FateOf(next, id)) {
        SparedLater(s, steps, id);
      }
      SparedAreMarked(next, steps[1..]);
    }
  }

  lemma FirstIsMarked(s: Scene, steps: seq<Step>)
    requires SceneOk(s) && MayRun(s, steps) && steps != [] && AllSpared(s, steps) && s.b.stage != Raised
    ensures var next := Stepped(s, steps[0]).b;
      next.stage != Raised && next.marked + next.todo == s.b.marked + s.b.todo
  {
    hide Inv, Stored, Allowed, Done;
    if steps[0].Go? {
      var id := s.b.todo[0];
      assert Spared(s, steps, id, FateOf(s, id));
      assert s.b.marked + [id] + s.b.todo[1..] == s.b.marked + s.b.todo by {
        assert s.b.todo == [id] + s.b.todo[1..];
      }
    }
  }

  lemma {:induction false} MarkedAreSpared(s: Scene, steps: seq<Step>)
    requires SceneOk(s) && MayRun(s, steps)
    requires AfterRun(s, steps).b.marked == s.b.marked + s.b.todo
    ensures AllSpared(s, steps)
    decreases |steps|
  {
    hide SceneOk, Allowed, Done, Spared, Met;
    if steps == [] {
      assert s.b.marked == s.b.marked + s.b.todo;
      assert s.b.todo == [];
    } else {
      var next := Stepped(s, steps[0]);
      SceneStays(s, steps[0]);
      FirstWasMet(s, steps);
      MarkedAreSpared(next, steps[1..]);
      forall id | id in s.b.todo ensures Spared(s, steps, id, FateOf(s, id)) {
        SparedFrom(s, steps, id);
      }
    }
  }

  /** A step of the binder that neither raises nor skips has found its attachment. */
  lemma GoMeets(s: Scene)
    requires MayStep(s, Go)
    requires var next := Stepped(s, Go).b;
      next.stage != Raised && |next.marked| + |next.todo| >= |s.b.marked| + |s.b.todo|
    ensures var next := Stepped(s, Go).b; next.marked + next.todo == s.b.marked + s.b.todo
    ensures Met(s, Go, s.b.todo[0], FateOf(s, s.b.todo[0]))
  {
    hide Allowed, Done;
    assert s.b.todo == [s.b.todo[0]] + s.b.todo[1..];
  }

  lemma EnvMeets(s: Scene, a: Act)
    requires MayStep(s, Env(a))
    ensures var next := Stepped(s, Env(a)).b; next.marked == s.b.marked && next.todo == s.b.todo
    ensures forall id, f :: Met(s, Env(a), id, f)
  {
    hide Allowed, Done;
  }

  lemma FirstWasMet(s: Scene, steps: seq<Step>)
    requires SceneOk(s) && MayRun(s, steps) && steps != []
    requires AfterRun(s, steps).b.marked == s.b.marked + s.b.todo
    ensures var next := Stepped(s, steps[0]).b; next.marked + next.todo == s.b.marked + s.b.todo
    ensures forall id | id in s.b.todo :: Met(s, steps[0], id, FateOf(s, id))
  {
    hide SceneOk, MayStep, Stepped, FateOf;
    HowRunsEnd(Stepped(s, steps[0]), steps[1..]);
    if steps[0].Go? {
      RaisedIsNotAll(s, steps);
      GoMeets(s);
    } else {
      EnvMeets(s, steps[0].a);
    }
  }

  lemma RaisedIsNotAll(s: Scene, steps: seq<Step>)
    requires MayRun(s, steps) && steps != [] && steps[0].Go?
    requires AfterRun(s, steps).b.marked == s.b.marked + s.b.todo
    ensures Stepped(s, Go).b.stage != Raised
  {
    hide Allowed, Done;
    HowRunsEnd(Stepped(s, steps[0]), steps[1..]);
  }

  lemma SparedFrom(s: Scene, steps: seq<Step>, id: Id)
    requires SceneOk(s) && MayRun(s, steps) && steps != [] && id in s.b.todo
    requires Met(s, steps[0], id, FateOf(s, id))
    requires AllSpared(Stepped(s, steps[0]), steps[1..])
    ensures Spared(s, steps, id, FateOf(s, id))
  {
    if id in Stepped(s, steps[0]).b.todo {
      SparedLater(s, steps, id);
    }
  }

  /**
    Once its checks have passed, bind() sets the flag of all its attachments if
    and only if its process does not die before the last of them, and each is
    there when its turn comes: no deletion has taken it away before its flag
    was written.
   */
  lemma BindMarksAllIff(s: Scene, steps: seq<Step>)
    requires SceneOk(s) && s.b.stage == Coming && MayRun(s, steps) && !AfterRun(s, steps).b.Holding()
    ensures var e := AfterRun(s, steps).b;
      e.marked == s.b.marked + s.b.todo <==> e.stage != Cut && AllSpared(s, steps)
  {
    hide SceneOk, Allowed, Done, Spared, MayStep;
    var e := AfterRun(s, steps).b;
    HowRunsEnd(s, steps);
    if e.marked == s.b.marked + s.b.todo {
      assert e.todo == [];
      MarkedAreSpared(s, steps);
    }
    if e.stage != Cut && AllSpared(s, steps) {
      SparedAreMarked(s, steps);
      assert e.marked + e.todo == e.marked;
    }
  }

  /** Whatever happens between the look at an attachment and the first update, a passed check gives such a scene. */
  lemma {:induction false} StillStored(c: Cluster, acts: seq<Act>, d: Path)
    requires Inv(c.w) && AllowedAll(c, acts)
    requires Stored(c.w, d.id) || (Get(c.w.st, d).Some? && PastUpload(c.w.st.rows, d.id))
    ensures Inv(DoneAll(c, acts).w) && Stored(DoneAll(c, acts).w, d.id)
    decreases |acts|
  {
    hide Allowed, Done, PastUpload;
    if Get(c.w.st, d).Some? {
      assert DirOk(c.w, d);
      assert RowOk(c.w, RowOf(c.w.st.rows, d.id).value);
    }
    if acts != [] {
      ActKeepsInv(c, acts[0]);
      ActKeepsStored(c, acts[0], d.id);
      StillStored(Done(c, acts[0]), acts[1..], d);
    }
  }

  // ----- deletions, in particular

  /** A delete that covers an attachment whose turn has not come is enough. */
  lemma DeletionSplitsBind(s: Scene, q: ProcId, target: Option<Id>, steps: seq<Step>, id: Id)
    requires SceneOk(s) && s.b.stage == Coming && id in s.b.todo && (target.None? || target.value == id)
    requires var run := [Env(Other(Delete(q, s.b.sid, target)))] + steps;
      MayRun(s, run) && !AfterRun(s, run).b.Holding()
    ensures var run := [Env(Other(Delete(q, s.b.sid, target)))] + steps;
      AfterRun(s, run).b.marked != s.b.marked + s.b.todo
  {
    hide Inv, Stored, Allowed, Done, Spared, MayStep, Stepped;
    var act := Env(Other(Delete(q, s.b.sid, target)));
    var run := [act] + steps;
    assert run[1..] == steps;
    BindMarksAllIff(s, run);
    if AfterRun(s, run).b.marked == s.b.marked + s.b.todo {
      assert Spared(s, run, id, FateOf(s, id));
      SparedAfterDelete(s, q, target, run, id);
      GoneIsLeft(Stepped(s, act), steps, id);
      HowRunsEnd(s, run);
    }
  }

  lemma SparedAfterDelete(s: Scene, q: ProcId, target: Option<Id>, run: seq<Step>, id: Id)
    requires run != [] && run[0] == Env(Other(Delete(q, s.b.sid, target))) && MayRun(s, run)
    requires s.b.stage == Coming && id in s.b.todo && (target.None? || target.value == id)
    requires Spared(s, run, id, FateOf(s, id))
    ensures Spared(Stepped(s, run[0]), run[1..], id, Gone)
    ensures Stepped(s, run[0]).b.todo == s.b.todo && Stepped(s, run[0]).b.stage != Reading
  {
    hide Allowed, Done;
  }

  /** What is gone stays gone, so the binder does not come past it. */
  lemma {:induction false} GoneIsLeft(s: Scene, steps: seq<Step>, id: Id)
    requires MayRun(s, steps) && NoDuplicates(s.b.todo) && id in s.b.todo && Spared(s, steps, id, Gone)
    requires s.b.stage == Reading ==> id != s.b.todo[0]
    ensures id in AfterRun(s, steps).b.todo
    decreases |steps|
  {
    hide Allowed, Done;
    if steps != [] {
      GoneIsLeft(Stepped(s, steps[0]), steps[1..], id);
    }
  }

  predicate DeletesOne(step: Step, sid: string, id: Id) {
    match step
    case Env(Other(Delete(_, session, target))) => session == sid && (target.None? || target.value == id)
    case Env(Other(DeleteCrash(_, session, target, _))) => session == sid && (target.None? || target.value == id)
    case _ => false
  }

  /** Without deletions of its attachments bind() is cut short by nothing but the death of its process. */
  lemma BindIsWholeWithoutDeletions(s: Scene, steps: seq<Step>)
    requires SceneOk(s) && s.b.stage == Coming && MayRun(s, steps) && !AfterRun(s, steps).b.Holding()
    requires forall id | id in s.b.todo :: FateOf(s, id) == Whole
    requires forall i, id | 0 <= i < |steps| && id in s.b.todo :: !DeletesOne(steps[i], s.b.sid, id)
    ensures var e := AfterRun(s, steps).b; e.marked == s.b.marked + s.b.todo <==> e.stage != Cut
  {
    hide SceneOk, Allowed, Done, Spared, MayStep, Stepped;
    forall id | id in s.b.todo ensures Spared(s, steps, id, FateOf(s, id)) {
      WholeIsSpared(s, steps, id);
    }
    BindMarksAllIff(s, steps);
  }

  lemma {:induction false} WholeIsSpared(s: Scene, steps: seq<Step>, id: Id)
    requires SceneOk(s) && MayRun(s, steps) && (id in s.b.todo ==> FateOf(s, id) == Whole)
    requires forall i | 0 <= i < |steps| :: !DeletesOne(steps[i], s.b.sid, id)
    ensures Spared(s, steps, id, FateOf(s, id))
    decreases |steps|
  {
    hide SceneOk, Allowed, Done, Stepped, ActFate;
    if steps != [] && id in s.b.todo {
      var next := Stepped(s, steps[0]);
      SceneStays(s, steps[0]);
      SidStays(s, steps[0]);
      if id in next.b.todo {
        WholeStaysWhole(s, steps[0], id);
        WholeIsSpared(next, steps[1..], id);
        SparedLater(s, steps, id);
      }
    }
  }

  lemma SidStays(s: Scene, step: Step)
    requires MayStep(s, step)
    ensures Stepped(s, step).b.sid == s.b.sid
  {
    hide Allowed, Done;
  }

  lemma WholeStaysWhole(s: Scene, step: Step, id: Id)
    requires SceneOk(s) && MayStep(s, step) && id in Stepped(s, step).b.todo
    requires id in s.b.todo && FateOf(s, id) == Whole && !DeletesOne(step, s.b.sid, id)
    ensures FateOf(Stepped(s, step), id) == Whole
  {
    hide Inv, Stored, Done;
    match step
    case Go => GoSparesOthers(s, id);
    case Env(a) =>
      ActFateFollows(s.c, a, Path(s.b.sid, id));
      CrashSparesOthers(s, a, id);
  }

  lemma CrashSparesOthers(s: Scene, a: Act, id: Id)
    requires Allowed(s.c, a) && FateOf(s, id) == Whole && !DeletesOne(Env(a), s.b.sid, id)
    ensures ActFate(Whole, s.c, a, Path(s.b.sid, id)) == Whole
  {
  }

  // ----- a binder's run is a run of the cluster, and what it marks is bound

  ghost function ActsOf(s: Scene, steps: seq<Step>): seq<Act>
    requires MayRun(s, steps)
    decreases |steps|
  {
    if steps == [] then []
    else
      var act := if steps[0].Go? then GoAct(s) else Some(steps[0].a);
      (if act.Some? then [act.value] else []) + ActsOf(Stepped(s, steps[0]), steps[1..])
  }

  lemma {:induction false} BinderRunsAreRuns(s: Scene, steps: seq<Step>)
    requires MayRun(s, steps)
    ensures AllowedAll(s.c, ActsOf(s, steps)) && DoneAll(s.c, ActsOf(s, steps)) == AfterRun(s, steps).c
    decreases |steps|
  {
    hide Allowed, Done;
    if steps != [] {
      var next := Stepped(s, steps[0]);
      BinderRunsAreRuns(next, steps[1..]);
      var act := if steps[0].Go? then GoAct(s) else Some(steps[0].a);
      var rest := ActsOf(next, steps[1..]);
      if act.Some? {
        assert ([act.value] + rest)[1..] == rest;
      } else {
        assert [] + rest == rest;
      }
    }
  }

  lemma PutWrites(c: Cluster, p: ProcId, changes: Changes)
    requires Allowed(c, Put(p, changes)) && c.hands[p].path in c.w.st.dirs
    ensures var (x, d) := (Done(c, Put(p, changes)).w, c.hands[p].path);
      && x.st.rows == c.w.st.rows
      && d in x.st.dirs && x.st.dirs[d].meta == Some(Changed(c.hands[p].meta, changes))
  {
  }

  /** A flag that bind() writes is there, and stays there as BoundIsSafeIff says. */
  lemma MarkedIsBound(s: Scene)
    requires SceneOk(s) && s.b.Holding() && MayStep(s, Go)
    requires Stepped(s, Go).b.marked != s.b.marked
    ensures Stepped(s, Go).b.marked == s.b.marked + [s.b.todo[0]]
    ensures BoundAndCommitted(Stepped(s, Go).c.w, s.b.First())
  {
    hide Allowed, Done;
    assert DirOk(s.c.w, s.b.First());
    PutWrites(s.c, s.b.p, BINDING);
    assert Stored(s.c.w, s.b.todo[0]);
  }

  // ----- one call with nothing in between

  /** The looks of bind(), one after the other. */
  function Looks(p: ProcId, sid: string, ids: seq<Id>): seq<Act> {
    if ids == [] then [] else [Take(p, Path(sid, ids[0]), ToCheck), Drop(p)] + Looks(p, sid, ids[1..])
  }

  function Updates(p: ProcId, sid: string, ids: seq<Id>): seq<Act> {
    if ids == [] then [] else [Take(p, Path(sid, ids[0]), ToChange), Put(p, BINDING)] + Updates(p, sid, ids[1..])
  }

  lemma {:induction false} LooksChangeNothing(c: Cluster, p: ProcId, sid: string, ids: seq<Id>)
    requires Up(c.w.st.locks, p) && p !in c.hands && forall id | id in ids :: Get(c.w.st, Path(sid, id)).Some?
    ensures AllowedAll(c, Looks(p, sid, ids)) && DoneAll(c, Looks(p, sid, ids)) == c
  {
    hide Allowed, Done;
    if ids != [] {
      var d := Path(sid, ids[0]);
      TakeIs(c, p, d, ToCheck);
      var taken := Done(c, Take(p, d, ToCheck));
      DropIs(taken, p);
      assert taken.hands - {p} == c.hands;
      TwoActs(c, Take(p, d, ToCheck), Drop(p));
      LooksChangeNothing(c, p, sid, ids[1..]);
      ActsJoin(c, [Take(p, d, ToCheck), Drop(p)], Looks(p, sid, ids[1..]));
    }
  }

  function Bound(c: Cluster, sid: string, ids: seq<Id>): Cluster {
    c.(w := c.w.(st := c.w.st.(dirs := BoundDirs(c.w.st.dirs, sid, ids))))
  }

  lemma {:induction false} UpdatesBind(c: Cluster, p: ProcId, sid: string, ids: seq<Id>)
    requires Up(c.w.st.locks, p) && p !in c.hands && forall id | id in ids :: Get(c.w.st, Path(sid, id)).Some?
    ensures AllowedAll(c, Updates(p, sid, ids)) && DoneAll(c, Updates(p, sid, ids)) == Bound(c, sid, ids)
    decreases |ids|
  {
    hide Allowed, Done, AllowedAll, DoneAll;
    if ids == [] {
      NoUpdate(c, p, sid);
    } else {
      var d := Path(sid, ids[0]);
      UpdateIsTakeAndPut(c, p, d, BINDING);
      var next := Cluster(c.w.(st := Updated(c.w.st, d, BINDING)), c.hands);
      UpdatesBind(next, p, sid, ids[1..]);
      ActsJoin(c, [Take(p, d, ToChange), Put(p, BINDING)], Updates(p, sid, ids[1..]));
      BindingTheRest(c.w.st, sid, ids);
    }
  }

  lemma NoUpdate(c: Cluster, p: ProcId, sid: string)
    ensures AllowedAll(c, Updates(p, sid, [])) && DoneAll(c, Updates(p, sid, [])) == Bound(c, sid, [])
  {
    assert BoundDirs(c.w.st.dirs, sid, []) == c.w.st.dirs;
  }

  lemma BindingTheRest(st: State, sid: string, ids: seq<Id>)
    requires ids != [] && Get(st, Path(sid, ids[0])).Some?
    ensures BoundDirs(Updated(st, Path(sid, ids[0]), BINDING).dirs, sid, ids[1..]) == BoundDirs(st.dirs, sid, ids)
  {
    assert forall id :: id in ids <==> id == ids[0] || id in ids[1..];
  }

  /** bind() is a look at every attachment and an update of each, with nothing in between. */
  lemma BindIsActs(c: Cluster, p: ProcId, sid: string, ids: seq<Id>)
    requires Up(c.w.st.locks, p) && p !in c.hands && forall id | id in ids :: Selectable(c.w.st, sid, id)
    ensures var acts := Looks(p, sid, ids) + Updates(p, sid, ids);
      && AllowedAll(c, acts)
      && DoneAll(c, acts) == Cluster(c.w.(st := c.w.st.(dirs := BoundDirs(c.w.st.dirs, sid, ids))), c.hands)
  {
    hide Allowed, Done, AllowedAll, DoneAll;
    LooksChangeNothing(c, p, sid, ids);
    UpdatesBind(c, p, sid, ids);
    ActsJoin(c, Looks(p, sid, ids), Updates(p, sid, ids));
  }
}
