/** The attachment store: metadata and parsed files, changed under one process-wide lock. */
module AttachmentStores {
  import opened Wrappers
  import opened ResourceTable
  import opened ProcessOwnership
  import opened ResourceTransactions
  import opened ResourceLedgers

  const MAX_ATTACHMENTS: nat := 10

  datatype StoreError = InvalidId | NotInSession | RetainedWithConversation | BadSelection | NotSelectable | OutOfRange

  /** The keyword arguments of update(). */
  datatype Changes = Changes(status: Option<Status>, error: Option<string>, bound: Option<bool>)

  function Changed(m: Meta, c: Changes): Meta {
    m.(status := if c.status.Some? then c.status.value else m.status,
       error := if c.error.Some? then c.error.value else m.error,
       bound := if c.bound.Some? then c.bound.value else m.bound)
  }

  /** update(): nothing happens to an attachment that is not there. */
  function Updated(st: State, d: Path, c: Changes): State {
    if Get(st, d).None? then st
    else st.(dirs := st.dirs[d := st.dirs[d].(meta := Some(Changed(Get(st, d).value, c)))])
  }

  predicate Selectable(st: State, sid: string, aid: Id) {
    Get(st, Path(sid, aid)).Some? && Get(st, Path(sid, aid)).value.status == Ready
  }

  predicate NoDuplicates(ids: seq<Id>) {
    forall i, j | 0 <= i < j < |ids| :: ids[i] != ids[j]
  }

  /** All of these attachments, and nothing else, become bound. */
  function BoundDirs(dirs: map<Path, Directory>, sid: string, ids: seq<Id>): map<Path, Directory> {
    map d | d in dirs ::
      if d.session == sid && d.id in ids && dirs[d].meta.Some?
      then dirs[d].(meta := Some(dirs[d].meta.value.(bound := true)))
      else dirs[d]
  }

  function WithImages(files: map<FileName, string>, images: seq<Option<string>>): (r: map<FileName, string>)
    ensures forall n | n in files && !n.ImageText? :: n in r && r[n] == files[n]
    ensures forall n | n in r && !n.ImageText? :: n in files
    ensures forall i: nat :: ImageText(i) in r <==> (ImageText(i) in files || (i < |images| && images[i].Some?))
    ensures forall i: nat | ImageText(i) in r ::
              r[ImageText(i)] == if i < |images| && images[i].Some? then images[i].value else files[ImageText(i)]
  {
    if images == [] then files
    else
      var last := |images| - 1;
      var before := WithImages(files, images[..last]);
      if images[last].Some? then before[ImageText(last) := images[last].value] else before
  }

  /** A directory after its parse: the new text, the images that came with one, and the status. */
  function Parsed(dir: Directory, content: string, index: string, images: seq<Option<string>>, native: bool)
    : (r: Directory)
    requires dir.meta.Some?
    ensures r.source == dir.source && r.meta.Some? && r.meta.value.bound == dir.meta.value.bound
    ensures forall i: nat | i < |images| && images[i].Some? ::
              ImageText(i) in r.files && r.files[ImageText(i)] == images[i].value
    ensures forall i: nat | ImageText(i) in dir.files && !(i < |images| && images[i].Some?) ::
              ImageText(i) in r.files && r.files[ImageText(i)] == dir.files[ImageText(i)]
    ensures r.meta == Some(Meta(dir.meta.value.filename, dir.meta.value.size, Ready, dir.meta.value.bound, ""))
    ensures ParsedText in r.files && r.files[ParsedText] == content
    ensures ParsedIndex in r.files && r.files[ParsedIndex] == index
    ensures native ==> NativeText in r.files && r.files[NativeText] == content
    ensures !native && NativeText in dir.files ==> NativeText in r.files && r.files[NativeText] == dir.files[NativeText]
  {
    var text := dir.files[ParsedText := content];
    var kept := if native then text[NativeText := content] else text;
    dir.(files := WithImages(kept, images)[ParsedIndex := index],
         meta := Some(Changed(dir.meta.value, Changes(Some(Ready), Some(""), None))))
  }

  predicate HasImage(st: State, d: Path, index: nat) {
    d in st.dirs && ImageText(index) in st.dirs[d].files
  }

  /** One file written into an attachment's directory; nothing else changes. */
  function WithFile(st: State, d: Path, name: FileName, content: string): State {
    if d !in st.dirs then st
    else st.(dirs := st.dirs[d := st.dirs[d].(files := st.dirs[d].files[name := content])])
  }

  class AttachmentStore {
    const resources: ResourceLedger

    constructor (resources: ResourceLedger)
      ensures this.resources == resources
    {
      this.resources := resources;
    }

    function View(): State
      reads resources, resources.owners
    {
      resources.View()
    }

    /** commit_upload: a commit that is refused, or fails on the disk, takes its directory and its reservation
        with it. */
    method CommitUpload(lease: Lease, filename: string, size: nat, checkPasses: bool, fails: Option<Progress>)
      returns (r: Result<Meta, Refusal>)
      modifies resources`rows, resources`dirs, resources`parts
      ensures var refusal := CommitRefusal(old(View()), lease, size, checkPasses);
        if refusal.None? && fails.Some? then View() == Aborted(old(View()), lease) && r == Failure(PublishFailed)
        else (View(), r) == Committed(old(View()), lease, filename, size, checkPasses)
      ensures r.Success? ==>
        && r.value == Meta(filename, size, Processing, false, "")
        && lease.id in old(resources.parts) && old(resources.parts)[lease.id] == size
        && resources.parts == old(resources.parts) - {lease.id}
        && Path(lease.session, lease.id) !in old(resources.dirs)
        && resources.dirs
           == old(resources.dirs)[Path(lease.session, lease.id) := Directory(Some(size), Some(r.value), map[])]
      ensures r.Success? && Distinct(old(resources.rows)) ==>
        && Distinct(resources.rows)
        && RowOf(old(resources.rows), lease.id).Some?
        && (forall id | id != lease.id :: RowOf(resources.rows, id) == RowOf(old(resources.rows), id))
        && var row := RowOf(old(resources.rows), lease.id).value;
           RowOf(resources.rows, lease.id)
           == Some(row.(bytes := size, phase := if row.wantsParse then Queued else Idle))
    {
      ghost var d, dirs := Path(lease.session, lease.id), resources.dirs;
      assert CommitRefusal(View(), lease, size, checkPasses).None? ==>
               && d !in dirs && RowOf(resources.rows, lease.id).Some?
               && lease.id in resources.parts && resources.parts[lease.id] == size;
      hide CommitRefusal, EditAll, RowOf, Distinct;
      r := resources.Commit(lease, filename, size, checkPasses, fails);
      if r.Failure? {
        resources.dirs := resources.dirs - {Path(lease.session, lease.id)};
        assert d !in dirs ==> resources.dirs == dirs;
        resources.Abort(lease);
      }
    }

    method Lookup(sid: string, aid: Id) returns (r: Result<Option<Meta>, StoreError>)
      ensures r == if ValidSession(sid) then Success(Get(View(), Path(sid, aid))) else Failure(InvalidId)
    {
      if !ValidSession(sid) {
        return Failure(InvalidId);
      }
      var d := Path(sid, aid);
      if d !in resources.dirs {
        return Success(None);
      }
      return Success(resources.dirs[d].meta);
    }

    method Update(sid: string, aid: Id, c: Changes) returns (r: Result<Option<Meta>, StoreError>)
      modifies resources`dirs
      ensures View() == if ValidSession(sid) then Updated(old(View()), Path(sid, aid), c) else old(View())
      ensures r == if ValidSession(sid) then Success(Get(View(), Path(sid, aid))) else Failure(InvalidId)
      ensures r.Success? ==> match Get(old(View()), Path(sid, aid))
        case None => r.value == None
        case Some(m) =>
          r.value == Some(Meta(m.filename, m.size,
            if c.status.Some? then c.status.value else m.status,
            if c.bound.Some? then c.bound.value else m.bound,
            if c.error.Some? then c.error.value else m.error))
    {
      hide ValidSession;
      var found := Lookup(sid, aid);
      if found.Failure? || found.value.None? {
        return found;
      }
      var d := Path(sid, aid);
      var changed := Changed(found.value.value, c);
      resources.dirs := resources.dirs[d := resources.dirs[d].(meta := Some(changed))];
      return Success(Some(changed));
    }

    /** finish(): a parse that ends after its attachment was deleted writes nothing. */
    method Finish(sid: string, aid: Id, content: string, index: string, images: seq<Option<string>>, native: bool)
      returns (done: bool)
      modifies resources`dirs
      ensures done <==> ValidSession(sid) && Get(old(View()), Path(sid, aid)).Some?
      ensures View() ==
        if !done then old(View())
        else
          var d := Path(sid, aid);
          old(View()).(dirs := old(View()).dirs[d := Parsed(old(View()).dirs[d], content, index, images, native)])
    {
      hide ValidSession;
      var found := Lookup(sid, aid);
      if found.Failure? || found.value.None? {
        return false;
      }
      var d := Path(sid, aid);
      var files := resources.dirs[d].files[ParsedText := content];
      if native {
        files := files[NativeText := content];
      }
      ghost var text := files;
      for i := 0 to |images|
        invariant files == WithImages(text, images[..i])
      {
        assert images[..i + 1][..i] == images[..i];
        if images[i].Some? {
          files := files[ImageText(i) := images[i].value];
        }
      }
      assert images[..|images|] == images;
      files := files[ParsedIndex := index];
      resources.dirs := resources.dirs[d := resources.dirs[d].(files := files)];
      var r := Update(sid, aid, Changes(Some(Ready), Some(""), None));
      return true;
    }

    /** image_url for an image not stored yet: it is kept only while the attachment is there. */
    method ImageUrl(sid: string, aid: Id, index: nat, rendered: string) returns (r: Result<string, StoreError>)
      modifies resources`dirs
      ensures r.Failure? ==> View() == old(View())
      ensures r == Failure(InvalidId) <==> !ValidSession(sid)
      ensures ValidSession(sid) && HasImage(old(View()), Path(sid, aid), index) ==>
                View() == old(View()) && r == Success(old(View()).dirs[Path(sid, aid)].files[ImageText(index)])
      ensures ValidSession(sid) && !HasImage(old(View()), Path(sid, aid), index) ==>
                r == if Get(old(View()), Path(sid, aid)).None? then Failure(NotInSession) else Success(rendered)
      ensures ValidSession(sid) && !HasImage(old(View()), Path(sid, aid), index) && r.Success? ==>
                View() == WithFile(old(View()), Path(sid, aid), ImageText(index), rendered)
    {
      if !ValidSession(sid) {
        return Failure(InvalidId);
      }
      var d := Path(sid, aid);
      if d in resources.dirs && ImageText(index) in resources.dirs[d].files {
        return Success(resources.dirs[d].files[ImageText(index)]);
      }
      var found := Lookup(sid, aid);
      if found.Failure? || found.value.None? {
        return Failure(NotInSession);
      }
      var dir := resources.dirs[d];
      resources.dirs := resources.dirs[d := dir.(files := dir.files[ImageText(index) := rendered])];
      return Success(rendered);
    }

    /** bind() without anything in between: all the chosen attachments become bound, or none does. */
    method Bind(sid: string, ids: seq<Id>) returns (r: Result<(), StoreError>)
      modifies resources`dirs
      ensures r.Success? <==>
                && |ids| <= 10 && NoDuplicates(ids)
                && (ids != [] ==> ValidSession(sid))
                && (forall aid | aid in ids :: var found := Get(old(View()), Path(sid, aid));
                      found.Some? && found.value.status == Ready)
      ensures r.Failure? ==> View() == old(View())
      ensures r.Success? ==> View() == old(View()).(dirs := BoundDirs(old(View()).dirs, sid, ids))
    {
      hide ValidSession;
      if |ids| > MAX_ATTACHMENTS || !NoDuplicates(ids) {
        return Failure(BadSelection);
      }
      for i := 0 to |ids|
        invariant View() == old(View())
        invariant i > 0 ==> ValidSession(sid)
        invariant forall aid | aid in ids[..i] :: Selectable(View(), sid, aid)
      {
        var found := Lookup(sid, ids[i]);
        if found.Failure? {
          return Failure(found.error);
        }
        if found.value.None? || found.value.value.status != Ready {
          assert ids[i] in ids && !Selectable(View(), sid, ids[i]);
          return Failure(NotSelectable);
        }
        assert ids[..i + 1] == ids[..i] + [ids[i]];
      }
      assert ids[..|ids|] == ids;
      ghost var before := resources.dirs;
      assert BoundDirs(before, sid, ids[..0]) == before;
      for i := 0 to |ids|
        invariant resources.dirs == BoundDirs(before, sid, ids[..i])
        invariant View() == old(View()).(dirs := resources.dirs)
      {
        assert ids[i] in ids;
        BindingOneMore(before, sid, ids[..i], ids[i]);
        assert ids[..i + 1] == ids[..i] + [ids[i]];
        var one := Update(sid, ids[i], Changes(None, None, Some(true)));
      }
      assert ids[..|ids|] == ids;
      return Success(());
    }

    /** remove(): refuses what was sent; otherwise the directory and the ledger agree afterwards. */
    method Remove(sid: string, aid: Id) returns (r: Result<(), StoreError>)
      modifies resources`rows, resources`dirs
      ensures r == if !ValidSession(sid) then Failure(InvalidId)
                   else match Get(old(View()), Path(sid, aid))
                        case None => Failure(NotInSession)
                        case Some(m) => if m.bound then Failure(RetainedWithConversation) else Success(())
      ensures View() == if r.Success? then Deleted(old(View()), sid, Some(aid)) else old(View())
    {
      var found := Lookup(sid, aid);
      if found.Failure? {
        return Failure(found.error);
      }
      if found.value.None? {
        return Failure(NotInSession);
      }
      if found.value.value.bound {
        return Failure(RetainedWithConversation);
      }
      resources.Delete(sid, Some(aid));
      return Success(());
    }

    method Purge(sid: string)
      modifies resources`rows, resources`dirs
      ensures View() == if ValidSession(sid) then Deleted(old(View()), sid, None) else old(View())
    {
      if ValidSession(sid) {
        resources.Delete(sid, None);
      }
    }
  }

  /** An attachment can be chosen once its parse is finished, and not before. */
  lemma SelectableOnceParsed(st: State, lease: Lease, filename: string, size: nat, ok: bool,
                             content: string, index: string, images: seq<Option<string>>, native: bool)
    requires CommitRefusal(st, lease, size, ok).None?
    ensures var x, d := Committed(st, lease, filename, size, ok).0, Path(lease.session, lease.id);
      && !Selectable(x, lease.session, lease.id)
      && d in x.dirs && x.dirs[d].meta.Some?
      && Selectable(x.(dirs := x.dirs[d := Parsed(x.dirs[d], content, index, images, native)]), lease.session, lease.id)
  {
    hide CommitRefusal, EditAll;
  }

  lemma BindingOneMore(dirs: map<Path, Directory>, sid: string, ids: seq<Id>, next: Id)
    requires Path(sid, next) in dirs && dirs[Path(sid, next)].meta.Some?
    ensures var d := Path(sid, next);
            var now := BoundDirs(dirs, sid, ids);
      && d in now && now[d].meta.Some?
      && BoundDirs(dirs, sid, ids + [next])
         == now[d := now[d].(meta := Some(Changed(now[d].meta.value, Changes(None, None, Some(true)))))]
  {
    assert forall c | c in dirs :: c.id in ids + [next] <==> c.id in ids || c.id == next;
  }

  /** bind() touches only the flag of the attachments it was given. */
  lemma BindingMarksExactly(dirs: map<Path, Directory>, sid: string, ids: seq<Id>, d: Path)
    requires d in dirs && dirs[d].meta.Some?
    ensures var now := BoundDirs(dirs, sid, ids);
      && now.Keys == dirs.Keys
      && now[d].source == dirs[d].source && now[d].files == dirs[d].files && now[d].meta.Some?
      && now[d].meta.value == dirs[d].meta.value.(bound := now[d].meta.value.bound)
      && (now[d].meta.value.bound <==> dirs[d].meta.value.bound || (d.session == sid && d.id in ids))
  {
  }
}
