/**
  The methods of the attachment store as acts of a cluster.

  Each method that reads and writes under the lock is a run of acts of its own
  process with nothing of the others in between.
 */
module AttachmentActs {
  import opened Wrappers
  import opened ProcessOwnership
  import opened ResourceTransactions
  import opened AttachmentRuns
  import opened AttachmentStores
  import opened AttachmentSharing

  lemma TwoActs(c: Cluster, a: Act, b: Act)
    requires Allowed(c, a) && Allowed(Done(c, a), b)
    ensures AllowedAll(c, [a, b]) && DoneAll(c, [a, b]) == Done(Done(c, a), b)
  {
    hide Done, Allowed;
    assert [a, b][1..] == [b];
    OneAct(Done(c, a), b);
  }

  lemma TakeIs(c: Cluster, p: ProcId, d: Path, purpose: Purpose)
    requires Up(c.w.st.locks, p) && Get(c.w.st, d).Some?
    requires p in c.hands ==> c.hands[p].path == d && c.hands[p].purpose == ToCheck && purpose == ToChange
    ensures Allowed(c, Take(p, d, purpose))
    ensures Done(c, Take(p, d, purpose)) == Cluster(c.w, c.hands[p := Hand(d, Get(c.w.st, d).value, purpose)])
  {
  }

  /** update() is reading and writing back, with nothing in between. */
  lemma UpdateIsTakeAndPut(c: Cluster, p: ProcId, d: Path, changes: Changes)
    requires Up(c.w.st.locks, p) && p !in c.hands && Get(c.w.st, d).Some? && changes.bound != Some(false)
    ensures var acts := [Take(p, d, ToChange), Put(p, changes)];
      AllowedAll(c, acts) && DoneAll(c, acts) == Cluster(c.w.(st := Updated(c.w.st, d, changes)), c.hands)
  {
    TakeIs(c, p, d, ToChange);
    var taken := Done(c, Take(p, d, ToChange));
    assert taken.hands - {p} == c.hands;
    TwoActs(c, Take(p, d, ToChange), Put(p, changes));
  }

  /** remove() is a check and a deletion, with nothing in between. */
  lemma RemoveIsTakeAndDelete(c: Cluster, p: ProcId, d: Path)
    requires Up(c.w.st.locks, p) && p !in c.hands && Get(c.w.st, d).Some? && !Get(c.w.st, d).value.bound
    ensures var acts := [Take(p, d, ToRemove), Other(Delete(p, d.session, Some(d.id)))];
      && AllowedAll(c, acts)
      && DoneAll(c, acts).w.st == Deleted(c.w.st, d.session, Some(d.id))
      && DoneAll(c, acts).hands == c.hands
  {
    hide Deleted;
    TakeIs(c, p, d, ToRemove);
    var taken := Done(c, Take(p, d, ToRemove));
    assert taken.hands - {p} == c.hands;
    TwoActs(c, Take(p, d, ToRemove), Other(Delete(p, d.session, Some(d.id))));
  }

  datatype NewFile = NewFile(name: FileName, content: string)

  function Stores(p: ProcId, files: seq<NewFile>): seq<Act> {
    if files == [] then [] else [Store(p, files[0].name, files[0].content)] + Stores(p, files[1..])
  }

  function WithFiles(before: map<FileName, string>, files: seq<NewFile>): map<FileName, string>
    decreases |files|
  {
    if files == [] then before else WithFiles(before[files[0].name := files[0].content], files[1..])
  }

  function Filled(c: Cluster, d: Path, files: seq<NewFile>): Cluster
    requires d in c.w.st.dirs
  {
    var dir := c.w.st.dirs[d];
    c.(w := c.w.(st := c.w.st.(dirs := c.w.st.dirs[d := dir.(files := WithFiles(dir.files, files))])))
  }

  lemma {:induction false} StoresFill(c: Cluster, p: ProcId, d: Path, files: seq<NewFile>)
    requires Up(c.w.st.locks, p) && p in c.hands && c.hands[p].path == d && c.hands[p].purpose == ToCheck
    requires d in c.w.st.dirs
    ensures AllowedAll(c, Stores(p, files)) && DoneAll(c, Stores(p, files)) == Filled(c, d, files)
    decreases |files|
  {
    if files == [] {
      assert Filled(c, d, files).w.st.dirs == c.w.st.dirs;
    } else {
      var first := Store(p, files[0].name, files[0].content);
      var next := Done(c, first);
      StoresFill(next, p, d, files[1..]);
      assert Stores(p, files)[1..] == Stores(p, files[1..]);
      assert Filled(next, d, files[1..]).w.st.dirs == Filled(c, d, files).w.st.dirs;
    }
  }

  lemma {:induction false} ActsJoin(c: Cluster, a: seq<Act>, b: seq<Act>)
    requires AllowedAll(c, a) && AllowedAll(DoneAll(c, a), b)
    ensures AllowedAll(c, a + b) && DoneAll(c, a + b) == DoneAll(DoneAll(c, a), b)
    decreases |a|
  {
    hide Allowed, Done;
    if a == [] {
      assert a + b == b;
    } else {
      assert (a + b)[1..] == a[1..] + b;
      ActsJoin(Done(c, a[0]), a[1..], b);
    }
  }

  function ImageFiles(images: seq<Option<string>>): seq<NewFile> {
    if images == [] then []
    else
      var last := |images| - 1;
      ImageFiles(images[..last]) + if images[last].Some? then [NewFile(ImageText(last), images[last].value)] else []
  }

  /** What finish() writes, in order: the text, its native form, the images that came with one, the index. */
  function ParseFiles(content: string, index: string, images: seq<Option<string>>, native: bool): seq<NewFile> {
    [NewFile(ParsedText, content)] + (if native then [NewFile(NativeText, content)] else [])
    + ImageFiles(images) + [NewFile(ParsedIndex, index)]
  }

  lemma {:induction false} FilesJoin(before: map<FileName, string>, a: seq<NewFile>, b: seq<NewFile>)
    ensures WithFiles(before, a + b) == WithFiles(WithFiles(before, a), b)
    decreases |a|
  {
    if a == [] {
      assert a + b == b;
    } else {
      assert (a + b)[1..] == a[1..] + b;
      FilesJoin(before[a[0].name := a[0].content], a[1..], b);
    }
  }

  lemma OneFile(before: map<FileName, string>, f: NewFile)
    ensures WithFiles(before, [f]) == before[f.name := f.content]
  {
    assert [f][1..] == [];
  }

  lemma {:induction false} ImagesAreFiles(before: map<FileName, string>, images: seq<Option<string>>)
    ensures WithFiles(before, ImageFiles(images)) == WithImages(before, images)
  {
    if images != [] {
      var last := |images| - 1;
      ImagesAreFiles(before, images[..last]);
      if images[last].Some? {
        var f := NewFile(ImageText(last), images[last].value);
        FilesJoin(before, ImageFiles(images[..last]), [f]);
        OneFile(WithFiles(before, ImageFiles(images[..last])), f);
      } else {
        assert ImageFiles(images[..last]) + [] == ImageFiles(images[..last]);
      }
    }
  }

  lemma ParseWrites(before: map<FileName, string>, content: string, index: string, images: seq<Option<string>>,
                    native: bool)
    ensures var text := before[ParsedText := content];
      WithFiles(before, ParseFiles(content, index, images, native))
        == WithImages(if native then text[NativeText := content] else text, images)[ParsedIndex := index]
  {
    hide WithFiles, WithImages, ImageFiles;
    var first := [NewFile(ParsedText, content)];
    var second := if native then [NewFile(NativeText, content)] else [];
    var text := before[ParsedText := content];
    OneFile(before, NewFile(ParsedText, content));
    FilesJoin(before, first, second);
    OneFile(text, NewFile(NativeText, content));
    NoFile(text);
    FilesJoin(before, first + second, ImageFiles(images));
    ImagesAreFiles(WithFiles(before, first + second), images);
    FilesJoin(before, first + second + ImageFiles(images), [NewFile(ParsedIndex, index)]);
    OneFile(WithFiles(before, first + second + ImageFiles(images)), NewFile(ParsedIndex, index));
  }

  lemma NoFile(before: map<FileName, string>)
    ensures WithFiles(before, []) == before
  {
  }

  function WithDirectory(st: State, d: Path, dir: Directory): State {
    st.(dirs := st.dirs[d := dir])
  }

  const PARSED: Changes := Changes(Some(Ready), Some(""), None)

  /** finish() is looking, writing the files, reading again and writing the metadata back. */
  lemma FinishIsActs(c: Cluster, p: ProcId, d: Path, content: string, index: string,
                     images: seq<Option<string>>, native: bool)
    requires Up(c.w.st.locks, p) && p !in c.hands && Get(c.w.st, d).Some?
    ensures var acts := [Take(p, d, ToCheck)] + Stores(p, ParseFiles(content, index, images, native))
                        + [Take(p, d, ToChange), Put(p, PARSED)];
      && AllowedAll(c, acts)
      && DoneAll(c, acts) == Cluster(c.w.(st := WithDirectory(
           c.w.st, d, Parsed(c.w.st.dirs[d], content, index, images, native))), c.hands)
  {
    hide ParseFiles, WithFiles, WithImages, Stores, Allowed, Done, AllowedAll, DoneAll;
    var files := ParseFiles(content, index, images, native);
    var look, take := Take(p, d, ToCheck), Take(p, d, ToChange);
    TakeIs(c, p, d, ToCheck);
    OneAct(c, look);
    var taken := Done(c, look);
    StoresFill(taken, p, d, files);
    ActsJoin(c, [look], Stores(p, files));
    var filled := Filled(taken, d, files);
    TakeIs(filled, p, d, ToChange);
    LastPut(c, filled, p, d);
    TwoActs(filled, take, Put(p, PARSED));
    ActsJoin(c, [look] + Stores(p, files), [take, Put(p, PARSED)]);
    ParseWrites(c.w.st.dirs[d].files, content, index, images, native);
  }

  lemma LastPut(c: Cluster, filled: Cluster, p: ProcId, d: Path)
    requires Up(filled.w.st.locks, p) && Get(filled.w.st, d).Some? && p !in c.hands
    requires p in filled.hands && filled.hands[p].path == d && filled.hands[p].purpose == ToCheck
    requires filled.hands - {p} == c.hands
    ensures var taken := Done(filled, Take(p, d, ToChange));
      && Allowed(taken, Put(p, PARSED))
      && Done(taken, Put(p, PARSED)) == Cluster(filled.w.(st := WithDirectory(
           filled.w.st, d, filled.w.st.dirs[d].(meta := Some(Changed(Get(filled.w.st, d).value, PARSED))))), c.hands)
  {
    TakeIs(filled, p, d, ToChange);
  }

  lemma StoreIs(c: Cluster, p: ProcId, d: Path, name: FileName, content: string)
    requires Up(c.w.st.locks, p) && p in c.hands && c.hands[p].path == d && c.hands[p].purpose == ToCheck
    requires d in c.w.st.dirs
    ensures Allowed(c, Store(p, name, content))
    ensures Done(c, Store(p, name, content)) == Cluster(c.w.(st := WithFile(c.w.st, d, name, content)), c.hands)
  {
  }

  lemma DropIs(c: Cluster, p: ProcId)
    requires p in c.hands
    ensures Allowed(c, Drop(p)) && Done(c, Drop(p)) == Cluster(c.w, c.hands - {p})
  {
  }

  /** image_url() for a new image is a check and one file. */
  lemma ImageIsTakeAndStore(c: Cluster, p: ProcId, d: Path, index: nat, rendered: string)
    requires Up(c.w.st.locks, p) && p !in c.hands && Get(c.w.st, d).Some?
    ensures var acts := [Take(p, d, ToCheck)] + [Store(p, ImageText(index), rendered), Drop(p)];
      && AllowedAll(c, acts)
      && DoneAll(c, acts) == Cluster(c.w.(st := WithFile(c.w.st, d, ImageText(index), rendered)), c.hands)
  {
    hide Allowed, Done, WithFile, AllowedAll, DoneAll;
    var store := Store(p, ImageText(index), rendered);
    TakeIs(c, p, d, ToCheck);
    OneAct(c, Take(p, d, ToCheck));
    var taken := Done(c, Take(p, d, ToCheck));
    StoreIs(taken, p, d, ImageText(index), rendered);
    DropIs(Done(taken, store), p);
    TwoActs(taken, store, Drop(p));
    ActsJoin(c, [Take(p, d, ToCheck)], [store, Drop(p)]);
    assert taken.hands - {p} == c.hands;
  }
}
