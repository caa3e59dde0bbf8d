/**
  The session's registry of quotable evidence. A record's id is computed from what it quotes;
  the identity itself stands for the hash that the program stores.
 */
module Evidence {
  import opened Wrappers
  import opened Excerpts

  const MAX_EVIDENCE: nat := 2048
  const MAX_ACTIVE: nat := 256
  const RESTORED_ACTIVE: nat := 32
  const MAX_QUOTE: nat := 4000
  const MAX_TITLE: nat := 300

  const SOURCE_KEYS: set<string> :=
    {"collection", "collection_name", "file_id", "version_id", "source",
     "chunk_id", "meeting_id", "attachment_id", "url", "content_hash"}

  const LOCATION_KEYS: set<string> :=
    {"page_number", "slide_number", "paragraph_index", "sheet_name", "char_offset",
     "heading_path", "line", "sentence_id", "start_time", "end_time", "image_index"}

  /** A metadata value: a text, or something else with its JSON form, how it reads as text, and
      whether it counts as true. A null is an absent key. */
  datatype Value = Text(text: string) | Other(json: string, text: string, truthy: bool) {
    predicate Counts() {
      if Text? then text != "" else truthy
    }
  }

  type Meta = map<string, Value>

  /** What the JSON form of a value shows of it. */
  datatype Form = Quotes(text: string) | Json(json: string)

  function FormOf(v: Value): Form {
    match v
    case Text(text) => Quotes(text)
    case Other(json, _, _) => Json(json)
  }

  function FormsOf(meta: Meta): map<string, Form> {
    map k | k in meta :: FormOf(meta[k])
  }

  /** What the id of a record is computed from: metadata with the same JSON forms get the same id. */
  datatype Identity =
    Identity(session: string, kind: string, source: map<string, Form>, location: map<string, Form>, quote: string)

  datatype Record = Record(id: Identity, kind: string, title: string, quote: string, source: Meta, location: Meta)

  /** A dictionary from ids to records, in the order of insertion, and the recently used ids likewise. */
  datatype Registry = Registry(session: string, records: seq<Record>, active: seq<Identity>)

  function Only(meta: Meta, keys: set<string>): Meta {
    map k | k in meta && k in keys :: meta[k]
  }

  function Ids(records: seq<Record>): seq<Identity> {
    seq(|records|, i requires 0 <= i < |records| => records[i].id)
  }

  predicate Truthy(meta: Meta, key: string) {
    key in meta && meta[key].Counts()
  }

  function KindOf(kind: string, source: Meta): (r: string)
    ensures r != ""
    ensures kind != "" ==> r == kind
  {
    if kind != "" then kind
    else if Truthy(source, "attachment_id") then "attachment"
    else if Truthy(source, "meeting_id") then "meeting"
    else if Truthy(source, "url") then "web"
    else "document"
  }

  function Quoted(text: string): string {
    if |text| > MAX_QUOTE then text[..MAX_QUOTE] else text
  }

  function IdentityOf(session: string, text: string, meta: Meta, kind: string): Identity {
    var source := Only(meta, SOURCE_KEYS);
    Identity(session, KindOf(kind, source), FormsOf(source), FormsOf(Only(meta, LOCATION_KEYS)), Quoted(text))
  }

  // ----- titles

  /** The last component of a path, leaving out empty ones and single dots. */
  function PathName(path: string): string {
    Component(path, "", "")
  }

  /** `last` is the last component seen, `current` the one being read. */
  function Component(path: string, current: string, last: string): string {
    if path == "" then (if current == "" || current == "." then last else current)
    else if path[0] == '/' then
      Component(path[1..], "", if current == "" || current == "." then last else current)
    else Component(path[1..], current + [path[0]], last)
  }

  function FirstTruthy(meta: Meta, keys: seq<string>): string {
    if keys == [] then "Source"
    else if Truthy(meta, keys[0]) then meta[keys[0]].text
    else FirstTruthy(meta, keys[1..])
  }

  predicate StartsWith(s: string, prefix: string) {
    |prefix| <= |s| && s[..|prefix|] == prefix
  }

  function Cropped(title: string): string {
    if |title| > MAX_TITLE then title[..MAX_TITLE] else title
  }

  function TitleOf(meta: Meta): string {
    var title := FirstTruthy(meta, ["source_label", "filename", "title", "source", "url"]);
    Cropped(if StartsWith(title, "/") || StartsWith(title, "file:") then PathName(title) else title)
  }

  // ----- one registration

  /** dict.pop */
  function Without(ids: seq<Identity>, id: Identity): seq<Identity> {
    if ids == [] then []
    else if ids[0] == id then ids[1..]
    else [ids[0]] + Without(ids[1..], id)
  }

  /** The id moves to the end; the oldest goes when there are too many. */
  function Touched(active: seq<Identity>, id: Identity): seq<Identity> {
    var moved := Without(active, id) + [id];
    if |moved| > MAX_ACTIVE then moved[1..] else moved
  }

  /** Nothing is registered for a blank text, unless it stands for an image. */
  predicate Refused(text: string, kind: string) {
    Blank(Quoted(text)) && kind != "image"
  }

  function RecordFor(id: Identity, meta: Meta): Record {
    Record(id, id.kind, TitleOf(meta), id.quote, Only(meta, SOURCE_KEYS), Only(meta, LOCATION_KEYS))
  }

  function Registered(r: Registry, text: string, meta: Meta, kind: string): Registry {
    if Refused(text, kind) then r
    else
      var id := IdentityOf(r.session, text, meta, kind);
      var touched := r.(active := Touched(r.active, id));
      if id in Ids(r.records) then touched
      else
        var kept := if |r.records| >= MAX_EVIDENCE then r.records[1..] else r.records;
        touched.(records := kept + [RecordFor(id, meta)])
  }

  // ----- restoring a history

  /** A stored record, possibly damaged: the id it claims, and what it says. */
  datatype Stored = Malformed | Stored(id: Option<Identity>, kind: string, title: string, quote: string,
                                       source: Meta, location: Meta)

  function MetaOf(source: Meta, location: Meta, title: string): Meta {
    source + location + map["source_label" := Text(title)]
  }

  function Removed(records: seq<Record>, id: Identity): seq<Record> {
    if records == [] then []
    else if records[0].id == id then records[1..]
    else [records[0]] + Removed(records[1..], id)
  }

  /** One stored record: registered, and taken out again if its id is not the one it should have. */
  function RestoredOne(r: Registry, s: Stored): Registry {
    if s.Malformed? then r
    else
      var meta := MetaOf(s.source, s.location, s.title);
      var id := IdentityOf(r.session, s.quote, meta, s.kind);
      var next := Registered(r, s.quote, meta, s.kind);
      if !Refused(s.quote, s.kind) && Some(id) != s.id && id !in Ids(r.records)
      then next.(records := Removed(next.records, id)) else next
  }

  function RestoredAll(r: Registry, history: seq<Stored>): Registry
    decreases |history|
  {
    if history == [] then r else RestoredAll(RestoredOne(r, history[0]), history[1..])
  }

  function Restored(session: string, history: seq<Stored>): Registry {
    var r := RestoredAll(Registry(session, [], []), history);
    var ids := Ids(r.records);
    r.(active := if |ids| > RESTORED_ACTIVE then ids[|ids| - RESTORED_ACTIVE..] else ids)
  }

  function Reregistered(r: Registry, records: seq<Record>): Registry
    decreases |records|
  {
    if records == [] then r
    else
      var e := records[0];
      Reregistered(Registered(r, e.quote, MetaOf(e.source, e.location, e.title), e.kind), records[1..])
  }

  function Included(r: Registry, history: seq<Stored>): Registry {
    Reregistered(r, Restored(r.session, history).records)
  }

  // ----- the invariant

  predicate Distinct(ids: seq<Identity>) {
    forall i, j | 0 <= i < j < |ids| :: ids[i] != ids[j]
  }

  /** A record's id is what its contents say. */
  predicate Addressed(session: string, e: Record) {
    && e.id == Identity(session, e.kind, FormsOf(e.source), FormsOf(e.location), e.quote)
    && e.source.Keys <= SOURCE_KEYS && e.location.Keys <= LOCATION_KEYS
    && |e.quote| <= MAX_QUOTE && e.kind != ""
    && (Blank(e.quote) ==> e.kind == "image")
  }

  predicate Valid(r: Registry) {
    && |r.records| <= MAX_EVIDENCE && |r.active| <= MAX_ACTIVE
    && Distinct(Ids(r.records)) && Distinct(r.active)
    && forall e | e in r.records :: Addressed(r.session, e)
  }

  lemma DistinctFront(id: Identity, ids: seq<Identity>)
    ensures Distinct([id] + ids) <==> id !in ids && Distinct(ids)
  {
    var all := [id] + ids;
    assert forall i | 0 <= i < |ids| :: all[i + 1] == ids[i];
    if Distinct(all) {
      assert all[0] == id;
      assert all[1..] == ids;
    }
  }

  lemma {:induction false} WithoutOne(ids: seq<Identity>, id: Identity)
    requires Distinct(ids)
    ensures Distinct(Without(ids, id)) && id !in Without(ids, id)
    ensures |Without(ids, id)| == if id in ids then |ids| - 1 else |ids|
    ensures forall x | x in Without(ids, id) :: x in ids
  {
    if ids != [] {
      assert ids == [ids[0]] + ids[1..];
      DistinctFront(ids[0], ids[1..]);
      WithoutOne(ids[1..], id);
      DistinctFront(ids[0], Without(ids[1..], id));
    }
  }

  lemma TouchedIsValid(active: seq<Identity>, id: Identity)
    requires Distinct(active) && |active| <= MAX_ACTIVE
    ensures Distinct(Touched(active, id)) && |Touched(active, id)| <= MAX_ACTIVE
    ensures Touched(active, id) != [] && Touched(active, id)[|Touched(active, id)| - 1] == id
  {
    WithoutOne(active, id);
  }

  lemma {:induction false} WithoutAt(ids: seq<Identity>, p: nat)
    requires Distinct(ids) && p < |ids|
    ensures Without(ids, ids[p]) == ids[..p] + ids[p + 1..]
  {
    if p > 0 {
      assert ids[0] != ids[p];
      WithoutAt(ids[1..], p - 1);
      assert ids[1..][..p - 1] == ids[1..p] && ids[1..][p..] == ids[p + 1..];
    }
  }

  lemma {:induction false} WithoutNothing(ids: seq<Identity>, id: Identity)
    requires id !in ids
    ensures Without(ids, id) == ids
  {
    if ids != [] {
      WithoutNothing(ids[1..], id);
    }
  }

  /** The id used moves to the end, or is put there; the others keep their order, and only the oldest of
      256 goes for a new one. */
  lemma TouchedInOrder(active: seq<Identity>, id: Identity)
    requires Distinct(active) && |active| <= 256
    ensures forall p | 0 <= p < |active| && active[p] == id ::
              Touched(active, id) == active[..p] + active[p + 1..] + [id]
    ensures id !in active ==> Touched(active, id) == (if |active| == 256 then active[1..] else active) + [id]
  {
    if id in active {
      var p :| 0 <= p < |active| && active[p] == id;
      WithoutAt(active, p);
    } else {
      WithoutNothing(active, id);
    }
  }

  lemma RecordIsAddressed(session: string, text: string, meta: Meta, kind: string)
    requires !Refused(text, kind)
    ensures Addressed(session, RecordFor(IdentityOf(session, text, meta, kind), meta))
  {
    hide Blank, TitleOf;
  }

  lemma RoomForOne(session: string, records: seq<Record>, e: Record)
    requires Distinct(Ids(records)) && |records| <= MAX_EVIDENCE && e.id !in Ids(records)
    requires Addressed(session, e) && forall o | o in records :: Addressed(session, o)
    ensures var all := (if |records| >= MAX_EVIDENCE then records[1..] else records) + [e];
      && |all| <= MAX_EVIDENCE && Distinct(Ids(all)) && forall o | o in all :: Addressed(session, o)
  {
    hide Addressed;
    var kept := if |records| >= MAX_EVIDENCE then records[1..] else records;
    assert Ids(kept) == Ids(records)[|records| - |kept|..];
    assert Ids(kept + [e]) == Ids(kept) + [e.id];
    assert forall o | o in kept :: o in records;
  }

  /** Any registration keeps the registry in bounds, distinct and content-addressed. */
  lemma RegisteredIsValid(r: Registry, text: string, meta: Meta, kind: string)
    requires Valid(r)
    ensures Valid(Registered(r, text, meta, kind))
    ensures Registered(r, text, meta, kind).session == r.session
  {
    hide Refused, IdentityOf, Touched, Addressed, TitleOf;
    if !Refused(text, kind) {
      var id := IdentityOf(r.session, text, meta, kind);
      RecordIsAddressed(r.session, text, meta, kind);
      TouchedIsValid(r.active, id);
      if id !in Ids(r.records) {
        RoomForOne(r.session, r.records, RecordFor(id, meta));
      }
    }
  }

  /** A registration leaves its record in the registry, and of the others it can only lose the oldest. */
  lemma RegistrationKeepsTheRest(r: Registry, text: string, meta: Meta, kind: string)
    requires Valid(r) && !Refused(text, kind)
    ensures var active := Registered(r, text, meta, kind).active;
      active != [] && active[|active| - 1] == IdentityOf(r.session, text, meta, kind)
    ensures var next := Registered(r, text, meta, kind).records; var n := |r.records|;
      && IdentityOf(r.session, text, meta, kind) in Ids(next)
      && (if n < MAX_EVIDENCE then n <= |next| && next[..n] == r.records
          else next == r.records || (|next| == n && next[..n - 1] == r.records[1..]))
  {
    hide Refused, IdentityOf, Touched, Addressed, TitleOf;
    var id := IdentityOf(r.session, text, meta, kind);
    var next := Registered(r, text, meta, kind).records;
    TouchedIsValid(r.active, id);
    if id !in Ids(r.records) {
      assert Ids(next)[|next| - 1] == id;
    }
    assert r.records[..|r.records|] == r.records;
  }

  /** What a new record holds: the first 4000 characters, the metadata under the keys of a source and of a
      place, and the kind given, or the one the source gives away. */
  lemma RecordSaysWhatItQuotes(r: Registry, text: string, meta: Meta, kind: string)
    requires !Refused(text, kind) && IdentityOf(r.session, text, meta, kind) !in Ids(r.records)
    ensures var records := Registered(r, text, meta, kind).records;
      && records != []
      && var e := records[|records| - 1];
      && e.quote == text[..if |text| <= 4000 then |text| else 4000]
      && e.source == (map k | k in meta && k in
           {"collection", "collection_name", "file_id", "version_id", "source",
            "chunk_id", "meeting_id", "attachment_id", "url", "content_hash"} :: meta[k])
      && e.location == (map k | k in meta && k in
           {"page_number", "slide_number", "paragraph_index", "sheet_name", "char_offset",
            "heading_path", "line", "sentence_id", "start_time", "end_time", "image_index"} :: meta[k])
      && (kind != "" ==> e.kind == kind)
      && (kind == "" ==>
            if GivesAway(meta, "attachment_id") then e.kind == "attachment"
            else if GivesAway(meta, "meeting_id") then e.kind == "meeting"
            else if GivesAway(meta, "url") then e.kind == "web"
            else e.kind == "document")
  {
    hide TitleOf, Blank, Touched;
  }

  /** The key has a value that is no empty text and counts as true. */
  predicate GivesAway(meta: Meta, key: string) {
    key in meta && (meta[key].Text? ==> meta[key].text != "") && (meta[key].Other? ==> meta[key].truthy)
  }

  /** Two registrations get the same id if and only if they quote the same of the same: session, kind, text
      as far as it is kept, and every value of source and place as its JSON form shows it. */
  lemma SameIdIff(session: string, text: string, meta: Meta, kind: string,
                  session': string, text': string, meta': Meta, kind': string)
    ensures IdentityOf(session, text, meta, kind) == IdentityOf(session', text', meta', kind') <==>
      && session == session'
      && KindOf(kind, Only(meta, SOURCE_KEYS)) == KindOf(kind', Only(meta', SOURCE_KEYS))
      && text[..if |text| <= 4000 then |text| else 4000] == text'[..if |text'| <= 4000 then |text'| else 4000]
      && forall k | k in SOURCE_KEYS + LOCATION_KEYS ::
           && (k in meta <==> k in meta')
           && (k in meta ==> SameForm(meta[k], meta'[k]))
  {
    hide KindOf, SOURCE_KEYS, LOCATION_KEYS;
    SameFormsIff(meta, meta', SOURCE_KEYS);
    SameFormsIff(meta, meta', LOCATION_KEYS);
  }

  /** The same text, or values of another kind with one JSON form. */
  predicate SameForm(v: Value, w: Value) {
    match (v, w)
    case (Text(a), Text(b)) => a == b
    case (Other(a, _, _), Other(b, _, _)) => a == b
    case _ => false
  }

  lemma SameFormsIff(meta: Meta, meta': Meta, keys: set<string>)
    ensures FormsOf(Only(meta, keys)) == FormsOf(Only(meta', keys)) <==>
      forall k | k in keys :: (k in meta <==> k in meta') && (k in meta ==> SameForm(meta[k], meta'[k]))
  {
    var f, f' := FormsOf(Only(meta, keys)), FormsOf(Only(meta', keys));
    assert forall k :: k in f <==> k in keys && k in meta;
    assert forall k :: k in f' <==> k in keys && k in meta';
    if f == f' {
      forall k | k in keys && k in meta ensures k in meta' && SameForm(meta[k], meta'[k]) {
        assert k in f && f[k] == f'[k];
      }
      forall k | k in keys && k in meta' ensures k in meta {
        assert k in f';
      }
    }
  }

  lemma {:induction false} RemovedIds(records: seq<Record>, id: Identity)
    ensures Ids(Removed(records, id)) == Without(Ids(records), id)
  {
    if records != [] {
      var rest := records[1..];
      RemovedIds(rest, id);
      assert Ids(records) == [records[0].id] + Ids(rest);
      assert Ids([records[0]] + Removed(rest, id)) == [records[0].id] + Ids(Removed(rest, id));
    }
  }

  lemma {:induction false} RemovedKeepsOthers(records: seq<Record>, id: Identity)
    ensures |Removed(records, id)| <= |records|
    ensures forall e | e in Removed(records, id) :: e in records
    ensures forall e | e in records && e.id != id :: e in Removed(records, id)
  {
    if records != [] {
      assert records == [records[0]] + records[1..];
      RemovedKeepsOthers(records[1..], id);
    }
  }

  lemma RemovedOne(records: seq<Record>, id: Identity)
    requires Distinct(Ids(records))
    ensures |Removed(records, id)| <= |records|
    ensures Distinct(Ids(Removed(records, id)))
    ensures forall e :: e in Removed(records, id) <==> e in records && e.id != id
  {
    hide Removed, Without, Distinct;
    RemovedIds(records, id);
    RemovedKeepsOthers(records, id);
    WithoutOne(Ids(records), id);
    FoundIffListed(Removed(records, id), id);
  }

  lemma RestoredOneIsValid(r: Registry, s: Stored)
    requires Valid(r)
    ensures Valid(RestoredOne(r, s)) && RestoredOne(r, s).session == r.session
  {
    hide Addressed, IdentityOf, Refused;
    if s.Stored? {
      var meta := MetaOf(s.source, s.location, s.title);
      RegisteredIsValid(r, s.quote, meta, s.kind);
      RemovedOne(Registered(r, s.quote, meta, s.kind).records, IdentityOf(r.session, s.quote, meta, s.kind));
    }
  }

  lemma {:induction false} RestoredAllIsValid(r: Registry, history: seq<Stored>)
    requires Valid(r)
    ensures Valid(RestoredAll(r, history)) && RestoredAll(r, history).session == r.session
    decreases |history|
  {
    hide Valid, RestoredOne;
    if history != [] {
      RestoredOneIsValid(r, history[0]);
      RestoredAllIsValid(RestoredOne(r, history[0]), history[1..]);
    }
  }

  /** However damaged the history is, what comes out of it is in bounds, distinct and content-addressed. */
  lemma AnyHistoryRestoresValid(session: string, history: seq<Stored>)
    ensures Valid(Restored(session, history)) && Restored(session, history).session == session
    ensures var r := Restored(session, history); var n := |r.records|;
      r.active == Ids(r.records)[if n <= 32 then 0 else n - 32..]
  {
    assert forall ids: seq<Identity> :: ids[0..] == ids;
    RestoredAllIsValid(Registry(session, [], []), history);
  }

  /** A stored record comes back if and only if the id it claims is the one its contents have (or it was there
      before); the others are not touched while there is room. */
  lemma RestoredOneIff(r: Registry, s: Stored)
    requires Valid(r) && |r.records| < 2048 && s.Stored? && !Refused(s.quote, s.kind)
    ensures var id := IdentityOf(r.session, s.quote, MetaOf(s.source, s.location, s.title), s.kind);
      var next := RestoredOne(r, s).records;
      && (id in Ids(next) <==> id in Ids(r.records) || s.id == Some(id))
      && |r.records| <= |next| <= |r.records| + 1 && next[..|r.records|] == r.records
  {
    hide IdentityOf, Refused, MetaOf, Touched, TitleOf;
    var meta := MetaOf(s.source, s.location, s.title);
    var id := IdentityOf(r.session, s.quote, meta, s.kind);
    var registered := Registered(r, s.quote, meta, s.kind).records;
    assert r.records[..|r.records|] == r.records;
    if id !in Ids(r.records) {
      assert registered == r.records + [registered[|r.records|]];
      assert Ids(registered)[|r.records|] == id;
      RemovedLast(r.records, registered[|r.records|]);
    }
  }

  lemma {:induction false} RemovedLast(records: seq<Record>, e: Record)
    requires e.id !in Ids(records)
    ensures Removed(records + [e], e.id) == records
  {
    if records == [] {
    } else {
      assert Ids(records)[0] == records[0].id;
      assert Ids(records[1..]) == Ids(records)[1..];
      RemovedLast(records[1..], e);
      assert (records + [e])[1..] == records[1..] + [e];
    }
  }

  // ----- a history cannot forge evidence

  predicate Vouched(e: Record, history: seq<Stored>) {
    exists s :: s in history && s.Stored? && s.id == Some(e.id)
  }

  lemma {:induction false} RestoredAllIsVouched(r: Registry, before: seq<Stored>, history: seq<Stored>)
    requires Valid(r) && forall e | e in r.records :: Vouched(e, before)
    ensures forall e | e in RestoredAll(r, history).records :: Vouched(e, before + history)
    decreases |history|
  {
    hide Valid, RestoredOne, Vouched;
    if history == [] {
      assert before + history == before;
    } else {
      var s := history[0];
      RestoredOneIsValid(r, s);
      RestoredOneIsVouched(r, before, s);
      RestoredAllIsVouched(RestoredOne(r, s), before + [s], history[1..]);
      assert before + [s] + history[1..] == before + history;
    }
  }

  lemma RestoredOneIsVouched(r: Registry, before: seq<Stored>, s: Stored)
    requires Valid(r) && forall e | e in r.records :: Vouched(e, before)
    ensures forall e | e in RestoredOne(r, s).records :: Vouched(e, before + [s])
  {
    hide IdentityOf, Refused, Addressed, Touched, TitleOf;
    forall e | e in RestoredOne(r, s).records ensures Vouched(e, before + [s]) {
      if e in r.records {
        var o :| o in before && o.Stored? && o.id == Some(e.id);
        assert o in before + [s];
      } else {
        var meta := MetaOf(s.source, s.location, s.title);
        RegisteredIsValid(r, s.quote, meta, s.kind);
        RemovedOne(Registered(r, s.quote, meta, s.kind).records, IdentityOf(r.session, s.quote, meta, s.kind));
        assert s in before + [s];
      }
    }
  }

  /** Every restored record stands in the history under the id that its own contents give it. */
  lemma HistoryCannotForge(session: string, history: seq<Stored>, e: Record)
    requires e in Restored(session, history).records
    ensures Addressed(session, e)
    ensures exists s :: s in history && s.Stored? && s.id == Some(e.id)
  {
    AnyHistoryRestoresValid(session, history);
    RestoredAllIsVouched(Registry(session, [], []), [], history);
    assert [] + history == history;
  }

  // ----- round trip

  function Saved(e: Record): Stored {
    Stored(Some(e.id), e.kind, e.title, e.quote, e.source, e.location)
  }

  function SavedAll(records: seq<Record>): seq<Stored> {
    seq(|records|, i requires 0 <= i < |records| => Saved(records[i]))
  }

  /** The same evidence; the title is display only and may differ. */
  predicate SameEvidence(a: Record, b: Record) {
    a.id == b.id && a.kind == b.kind && a.quote == b.quote && a.source == b.source && a.location == b.location
  }

  lemma KeysAreDisjoint()
    ensures SOURCE_KEYS !! LOCATION_KEYS && "source_label" !in SOURCE_KEYS && "source_label" !in LOCATION_KEYS
  {
    assert forall k | k in SOURCE_KEYS :: k !in LOCATION_KEYS;
  }

  lemma MetaSplitsAgain(source: Meta, location: Meta, title: string)
    requires source.Keys <= SOURCE_KEYS && location.Keys <= LOCATION_KEYS
    ensures Only(MetaOf(source, location, title), SOURCE_KEYS) == source
    ensures Only(MetaOf(source, location, title), LOCATION_KEYS) == location
  {
    KeysAreDisjoint();
    hide SOURCE_KEYS, LOCATION_KEYS;
    var meta := MetaOf(source, location, title);
    assert forall k | k in SOURCE_KEYS :: k in meta <==> k in source;
    assert forall k | k in LOCATION_KEYS :: k in meta <==> k in location;
  }

  /** A record registered again gets the id it has. */
  lemma SameIdentityAgain(session: string, e: Record)
    requires Addressed(session, e)
    ensures IdentityOf(session, e.quote, MetaOf(e.source, e.location, e.title), e.kind) == e.id
    ensures !Refused(e.quote, e.kind)
  {
    hide SOURCE_KEYS, LOCATION_KEYS, Blank;
    MetaSplitsAgain(e.source, e.location, e.title);
  }

  lemma RestoreAppends(r: Registry, e: Record)
    requires Addressed(r.session, e) && e.id !in Ids(r.records) && |r.records| < MAX_EVIDENCE
    ensures var next := RestoredOne(r, Saved(e));
      && next.session == r.session
      && |next.records| == |r.records| + 1
      && next.records[..|r.records|] == r.records
      && SameEvidence(next.records[|r.records|], e)
  {
    hide IdentityOf, Refused, MetaOf, Touched, TitleOf, Only;
    SameIdentityAgain(r.session, e);
    MetaSplitsAgain(e.source, e.location, e.title);
  }

  lemma {:induction false} RestoreOfSaved(r: Registry, records: seq<Record>, n: nat)
    requires n <= |records| <= MAX_EVIDENCE && Distinct(Ids(records))
    requires forall e | e in records :: Addressed(r.session, e)
    requires |r.records| == n && forall i | 0 <= i < n :: SameEvidence(r.records[i], records[i])
    ensures var all := RestoredAll(r, SavedAll(records)[n..]).records;
      |all| == |records| && forall i | 0 <= i < |records| :: SameEvidence(all[i], records[i])
    decreases |records| - n
  {
    hide Addressed, RestoredOne;
    if n < |records| {
      var e := records[n];
      assert e.id !in Ids(r.records) by {
        assert forall i | 0 <= i < n :: Ids(r.records)[i] == Ids(records)[i];
        assert Ids(records)[n] == e.id;
      }
      RestoreAppends(r, e);
      var next := RestoredOne(r, Saved(e));
      assert forall i | 0 <= i < n :: next.records[i] == next.records[..n][i];
      assert SavedAll(records)[n..][1..] == SavedAll(records)[n + 1..];
      RestoreOfSaved(next, records, n + 1);
    }
  }

  /** A registry rebuilt from its own records has the same identities, kinds, quotes, sources
      and locations in the same order. */
  lemma RebuildingIsFaithful(r: Registry)
    requires Valid(r)
    ensures var again := Restored(r.session, SavedAll(r.records)).records;
      |again| == |r.records| && forall i | 0 <= i < |again| :: SameEvidence(again[i], r.records[i])
  {
    hide Addressed;
    RestoreOfSaved(Registry(r.session, [], []), r.records, 0);
    assert SavedAll(r.records)[0..] == SavedAll(r.records);
  }

  lemma IdStays(front: seq<Record>, all: seq<Record>, id: Identity)
    requires |front| <= |all| && all[..|front|] == front && id in Ids(front)
    ensures id in Ids(all)
  {
    var i :| 0 <= i < |front| && Ids(front)[i] == id;
    assert all[i] == all[..|front|][i];
    assert Ids(all)[i] == id;
  }

  lemma {:induction false} ReregisteredHasAll(r: Registry, records: seq<Record>, id: Identity)
    requires Valid(r) && |r.records| + |records| <= MAX_EVIDENCE
    requires forall e | e in records :: Addressed(r.session, e)
    ensures var all := Reregistered(r, records);
      && |r.records| <= |all.records| && all.records[..|r.records|] == r.records
      && (id in Ids(r.records) || id in Ids(records) ==> id in Ids(all.records))
      && (records != [] ==> all.active != [] && all.active[|all.active| - 1] == records[|records| - 1].id)
    decreases |records|
  {
    hide Valid, Addressed, Registered, Refused, IdentityOf, MetaOf;
    assert r.records[..|r.records|] == r.records;
    if records != [] {
      var e, rest := records[0], records[1..];
      var meta := MetaOf(e.source, e.location, e.title);
      var next := Registered(r, e.quote, meta, e.kind);
      assert Addressed(r.session, e);
      SameIdentityAgain(r.session, e);
      RegisteredIsValid(r, e.quote, meta, e.kind);
      RoomIsLeft(r, e.quote, meta, e.kind);
      assert forall o | o in rest :: o in records;
      ReregisteredHasAll(next, rest, id);
      var all := Reregistered(next, rest);
      assert all.records[..|r.records|] == all.records[..|next.records|][..|r.records|];
      FirstId(records, id);
      if id in Ids(next.records) {
        IdStays(next.records, all.records, id);
      }
    }
  }

  lemma FirstId(records: seq<Record>, id: Identity)
    requires records != []
    ensures id in Ids(records) <==> id == records[0].id || id in Ids(records[1..])
  {
    assert Ids(records) == [records[0].id] + Ids(records[1..]);
  }

  lemma RoomIsLeft(r: Registry, text: string, meta: Meta, kind: string)
    requires Valid(r) && |r.records| < MAX_EVIDENCE && !Refused(text, kind)
    ensures var next := Registered(r, text, meta, kind);
      && next.session == r.session
      && |r.records| <= |next.records| <= |r.records| + 1 && next.records[..|r.records|] == r.records
      && (forall id :: id in Ids(r.records) ==> id in Ids(next.records))
      && IdentityOf(r.session, text, meta, kind) in Ids(next.records)
      && next.active != [] && next.active[|next.active| - 1] == IdentityOf(r.session, text, meta, kind)
  {
    RegistrationKeepsTheRest(r, text, meta, kind);
    RegisteredIsValid(r, text, meta, kind);
    var next := Registered(r, text, meta, kind);
    hide IdentityOf, Refused, Addressed, Touched, TitleOf;
    forall id | id in Ids(r.records) ensures id in Ids(next.records) {
      IdStays(r.records, next.records, id);
    }
  }

  /** Including a history loses nothing while there is room: what the registry had stays where it is, and every
      record that the history gives is there, the last one used last. */
  lemma IncludedHasAll(r: Registry, history: seq<Stored>, id: Identity)
    requires Valid(r) && |r.records| + |Restored(r.session, history).records| <= 2048
    ensures var given, all := Restored(r.session, history).records, Included(r, history);
      && |r.records| <= |all.records| && all.records[..|r.records|] == r.records
      && (id in Ids(r.records) || id in Ids(given) ==> id in Ids(all.records))
      && (given != [] ==> all.active != [] && all.active[|all.active| - 1] == given[|given| - 1].id)
  {
    AnyHistoryRestoresValid(r.session, history);
    hide Restored;
    ReregisteredHasAll(r, Restored(r.session, history).records, id);
  }

  // ----- titles in the round trip

  predicate NoSlash(s: string) {
    '/' !in s
  }

  lemma {:induction false} ComponentIsPlain(path: string, current: string, last: string)
    requires NoSlash(current) && NoSlash(last) && last != "."
    ensures NoSlash(Component(path, current, last)) && Component(path, current, last) != "."
    decreases |path|
  {
    if path != "" {
      ComponentIsPlain(path[1..], "", if current == "" || current == "." then last else current);
      if path[0] != '/' {
        ComponentIsPlain(path[1..], current + [path[0]], last);
      }
    }
  }

  lemma {:induction false} PlainComponent(path: string, current: string)
    requires NoSlash(path) && current + path != "." && current + path != ""
    ensures Component(path, current, "") == current + path
    decreases |path|
  {
    if path == "" {
      assert current + path == current;
    } else {
      assert path[0] in path;
      PlainComponent(path[1..], current + [path[0]]);
      assert current + [path[0]] + path[1..] == current + path;
    }
  }

  lemma TitleIsItsOwnName(title: string)
    requires NoSlash(title) && title != "." && title != ""
    ensures PathName(title) == title
  {
    assert "" + title == title;
    PlainComponent(title, "");
  }

  /** A registered title is either no path, or the last component of one. */
  lemma TitleIsStable(meta: Meta)
    ensures var title := TitleOf(meta);
      title != "" && (StartsWith(title, "/") || StartsWith(title, "file:")) ==> PathName(title) == title
  {
    var chosen := FirstTruthy(meta, ["source_label", "filename", "title", "source", "url"]);
    var title := TitleOf(meta);
    if StartsWith(chosen, "/") || StartsWith(chosen, "file:") {
      ComponentIsPlain(chosen, "", "");
      assert NoSlash(PathName(chosen)) && NoSlash(title);
      if title != "" {
        assert title != ".";
        TitleIsItsOwnName(title);
      }
    }
  }

  /** Every title that is not empty survives a rebuild; an empty one, which a label like "/" gives, does not. */
  lemma TitlesSurvive(meta: Meta, source: Meta, location: Meta)
    ensures var title := TitleOf(meta); title != "" ==> TitleOf(MetaOf(source, location, title)) == title
    ensures TitleOf(map["source_label" := Text("/")]) == ""
    ensures TitleOf(MetaOf(map[], map[], "")) == "Source"
  {
    TitleIsStable(meta);
    var keys := ["source_label", "filename", "title", "source", "url"];
    assert FirstTruthy(map["source_label" := Text("/")], keys) == "/";
    assert "/"[1..] == "";
    assert Component("/", "", "") == "";
    NoTruthyLabel(MetaOf(map[], map[], ""));
    assert !StartsWith("Source", "/") && !StartsWith("Source", "file:");
  }

  /** A title is the same after a rebuild if and only if it is not empty, or its sources give no title either. */
  lemma TitleSurvivesIff(meta: Meta, source: Meta, location: Meta)
    ensures var title := TitleOf(meta);
      TitleOf(MetaOf(source, location, title)) == title <==> title != "" || TitleOf(MetaOf(source, location, "")) == ""
  {
    hide TitleOf;
    TitlesSurvive(meta, source, location);
  }

  lemma NoTruthyLabel(meta: Meta)
    requires forall k | k in meta :: !meta[k].Counts()
    ensures FirstTruthy(meta, ["source_label", "filename", "title", "source", "url"]) == "Source"
  {
    var keys := ["source_label", "filename", "title", "source", "url"];
    NothingTruthy(meta, keys);
  }

  lemma {:induction false} NothingTruthy(meta: Meta, keys: seq<string>)
    requires forall k | k in meta :: !meta[k].Counts()
    ensures FirstTruthy(meta, keys) == "Source"
  {
    if keys != [] {
      NothingTruthy(meta, keys[1..]);
    }
  }

  // ----- what a title says

  /** The first of the five names that counts is the title; a path is cut down to its last component. */
  lemma TitleIsTheFirstName(meta: Meta, i: nat)
    requires i <= 5
    requires forall k | 0 <= k < i :: !GivesAway(meta, ["source_label", "filename", "title", "source", "url"][k])
    requires i < 5 ==> GivesAway(meta, ["source_label", "filename", "title", "source", "url"][i])
    ensures var name := if i == 5 then "Source"
                        else meta[["source_label", "filename", "title", "source", "url"][i]].text;
      var title := if (|name| >= 1 && name[..1] == "/") || (|name| >= 5 && name[..5] == "file:") then PathName(name)
                   else name;
      TitleOf(meta) == title[..if |title| <= 300 then |title| else 300]
  {
    hide PathName;
    FirstTruthyAt(meta, ["source_label", "filename", "title", "source", "url"], i);
  }

  lemma {:induction false} FirstTruthyAt(meta: Meta, keys: seq<string>, i: nat)
    requires i <= |keys| && forall k | 0 <= k < i :: !GivesAway(meta, keys[k])
    requires i < |keys| ==> GivesAway(meta, keys[i])
    ensures FirstTruthy(meta, keys) == if i == |keys| then "Source" else meta[keys[i]].text
  {
    if i > 0 {
      assert !GivesAway(meta, keys[0]);
      FirstTruthyAt(meta, keys[1..], i - 1);
    }
  }

  /** The last component of a path is its name, whatever stands before it; slashes behind it do not matter. */
  lemma NameOfPath(front: string, name: string)
    requires NoSlash(name) && name != "" && name != "."
    ensures PathName(front + "/" + name) == name
    ensures PathName(front + "/" + name + "/") == name
    ensures PathName(name) == name
  {
    var last := ReadOver(front, name, "", "");
    NameComesLast(name, "", last);
    last := ReadOver(front, name + "/", "", "");
    assert front + "/" + name + "/" == front + "/" + (name + "/");
    NameComesLast(name, "", last);
    NameComesLast(name, "", "");
    assert "" + name == name;
  }

  lemma {:induction false} ReadOver(front: string, rest: string, current: string, last: string) returns (final: string)
    ensures Component(front + "/" + rest, current, last) == Component(rest, "", final)
    decreases |front|
  {
    var path := front + "/" + rest;
    var done := if current == "" || current == "." then last else current;
    if front == "" {
      final := done;
      assert path[1..] == rest;
    } else {
      assert path[1..] == front[1..] + "/" + rest;
      if front[0] == '/' {
        final := ReadOver(front[1..], rest, "", done);
      } else {
        final := ReadOver(front[1..], rest, current + [front[0]], last);
      }
    }
  }

  lemma {:induction false} NameComesLast(name: string, current: string, last: string)
    requires NoSlash(name) && current + name != "" && current + name != "."
    ensures Component(name, current, last) == current + name
    ensures Component(name + "/", current, last) == current + name
    decreases |name|
  {
    if name == "" {
      assert current + name == current;
      assert (name + "/")[1..] == "" && (name + "/")[0] == '/';
    } else {
      assert name[0] in name;
      assert (name + "/")[1..] == name[1..] + "/";
      assert current + [name[0]] + name[1..] == current + name;
      NameComesLast(name[1..], current + [name[0]], last);
    }
  }

  // ----- the registry object

  /** The ids that have a record, in order. */
  function Listed(ids: seq<Identity>, known: seq<Identity>): seq<Identity> {
    if ids == [] then []
    else
      var last := ids[|ids| - 1];
      Listed(ids[..|ids| - 1], known) + if last in known then [last] else []
  }

  lemma {:induction false} ListedJoins(ids: seq<Identity>, more: seq<Identity>, known: seq<Identity>)
    ensures Listed(ids + more, known) == Listed(ids, known) + Listed(more, known)
    decreases |more|
  {
    if more == [] {
      assert ids + more == ids;
    } else {
      var n := |more| - 1;
      ListedJoins(ids, more[..n], known);
      assert (ids + more)[..|ids| + n] == ids + more[..n];
    }
  }

  lemma {:induction false} ListedIff(ids: seq<Identity>, known: seq<Identity>, id: Identity)
    ensures id in Listed(ids, known) <==> id in ids && id in known
  {
    if ids != [] {
      var n := |ids| - 1;
      ListedIff(ids[..n], known, id);
      assert id in ids <==> id in ids[..n] || id == ids[n];
    }
  }

  lemma {:induction false} AllListed(ids: seq<Identity>, known: seq<Identity>)
    requires forall id | id in ids :: id in known
    ensures Listed(ids, known) == ids
  {
    if ids != [] {
      AllListed(ids[..|ids| - 1], known);
    }
  }

  /** Exactly the known ids are listed, as often and in the order in which they stand. */
  lemma ListedInOrder(ids: seq<Identity>, more: seq<Identity>, known: seq<Identity>)
    ensures forall id :: id in Listed(ids, known) <==> id in ids && id in known
    ensures (forall id | id in ids :: id in known) ==> Listed(ids, known) == ids
    ensures Listed(ids + more, known) == Listed(ids, known) + Listed(more, known)
  {
    hide Listed;
    ListedJoins(ids, more, known);
    forall id ensures id in Listed(ids, known) <==> id in ids && id in known {
      ListedIff(ids, known, id);
    }
    if forall id | id in ids :: id in known {
      AllListed(ids, known);
    }
  }

  class EvidenceRegistry {
    const session: string
    var records: seq<Record>
    var active: seq<Identity>

    function View(): Registry
      reads this
    {
      Registry(session, records, active)
    }

    constructor (session: string, history: seq<Stored>)
      ensures View() == Restored(session, history)
      ensures Valid(View())
    {
      this.session := session;
      records, active := [], [];
      new;
      assert history[0..] == history;
      for i := 0 to |history|
        invariant RestoredAll(Registry(session, [], []), history) == RestoredAll(View(), history[i..])
      {
        var s := history[i];
        ghost var before := View();
        assert history[i..][1..] == history[i + 1..];
        if s.Malformed? {
          continue;
        }
        var previous := Ids(records);
        var restored := Register(s.quote, MetaOf(s.source, s.location, s.title), s.kind);
        if restored.Some? && Some(restored.value) != s.id && restored.value !in previous {
          records := Removed(records, restored.value);
        }
        assert View() == RestoredOne(before, s);
      }
      var ids := Ids(records);
      active := if |ids| > RESTORED_ACTIVE then ids[|ids| - RESTORED_ACTIVE..] else ids;
      AnyHistoryRestoresValid(session, history);
    }

    method Register(text: string, meta: Meta, kind: string) returns (registered: Option<Identity>)
      modifies this
      ensures View() == Registered(old(View()), text, meta, kind)
      ensures registered == if Refused(text, kind) then None else Some(IdentityOf(session, text, meta, kind))
    {
      var quote := Quoted(text);
      if Blank(quote) && kind != "image" {
        return None;
      }
      var source := Only(meta, SOURCE_KEYS);
      var location := Only(meta, LOCATION_KEYS);
      var id := Identity(session, KindOf(kind, source), FormsOf(source), FormsOf(location), quote);
      active := Without(active, id);
      active := active + [id];
      if |active| > MAX_ACTIVE {
        active := active[1..];
      }
      registered := Some(id);
      if id in Ids(records) {
        return;
      }
      if |records| >= MAX_EVIDENCE {
        records := records[1..];
      }
      records := records + [Record(id, id.kind, TitleOf(meta), quote, source, location)];
    }

    /** The records of the active ids, in that order; an id may be active although its record was dropped. */
    method LiveRecords() returns (live: seq<Record>)
      requires Valid(View())
      ensures Ids(live) == Listed(active, Ids(records))
      ensures forall e | e in live :: e in records
    {
      live := [];
      for i := 0 to |active|
        invariant Ids(live) == Listed(active[..i], Ids(records))
        invariant forall e | e in live :: e in records
      {
        assert active[..i + 1][..i] == active[..i];
        var found := Find(active[i]);
        FoundIffListed(records, active[i]);
        if found.Some? {
          assert Ids(live + [found.value]) == Ids(live) + [found.value.id];
          live := live + [found.value];
        }
      }
      assert active[..|active|] == active;
    }

    method Find(id: Identity) returns (found: Option<Record>)
      ensures found.Some? ==> found.value in records && found.value.id == id
      ensures found.None? ==> forall e | e in records :: e.id != id
    {
      for i := 0 to |records|
        invariant forall k | 0 <= k < i :: records[k].id != id
      {
        if records[i].id == id {
          return Some(records[i]);
        }
      }
      return None;
    }

    method Include(history: seq<Stored>)
      requires Valid(View())
      modifies this
      ensures View() == Included(old(View()), history)
      ensures Valid(View())
    {
      var restored := new EvidenceRegistry(session, history);
      var trusted := restored.records;
      ghost var before := View();
      assert trusted[0..] == trusted;
      for i := 0 to |trusted|
        invariant Valid(View())
        invariant Reregistered(before, trusted) == Reregistered(View(), trusted[i..])
      {
        var e := trusted[i];
        assert trusted[i..][1..] == trusted[i + 1..];
        RegisteredIsValid(View(), e.quote, MetaOf(e.source, e.location, e.title), e.kind);
        var _ := Register(e.quote, MetaOf(e.source, e.location, e.title), e.kind);
      }
    }

    /** The records cited, in order; in strict mode nothing if an id is unknown. */
    method Used(ids: seq<Identity>, strict: bool) returns (used: Option<seq<Record>>)
      ensures used.None? <==> strict && exists id :: id in ids && id !in Ids(records)
      ensures used.Some? ==> Ids(used.value) == Listed(ids, Ids(records)) && forall e | e in used.value :: e in records
    {
      var found: seq<Record> := [];
      var missing := false;
      for i := 0 to |ids|
        invariant missing <==> exists id :: id in ids[..i] && id !in Ids(records)
        invariant Ids(found) == Listed(ids[..i], Ids(records))
        invariant forall e | e in found :: e in records
      {
        assert ids[..i + 1] == ids[..i] + [ids[i]] && ids[..i + 1][..i] == ids[..i];
        var record := Find(ids[i]);
        FoundIffListed(records, ids[i]);
        if record.Some? {
          assert Ids(found + [record.value]) == Ids(found) + [record.value.id];
          found := found + [record.value];
        } else {
          missing := true;
        }
      }
      assert ids[..|ids|] == ids;
      return if strict && missing then None else Some(found);
    }
  }

  lemma FoundIffListed(records: seq<Record>, id: Identity)
    ensures id in Ids(records) <==> exists e :: e in records && e.id == id
  {
    if id in Ids(records) {
      var i :| 0 <= i < |Ids(records)| && Ids(records)[i] == id;
      assert records[i] in records;
    }
    forall e | e in records && e.id == id ensures id in Ids(records) {
      var i :| 0 <= i < |records| && records[i] == e;
      assert Ids(records)[i] == id;
    }
  }
}
