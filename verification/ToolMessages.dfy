/**
  Rewriting the outgoing message list into the form strict providers accept:
  superseded transcript lookups lose their bodies, and every tool call gets an answer.
 */
module ToolMessages {
  import opened Wrappers

  type Id = string

  datatype Role = System | User | Assistant | Tool | Other(name: string)

  /** What the two passes read from a message body: a tool result is a stub, a JSON object
      with a stripped `context`, or some other text. */
  datatype Body = Blank | Superseded | Unavailable | Text(text: string) | Payload(context: string, rest: string)

  /** An entry of `tool_calls`; entries that are not objects are skipped. */
  datatype Call = NotACall | Call(id: Id, name: string)

  /** `callId` is "" where the message has none; `bookkeeping` holds the private keys. */
  datatype Message = Message(role: Role, body: Body, calls: seq<Call>, callId: Id, bookkeeping: map<string, string>)

  const LOOKUP: string := "lookup_meeting_transcript"

  // ----- collapsing superseded lookups

  /** Control payloads (no context) are not excerpts; text that is no JSON object is. */
  predicate HasExcerpts(body: Body) {
    match body
    case Blank => false
    case Superseded => false
    case Unavailable => true
    case Text(_) => true
    case Payload(context, _) => context != ""
  }

  function LastUser(ms: seq<Message>): (r: int)
    ensures -1 <= r < |ms|
  {
    if ms == [] then -1
    else if ms[|ms| - 1].role.User? then |ms| - 1
    else LastUser(ms[..|ms| - 1])
  }

  /** The current turn: everything after the last user message. */
  function Turn(ms: seq<Message>): seq<Message> {
    ms[LastUser(ms) + 1..]
  }

  predicate IsLookup(call: Call) {
    call.Call? && call.name == LOOKUP && call.id != ""
  }

  function LookupsAmong(calls: seq<Call>): seq<Id> {
    if calls == [] then []
    else (if IsLookup(calls[0]) then [calls[0].id] else [])
         + LookupsAmong(calls[1..])
  }

  function Lookups(ms: seq<Message>): seq<Id> {
    if ms == [] then []
    else (if ms[0].role.Assistant? then LookupsAmong(ms[0].calls) else []) + Lookups(ms[1..])
  }

  predicate Answers(m: Message, id: Id) {
    m.role.Tool? && m.callId == id
  }

  /** The last answer to a call. */
  function AnswerTo(ms: seq<Message>, id: Id): Body {
    if ms == [] then Blank
    else if Answers(ms[|ms| - 1], id) then ms[|ms| - 1].body
    else AnswerTo(ms[..|ms| - 1], id)
  }

  /** The latest lookup answered with excerpts, or else the latest lookup. */
  function Latest(ids: seq<Id>, ms: seq<Message>): Option<Id> {
    if ids == [] then None
    else if HasExcerpts(AnswerTo(ms, ids[|ids| - 1])) then Some(ids[|ids| - 1])
    else Latest(ids[..|ids| - 1], ms)
  }

  function Keep(ids: seq<Id>, ms: seq<Message>): Id
    requires ids != []
  {
    var latest := Latest(ids, ms);
    if latest.Some? then latest.value else ids[|ids| - 1]
  }

  predicate Dropped(m: Message, ids: seq<Id>, keep: Id) {
    m.role.Tool? && m.callId in ids && m.callId != keep && HasExcerpts(m.body)
  }

  function Shown(m: Message, ids: seq<Id>, keep: Id): Message {
    if Dropped(m, ids, keep) then m.(body := Superseded) else m
  }

  function Collapsed(ms: seq<Message>): (r: seq<Message>)
    ensures |r| == |ms|
  {
    var ids := Lookups(Turn(ms));
    if LastUser(ms) < 0 || |ids| < 2 then ms
    else
      var keep := Keep(ids, Turn(ms));
      seq(|ms|, i requires 0 <= i < |ms| => Shown(ms[i], ids, keep))
  }

  method FindLastUser(messages: seq<Message>) returns (lastUser: int)
    ensures lastUser == LastUser(messages)
  {
    lastUser := -1;
    for i := 0 to |messages|
      invariant lastUser == LastUser(messages[..i])
    {
      assert messages[..i + 1][..i] == messages[..i];
      if messages[i].role.User? {
        lastUser := i;
      }
    }
    assert messages[..|messages|] == messages;
  }

  lemma {:induction false} LookupsAmongAppend(a: seq<Call>, c: Call)
    ensures LookupsAmong(a + [c])
         == LookupsAmong(a) + (if IsLookup(c) then [c.id] else [])
  {
    hide IsLookup;
    if a == [] {
      assert a + [c] == [c] && [c][1..] == [];
    } else {
      LookupsAmongAppend(a[1..], c);
      assert (a + [c])[1..] == a[1..] + [c];
    }
  }

  function LookupsOf(m: Message): seq<Id> {
    if m.role.Assistant? then LookupsAmong(m.calls) else []
  }

  lemma LookupsFirst(m: Message, rest: seq<Message>)
    ensures Lookups([m] + rest) == LookupsOf(m) + Lookups(rest)
    ensures Lookups([]) == []
  {
    hide LookupsAmong;
    assert ([m] + rest)[1..] == rest;
  }

  lemma {:induction false} LookupsAppend(a: seq<Message>, m: Message)
    ensures Lookups(a + [m]) == Lookups(a) + (if m.role.Assistant? then LookupsAmong(m.calls) else [])
  {
    hide Lookups, LookupsAmong;
    if a == [] {
      LookupsFirst(m, []);
      assert a + [m] == [m] + [];
    } else {
      LookupsAppend(a[1..], m);
      LookupsFirst(a[0], a[1..] + [m]);
      LookupsFirst(a[0], a[1..]);
      assert a + [m] == [a[0]] + (a[1..] + [m]) && a == [a[0]] + a[1..];
    }
  }

  lemma NoLookups()
    ensures Lookups([]) == [] && LookupsAmong([]) == []
  {
  }

  method CollectLookups(turn: seq<Message>) returns (ids: seq<Id>)
    ensures ids == Lookups(turn)
  {
    hide Lookups, LookupsAmong;
    ids := [];
    NoLookups();
    for i := 0 to |turn|
      invariant ids == Lookups(turn[..i])
    {
      var m := turn[i];
      LookupsAppend(turn[..i], m);
      assert turn[..i + 1] == turn[..i] + [m];
      if !m.role.Assistant? {
        continue;
      }
      ghost var earlier := ids;
      assert m.calls[..0] == [] && turn[..0] == [];
      for j := 0 to |m.calls|
        invariant ids == earlier + LookupsAmong(m.calls[..j])
      {
        var call := m.calls[j];
        LookupsAmongAppend(m.calls[..j], call);
        assert m.calls[..j + 1] == m.calls[..j] + [call];
        if call.NotACall? || call.name != LOOKUP {
          continue;
        }
        if call.id != "" {
          ids := ids + [call.id];
        }
      }
      assert m.calls[..|m.calls|] == m.calls;
    }
    assert turn[..|turn|] == turn;
  }

  /** The table from lookup id to its last answer. */
  method CollectAnswers(turn: seq<Message>, ids: seq<Id>) returns (answers: map<Id, Body>)
    ensures forall id | id in ids :: (if id in answers then answers[id] else Blank) == AnswerTo(turn, id)
  {
    answers := map[];
    for i := 0 to |turn|
      invariant forall id | id in ids :: (if id in answers then answers[id] else Blank) == AnswerTo(turn[..i], id)
    {
      var m := turn[i];
      assert turn[..i + 1][..i] == turn[..i];
      if m.role.Tool? && m.callId in ids {
        answers := answers[m.callId := m.body];
      }
    }
    assert turn[..|turn|] == turn;
  }

  method FindKeep(ids: seq<Id>, answers: map<Id, Body>, ghost turn: seq<Message>) returns (keep: Id)
    requires ids != []
    requires forall id | id in ids :: (if id in answers then answers[id] else Blank) == AnswerTo(turn, id)
    ensures keep == Keep(ids, turn)
  {
    hide AnswerTo;
    keep := ids[|ids| - 1];
    var n := |ids|;
    assert ids[..|ids|] == ids;
    while n > 0
      invariant 0 <= n <= |ids|
      invariant Latest(ids[..n], turn) == Latest(ids, turn)
    {
      assert ids[..n][..n - 1] == ids[..n - 1];
      n := n - 1;
      if HasExcerpts(if ids[n] in answers then answers[ids[n]] else Blank) {
        return ids[n];
      }
    }
  }

  method Collapse(messages: seq<Message>) returns (out: seq<Message>)
    ensures out == Collapsed(messages)
  {
    hide Lookups, LastUser, Keep;
    var lastUser := FindLastUser(messages);
    if lastUser < 0 {
      return messages;
    }
    var turn := messages[lastUser + 1..];
    var ids := CollectLookups(turn);
    if |ids| < 2 {
      return messages;
    }
    var answers := CollectAnswers(turn, ids);
    var keep := FindKeep(ids, answers, turn);
    out := [];
    for i := 0 to |messages|
      invariant |out| == i
      invariant forall k | 0 <= k < i :: out[k] == Shown(messages[k], ids, keep)
    {
      var m := messages[i];
      if m.role.Tool? && m.callId in ids && m.callId != keep {
        if !HasExcerpts(m.body) {
          out := out + [m];
          continue;
        }
        out := out + [m.(body := Superseded)];
      } else {
        out := out + [m];
      }
    }
  }

  /** Only bodies change: each message is as it was, or an answer to a lookup of this turn that lost its excerpts. */
  lemma CollapseChangesBodiesOnly(ms: seq<Message>, i: nat)
    requires i < |ms|
    ensures Collapsed(ms)[i] == ms[i].(body := Collapsed(ms)[i].body)
    ensures Collapsed(ms)[i] != ms[i] ==>
      && ms[i].role.Tool? && ms[i].callId in Lookups(Turn(ms))
      && HasExcerpts(ms[i].body) && Collapsed(ms)[i].body == Superseded
  {
  }

  lemma {:induction false} LatestIsLatest(ids: seq<Id>, ms: seq<Message>)
    ensures Latest(ids, ms).None? ==> forall id | id in ids :: !HasExcerpts(AnswerTo(ms, id))
    ensures Latest(ids, ms).Some? ==> exists k | 0 <= k < |ids| ::
      && ids[k] == Latest(ids, ms).value
      && HasExcerpts(AnswerTo(ms, ids[k]))
      && forall j | k < j < |ids| :: !HasExcerpts(AnswerTo(ms, ids[j]))
  {
    if ids != [] {
      var last := |ids| - 1;
      if !HasExcerpts(AnswerTo(ms, ids[last])) {
        LatestIsLatest(ids[..last], ms);
        if Latest(ids[..last], ms).Some? {
          var k :| 0 <= k < last && ids[..last][k] == Latest(ids, ms).value
                   && HasExcerpts(AnswerTo(ms, ids[..last][k]))
                   && forall j | k < j < last :: !HasExcerpts(AnswerTo(ms, ids[..last][j]));
          assert ids[k] == Latest(ids, ms).value;
          forall j | k < j < |ids| ensures !HasExcerpts(AnswerTo(ms, ids[j])) {
            assert j < last ==> ids[..last][j] == ids[j];
          }
        }
      } else {
        assert ids[last] == Latest(ids, ms).value;
      }
    }
  }

  lemma KeepTheOnly(ids: seq<Id>, ms: seq<Message>)
    requires |ids| == 1
    ensures Keep(ids, ms) == ids[0]
  {
    assert Latest(ids[..0], ms) == None;
  }

  /** After the pass at most one lookup of the turn still shows excerpts. */
  lemma OneLookupRemains(ms: seq<Message>, i: nat)
    requires i < |ms| && LastUser(ms) >= 0
    requires Collapsed(ms)[i].role.Tool? && Collapsed(ms)[i].callId in Lookups(Turn(ms))
    requires HasExcerpts(Collapsed(ms)[i].body)
    ensures Collapsed(ms)[i].callId == Keep(Lookups(Turn(ms)), Turn(ms))
  {
    hide Lookups, LastUser, Keep, Turn, Collapsed;
    var ids := Lookups(Turn(ms));
    CollapsedAt(ms, i);
    if |ids| < 2 {
      KeepTheOnly(ids, Turn(ms));
    }
  }

  /** The answer to a lookup of the turn that shows excerpts. */
  predicate ShowsExcerpts(m: Message, ids: seq<Id>) {
    m.role.Tool? && m.callId in ids && HasExcerpts(m.body)
  }

  /** What is left is exactly the kept lookup's answers with excerpts: at most one body if and only if
      the kept lookup was answered with excerpts at most once. */
  lemma OneBodyRemains(ms: seq<Message>)
    requires LastUser(ms) >= 0 && Lookups(Turn(ms)) != []
    ensures var out, ids := Collapsed(ms), Lookups(Turn(ms)); var keep := Keep(ids, Turn(ms));
      && (forall i | 0 <= i < |ms| :: ShowsExcerpts(out[i], ids) <==> Answers(ms[i], keep) && HasExcerpts(ms[i].body))
      && ((forall i, j | 0 <= i < j < |ms| :: !ShowsExcerpts(out[i], ids) || !ShowsExcerpts(out[j], ids))
          <==> forall i, j | 0 <= i < j < |ms| :: !KeptBody(ms[i], keep) || !KeptBody(ms[j], keep))
  {
    hide Lookups, LastUser, Turn, Collapsed, Latest;
    var ids := Lookups(Turn(ms));
    forall i | 0 <= i < |ms|
      ensures ShowsExcerpts(Collapsed(ms)[i], ids) <==> KeptBody(ms[i], Keep(ids, Turn(ms)))
    {
      CollapsedAt(ms, i);
      KeepIsAsked(ids, Turn(ms));
      if |ids| < 2 {
        KeepTheOnly(ids, Turn(ms));
      }
    }
  }

  predicate KeptBody(m: Message, keep: Id) {
    Answers(m, keep) && HasExcerpts(m.body)
  }

  lemma KeepIsAsked(ids: seq<Id>, ms: seq<Message>)
    requires ids != []
    ensures Keep(ids, ms) in ids
  {
    LatestIsLatest(ids, ms);
  }

  lemma CollapsedAt(ms: seq<Message>, i: nat)
    requires i < |ms| && LastUser(ms) >= 0
    ensures var ids := Lookups(Turn(ms));
      Collapsed(ms)[i] == if |ids| < 2 then ms[i] else Shown(ms[i], ids, Keep(ids, Turn(ms)))
  {
    hide Lookups, LastUser, Keep, Turn;
  }

  /** ... and that one is the latest lookup that was answered with excerpts, whose answers are untouched. */
  lemma LatestLookupIsKept(ms: seq<Message>, i: nat, id: Id)
    requires i < |ms| && LastUser(ms) >= 0
    requires id in Lookups(Turn(ms)) && HasExcerpts(AnswerTo(Turn(ms), id))
    ensures var ids := Lookups(Turn(ms)); var keep := Keep(ids, Turn(ms));
      && HasExcerpts(AnswerTo(Turn(ms), keep))
      && (Answers(ms[i], keep) ==> Collapsed(ms)[i] == ms[i])
      && exists k | 0 <= k < |ids| ::
        ids[k] == keep && forall j | k < j < |ids| :: !HasExcerpts(AnswerTo(Turn(ms), ids[j]))
  {
    LatestIsLatest(Lookups(Turn(ms)), Turn(ms));
  }

  // ----- the same in plain terms

  /** The last user message, if there is one. */
  lemma {:induction false} LastUserIsLast(ms: seq<Message>)
    ensures LastUser(ms) >= 0 ==> ms[LastUser(ms)].role == User
    ensures forall i | LastUser(ms) < i < |ms| :: ms[i].role != User
  {
    if ms != [] && !ms[|ms| - 1].role.User? {
      LastUserIsLast(ms[..|ms| - 1]);
      assert forall i | 0 <= i < |ms| - 1 :: ms[..|ms| - 1][i] == ms[i];
    }
  }

  /** Some assistant message asks for this lookup. */
  predicate AsksFor(m: Message, id: Id) {
    m.role == Assistant && id != "" && Call(id, "lookup_meeting_transcript") in m.calls
  }

  lemma {:induction false} AmongIffAsked(calls: seq<Call>, id: Id)
    ensures id in LookupsAmong(calls) <==> id != "" && Call(id, "lookup_meeting_transcript") in calls
  {
    if calls != [] {
      AmongIffAsked(calls[1..], id);
    }
  }

  lemma {:induction false} LookupIffAsked(ms: seq<Message>, id: Id)
    ensures id in Lookups(ms) <==> exists i | 0 <= i < |ms| :: AsksFor(ms[i], id)
  {
    hide LookupsAmong;
    if ms != [] {
      LookupIffAsked(ms[1..], id);
      AmongIffAsked(ms[0].calls, id);
      if exists i | 0 <= i < |ms[1..]| :: AsksFor(ms[1..][i], id) {
        var i :| 0 <= i < |ms[1..]| && AsksFor(ms[1..][i], id);
        assert AsksFor(ms[i + 1], id);
      }
      if exists i | 0 < i < |ms| :: AsksFor(ms[i], id) {
        var i :| 0 < i < |ms| && AsksFor(ms[i], id);
        assert AsksFor(ms[1..][i - 1], id);
      }
    }
  }

  /** The body of the last tool message with this id, and nothing if there is none. */
  lemma {:induction false} AnswerIsTheLast(ms: seq<Message>, id: Id)
    ensures (forall i | 0 <= i < |ms| :: !(ms[i].role == Tool && ms[i].callId == id)) ==> AnswerTo(ms, id) == Blank
    ensures forall k | 0 <= k < |ms| && ms[k].role == Tool && ms[k].callId == id
                       && (forall i | k < i < |ms| :: !(ms[i].role == Tool && ms[i].callId == id)) ::
              AnswerTo(ms, id) == ms[k].body
  {
    if ms != [] {
      var front := ms[..|ms| - 1];
      AnswerIsTheLast(front, id);
      assert forall i | 0 <= i < |front| :: front[i] == ms[i];
    }
  }

  /** A stop signal: no answer, a body already put aside, or a payload without context. */
  predicate IsControl(body: Body) {
    body == Blank || body == Superseded || (body.Payload? && body.context == "")
  }

  /** The lookup at place j is the latest whose last answer is no stop signal, or the very latest if all are. */
  predicate LatestToSay(ids: seq<Id>, turn: seq<Message>, j: nat) {
    && j < |ids|
    && (forall k | j < k < |ids| :: IsControl(AnswerTo(turn, ids[k])))
    && (!IsControl(AnswerTo(turn, ids[j]))
        || (j == |ids| - 1 && forall k | 0 <= k < |ids| :: IsControl(AnswerTo(turn, ids[k]))))
  }

  lemma KeepIsLatestToSay(ids: seq<Id>, turn: seq<Message>, j: nat)
    requires LatestToSay(ids, turn, j)
    ensures Keep(ids, turn) == ids[j]
  {
    hide AnswerTo;
    LatestIsLatest(ids, turn);
    if Latest(ids, turn).Some? {
      var k :| 0 <= k < |ids| && ids[k] == Latest(ids, turn).value && HasExcerpts(AnswerTo(turn, ids[k]))
               && forall i | k < i < |ids| :: !HasExcerpts(AnswerTo(turn, ids[i]));
      assert k == j;
    }
  }

  /**
    With two lookups or more in a turn, the latest that says something is kept
    as it is. The other lookups' answers become stubs, except for stop signals,
    which are never changed; nor is any other message.
   */
  lemma CollapseInPlainTerms(ms: seq<Message>, turn: seq<Message>, j: nat, i: nat)
    requires LastUser(ms) >= 0 && turn == ms[LastUser(ms) + 1..]
    requires |Lookups(turn)| >= 2 && LatestToSay(Lookups(turn), turn, j)
    requires i < |ms|
    ensures var ids := Lookups(turn);
      Collapsed(ms)[i] ==
        if ms[i].role == Tool && ms[i].callId in ids && ms[i].callId != ids[j] && !IsControl(ms[i].body)
        then ms[i].(body := Superseded)
        else ms[i]
  {
    hide Lookups, LastUser, Keep, Collapsed;
    KeepIsLatestToSay(Lookups(turn), turn, j);
    CollapsedAt(ms, i);
  }

  /** With fewer lookups, or without a user message, nothing changes. */
  lemma NothingToCollapse(ms: seq<Message>)
    requires LastUser(ms) < 0 || |Lookups(ms[LastUser(ms) + 1..])| < 2
    ensures Collapsed(ms) == ms
  {
  }

  // ----- collapsing twice

  lemma {:induction false} SameLastUser(a: seq<Message>, b: seq<Message>)
    requires |a| == |b| && forall i | 0 <= i < |a| :: a[i].role == b[i].role
    ensures LastUser(a) == LastUser(b)
  {
    if a != [] && !a[|a| - 1].role.User? {
      SameLastUser(a[..|a| - 1], b[..|b| - 1]);
    }
  }

  lemma {:induction false} SameLookups(a: seq<Message>, b: seq<Message>)
    requires |a| == |b| && forall i | 0 <= i < |a| :: a[i].role == b[i].role && a[i].calls == b[i].calls
    ensures Lookups(a) == Lookups(b)
  {
    if a != [] {
      SameLookups(a[1..], b[1..]);
    }
  }

  lemma {:induction false} AnswerAfterCollapse(a: seq<Message>, b: seq<Message>, ids: seq<Id>, keep: Id, id: Id)
    requires |a| == |b| && forall i | 0 <= i < |a| :: b[i] == Shown(a[i], ids, keep)
    requires id in ids
    ensures AnswerTo(b, id) == if id != keep && HasExcerpts(AnswerTo(a, id)) then Superseded else AnswerTo(a, id)
  {
    if a != [] && !Answers(a[|a| - 1], id) {
      AnswerAfterCollapse(a[..|a| - 1], b[..|b| - 1], ids, keep, id);
    }
  }

  /** Losing the excerpts of everything but the latest does not change which one is the latest. */
  lemma {:induction false} LatestAfterCollapse(ids: seq<Id>, all: seq<Id>, a: seq<Message>, b: seq<Message>, keep: Id)
    requires |a| == |b| && forall i | 0 <= i < |a| :: b[i] == Shown(a[i], all, keep)
    requires forall id | id in ids :: id in all
    requires Latest(ids, a).Some? ==> keep == Latest(ids, a).value
    ensures Latest(ids, b) == Latest(ids, a)
  {
    if ids != [] {
      var last := ids[|ids| - 1];
      AnswerAfterCollapse(a, b, all, keep, last);
      if !HasExcerpts(AnswerTo(a, last)) {
        LatestAfterCollapse(ids[..|ids| - 1], all, a, b, keep);
      }
    }
  }

  lemma CollapseIsIdempotent(ms: seq<Message>)
    ensures Collapsed(Collapsed(ms)) == Collapsed(ms)
  {
    hide Lookups, LastUser, Latest;
    var out := Collapsed(ms);
    SameLastUser(ms, out);
    SameLookups(Turn(ms), Turn(out));
    var ids := Lookups(Turn(ms));
    if LastUser(ms) >= 0 && |ids| >= 2 {
      LatestAfterCollapse(ids, ids, Turn(ms), Turn(out), Keep(ids, Turn(ms)));
      assert Collapsed(out) == out;
    }
  }

  // ----- answering every call

  /** A message with nothing but the keys the provider knows. */
  function Projected(m: Message): Message {
    m.(bookkeeping := map[])
  }

  function ProjectedAll(ms: seq<Message>): seq<Message> {
    if ms == [] then [] else [Projected(ms[0])] + ProjectedAll(ms[1..])
  }

  /** Role, body, calls and answered call stay; the private keys go. */
  lemma {:induction false} ProjectedAt(ms: seq<Message>, i: nat)
    requires i < |ms|
    ensures |ProjectedAll(ms)| == |ms|
    ensures ProjectedAll(ms)[i] == Message(ms[i].role, ms[i].body, ms[i].calls, ms[i].callId, map[])
    decreases |ms|
  {
    if i > 0 {
      ProjectedAt(ms[1..], i - 1);
    } else if |ms| > 1 {
      ProjectedAt(ms[1..], 0);
    }
  }

  function CallIds(calls: seq<Call>): seq<Id> {
    if calls == [] then []
    else (if calls[0].Call? && calls[0].id != "" then [calls[0].id] else []) + CallIds(calls[1..])
  }

  /** list.remove: the first occurrence goes. */
  function Without(pending: seq<Id>, id: Id): seq<Id> {
    if pending == [] then []
    else if pending[0] == id then pending[1..]
    else [pending[0]] + Without(pending[1..], id)
  }

  /** An outgoing message: one that was there before, or the answer made up for a call. */
  datatype Entry = Kept(message: Message) | Stub(id: Id) {
    function Outgoing(): Message {
      if Kept? then message else Message(Tool, Unavailable, [], id, map[])
    }
  }

  function Stubs(pending: seq<Id>): seq<Entry> {
    if pending == [] then [] else [Stub(pending[0])] + Stubs(pending[1..])
  }

  /** `pending` holds the ids the current assistant message still waits for. */
  function Repaired(ms: seq<Message>, pending: seq<Id>): seq<Entry>
    decreases |ms|
  {
    if ms == [] then Stubs(pending)
    else if ms[0].role.Tool? then [Kept(Projected(ms[0]))] + Repaired(ms[1..], Without(pending, ms[0].callId))
    else Stubs(pending) + [Kept(Projected(ms[0]))]
         + Repaired(ms[1..], if ms[0].role.Assistant? then CallIds(ms[0].calls) else [])
  }

  function Sent(entries: seq<Entry>): seq<Message> {
    if entries == [] then [] else [entries[0].Outgoing()] + Sent(entries[1..])
  }

  function Sanitized(ms: seq<Message>): seq<Message> {
    Sent(Repaired(ms, []))
  }

  /** Every entry is sent: what was there as it is, and a missing answer as a tool message that says so. */
  lemma {:induction false} SentAt(entries: seq<Entry>, i: nat)
    requires i < |entries|
    ensures |Sent(entries)| == |entries|
    ensures Sent(entries)[i] == match entries[i]
      case Kept(m) => m
      case Stub(id) => Message(Tool, Unavailable, [], id, map[])
    decreases |entries|
  {
    if i > 0 {
      SentAt(entries[1..], i - 1);
    } else if |entries| > 1 {
      SentAt(entries[1..], 0);
    }
  }

  lemma {:induction false} SentAppend(a: seq<Entry>, b: seq<Entry>)
    ensures Sent(a + b) == Sent(a) + Sent(b)
  {
    if a == [] {
      assert a + b == b;
    } else {
      assert (a + b)[1..] == a[1..] + b;
      SentAppend(a[1..], b);
    }
  }

  method FlushStubs(out: seq<Message>, pending: seq<Id>) returns (flushed: seq<Message>)
    ensures flushed == out + Sent(Stubs(pending))
  {
    flushed := out;
    for i := 0 to |pending|
      invariant flushed + Sent(Stubs(pending[i..])) == out + Sent(Stubs(pending))
    {
      assert pending[i..][1..] == pending[i + 1..];
      assert Sent(Stubs(pending[i..])) == [Stub(pending[i]).Outgoing()] + Sent(Stubs(pending[i + 1..]));
      flushed := flushed + [Message(Tool, Unavailable, [], pending[i], map[])];
    }
    assert Sent(Stubs(pending[|pending|..])) == [];
  }

  /** The ids of the calls in order; entries that are no calls, or have no id, are left out. */
  lemma {:induction false} CallIdsAppend(a: seq<Call>, c: Call)
    ensures CallIds([]) == []
    ensures CallIds(a + [c]) == CallIds(a) + (if c.Call? && c.id != "" then [c.id] else [])
  {
    if a == [] {
      assert a + [c] == [c];
    } else {
      CallIdsAppend(a[1..], c);
      assert (a + [c])[1..] == a[1..] + [c];
    }
  }

  method CollectCallIds(calls: seq<Call>) returns (ids: seq<Id>)
    ensures ids == CallIds(calls)
  {
    ids := [];
    for j := 0 to |calls|
      invariant ids == CallIds(calls[..j])
    {
      CallIdsAppend(calls[..j], calls[j]);
      assert calls[..j + 1] == calls[..j] + [calls[j]];
      if calls[j].Call? && calls[j].id != "" {
        ids := ids + [calls[j].id];
      }
    }
    assert calls[..|calls|] == calls;
  }

  lemma SentKept(stubs: seq<Entry>, m: Message, rest: seq<Entry>)
    ensures Sent(stubs + [Kept(m)] + rest) == Sent(stubs) + [m] + Sent(rest)
  {
    SentAppend(stubs + [Kept(m)], rest);
    SentAppend(stubs, [Kept(m)]);
    assert Sent([Kept(m)][1..]) == [];
  }

  method Sanitize(messages: seq<Message>) returns (out: seq<Message>)
    ensures out == Sanitized(messages)
  {
    hide Sent, Stubs, CallIds, Without;
    out := [];
    var pending: seq<Id> := [];
    assert messages[0..] == messages;
    for i := 0 to |messages|
      invariant Sanitized(messages) == out + Sent(Repaired(messages[i..], pending))
    {
      var m := messages[i];
      ghost var owed, before, rest := pending, out, messages[i + 1..];
      assert messages[i..][1..] == rest;
      if m.role.Assistant? {
        out := FlushStubs(out, pending);
        out := out + [Projected(m)];
        pending := CollectCallIds(m.calls);
        SentKept(Stubs(owed), Projected(m), Repaired(rest, pending));
      } else if m.role.Tool? {
        if m.callId in pending {
          pending := Without(pending, m.callId);
        } else {
          WithoutAbsent(pending, m.callId);
        }
        out := out + [Projected(m)];
        SentKept([], Projected(m), Repaired(rest, pending));
        NothingSent();
        assert [] + [Kept(Projected(m))] == [Kept(Projected(m))];
      } else {
        out := FlushStubs(out, pending);
        out := out + [Projected(m)];
        pending := [];
        SentKept(Stubs(owed), Projected(m), Repaired(rest, pending));
      }
    }
    assert messages[|messages|..] == [];
    out := FlushStubs(out, pending);
  }

  lemma {:induction false} WithoutAbsent(pending: seq<Id>, id: Id)
    requires id !in pending
    ensures Without(pending, id) == pending
  {
    if pending != [] {
      WithoutAbsent(pending[1..], id);
    }
  }

  lemma {:induction false} WithoutTakesOne(pending: seq<Id>, id: Id)
    ensures multiset(Without(pending, id)) == multiset(pending) - multiset{id}
  {
    if pending != [] {
      assert pending == [pending[0]] + pending[1..];
      if pending[0] != id {
        WithoutTakesOne(pending[1..], id);
      }
    }
  }

  // ----- what the provider wants

  /** The ids answered by the tool messages at the front. */
  function Run(ms: seq<Message>): multiset<Id> {
    if ms == [] || !ms[0].role.Tool? then multiset{} else multiset{ms[0].callId} + Run(ms[1..])
  }

  function Asked(m: Message): multiset<Id> {
    if m.role.Assistant? then multiset(CallIds(m.calls)) else multiset{}
  }

  /** Every call is answered, with multiplicity, before the next message that is no tool message. */
  predicate AllAnswered(ms: seq<Message>) {
    ms == [] || (Asked(ms[0]) <= Run(ms[1..]) && AllAnswered(ms[1..]))
  }

  /** The answers that are missing. */
  function Deficit(ms: seq<Message>): multiset<Id> {
    if ms == [] then multiset{} else (Asked(ms[0]) - Run(ms[1..])) + Deficit(ms[1..])
  }

  function StubIds(entries: seq<Entry>): multiset<Id> {
    if entries == [] then multiset{}
    else (if entries[0].Stub? then multiset{entries[0].id} else multiset{}) + StubIds(entries[1..])
  }

  function Erased(entries: seq<Entry>): seq<Message> {
    if entries == [] then []
    else (if entries[0].Kept? then [entries[0].message] else []) + Erased(entries[1..])
  }

  lemma {:induction false} StubsAnswer(pending: seq<Id>, rest: seq<Entry>)
    ensures Run(Sent(Stubs(pending) + rest)) == multiset(pending) + Run(Sent(rest))
    ensures AllAnswered(Sent(rest)) ==> AllAnswered(Sent(Stubs(pending) + rest))
  {
    hide Sent, Run, AllAnswered;
    if pending == [] {
      assert Stubs(pending) + rest == rest;
    } else {
      var more := Stubs(pending[1..]) + rest;
      StubsAnswer(pending[1..], rest);
      assert Stubs(pending) + rest == [Stub(pending[0])] + more;
      SentFirst(Stub(pending[0]), more);
      FirstAndRest(pending);
    }
  }

  lemma FirstAndRest(pending: seq<Id>)
    requires pending != []
    ensures multiset(pending) == multiset{pending[0]} + multiset(pending[1..])
  {
    assert pending == [pending[0]] + pending[1..];
  }

  lemma {:induction false} StubsAreMadeUp(pending: seq<Id>, rest: seq<Entry>)
    ensures StubIds(Stubs(pending) + rest) == multiset(pending) + StubIds(rest)
    ensures Erased(Stubs(pending) + rest) == Erased(rest)
  {
    hide StubIds, Erased;
    if pending == [] {
      assert Stubs(pending) + rest == rest;
    } else {
      var more := Stubs(pending[1..]) + rest;
      StubsAreMadeUp(pending[1..], rest);
      assert Stubs(pending) + rest == [Stub(pending[0])] + more;
      StubFirst(pending[0], more);
      FirstAndRest(pending);
    }
  }

  lemma StubFirst(id: Id, rest: seq<Entry>)
    ensures StubIds([Stub(id)] + rest) == multiset{id} + StubIds(rest)
    ensures Erased([Stub(id)] + rest) == Erased(rest)
  {
    assert ([Stub(id)] + rest)[1..] == rest;
  }

  lemma SentFirst(e: Entry, rest: seq<Entry>)
    ensures Sent([e] + rest) == [e.Outgoing()] + Sent(rest)
    ensures Run(Sent([e] + rest))
         == if e.Outgoing().role.Tool? then multiset{e.Outgoing().callId} + Run(Sent(rest)) else multiset{}
    ensures AllAnswered(Sent([e] + rest)) == (Asked(e.Outgoing()) <= Run(Sent(rest)) && AllAnswered(Sent(rest)))
  {
    assert ([e] + rest)[1..] == rest;
    assert Sent([e] + rest)[1..] == Sent(rest);
  }

  lemma KeptFirst(m: Message, rest: seq<Entry>)
    ensures StubIds([Kept(m)] + rest) == StubIds(rest)
    ensures Erased([Kept(m)] + rest) == [m] + Erased(rest)
  {
    assert ([Kept(m)] + rest)[1..] == rest;
  }

  /** One more answer in front. */
  lemma ToolInFront(m: Message, pending: seq<Id>, rest: seq<Entry>)
    requires m.role.Tool?
    requires multiset(Without(pending, m.callId)) <= Run(Sent(rest)) && AllAnswered(Sent(rest))
    ensures multiset(pending) <= Run(Sent([Kept(Projected(m))] + rest))
    ensures AllAnswered(Sent([Kept(Projected(m))] + rest))
  {
    hide Sent, Run, AllAnswered, Without;
    WithoutTakesOne(pending, m.callId);
    SentFirst(Kept(Projected(m)), rest);
  }

  /** Another message in front, before which the answers still owed are made up. */
  lemma OtherInFront(m: Message, pending: seq<Id>, rest: seq<Entry>)
    requires !m.role.Tool? && Asked(m) <= Run(Sent(rest)) && AllAnswered(Sent(rest))
    ensures var all := Stubs(pending) + [Kept(Projected(m))] + rest;
      multiset(pending) <= Run(Sent(all)) && AllAnswered(Sent(all))
  {
    hide Sent, Run, AllAnswered, Stubs, CallIds;
    SentFirst(Kept(Projected(m)), rest);
    StubsAnswer(pending, [Kept(Projected(m))] + rest);
    assert Stubs(pending) + ([Kept(Projected(m))] + rest) == Stubs(pending) + [Kept(Projected(m))] + rest;
  }

  /** After the pass every call is answered. */
  lemma {:induction false} RepairAnswersAll(ms: seq<Message>, pending: seq<Id>)
    ensures multiset(pending) <= Run(Sent(Repaired(ms, pending)))
    ensures AllAnswered(Sent(Repaired(ms, pending)))
    decreases |ms|
  {
    hide Sent, Run, AllAnswered, Stubs, CallIds, Without, Projected;
    if ms == [] {
      StubsAnswer(pending, []);
      NothingSent();
      assert Stubs(pending) + [] == Stubs(pending);
    } else if ms[0].role.Tool? {
      RepairAnswersAll(ms[1..], Without(pending, ms[0].callId));
      ToolInFront(ms[0], pending, Repaired(ms[1..], Without(pending, ms[0].callId)));
    } else {
      var asked := if ms[0].role.Assistant? then CallIds(ms[0].calls) else [];
      RepairAnswersAll(ms[1..], asked);
      OtherInFront(ms[0], pending, Repaired(ms[1..], asked));
    }
  }

  lemma NothingSent()
    ensures Sent([]) == [] && Run([]) == multiset{} && AllAnswered([]) && StubIds([]) == multiset{} && Erased([]) == []
  {
  }

  /** The missing answers, seen from the front of the list. */
  lemma MissingStep(ms: seq<Message>, pending: seq<Id>)
    ensures ms == [] ==> Run(ms) == multiset{} && Deficit(ms) == multiset{}
    ensures ms != [] && ms[0].role.Tool? ==>
      && multiset(pending) - Run(ms) == multiset(pending) - multiset{ms[0].callId} - Run(ms[1..])
      && Deficit(ms) == Deficit(ms[1..])
    ensures ms != [] && !ms[0].role.Tool? ==>
      && multiset(pending) - Run(ms) == multiset(pending)
      && Deficit(ms) == (Asked(ms[0]) - Run(ms[1..])) + Deficit(ms[1..])
  {
  }

  /** ... it adds exactly the missing answers, and loses nothing. */
  lemma {:induction false} RepairAddsWhatIsMissing(ms: seq<Message>, pending: seq<Id>)
    ensures StubIds(Repaired(ms, pending)) == (multiset(pending) - Run(ms)) + Deficit(ms)
    ensures Erased(Repaired(ms, pending)) == ProjectedAll(ms)
    decreases |ms|
  {
    hide StubIds, Erased, Stubs, CallIds, Without, Run, Deficit;
    MissingStep(ms, pending);
    if ms == [] {
      StubsAreMadeUp(pending, []);
      NothingSent();
      assert Stubs(pending) + [] == Stubs(pending);
    } else if ms[0].role.Tool? {
      var rest := Repaired(ms[1..], Without(pending, ms[0].callId));
      RepairAddsWhatIsMissing(ms[1..], Without(pending, ms[0].callId));
      WithoutTakesOne(pending, ms[0].callId);
      KeptFirst(Projected(ms[0]), rest);
    } else {
      var asked := if ms[0].role.Assistant? then CallIds(ms[0].calls) else [];
      var rest := Repaired(ms[1..], asked);
      RepairAddsWhatIsMissing(ms[1..], asked);
      KeptFirst(Projected(ms[0]), rest);
      StubsAreMadeUp(pending, [Kept(Projected(ms[0]))] + rest);
      assert Stubs(pending) + ([Kept(Projected(ms[0]))] + rest) == Repaired(ms, pending);
    }
  }

  lemma {:induction false} NothingMissing(ms: seq<Message>)
    ensures Deficit(ms) == multiset{} <==> AllAnswered(ms)
  {
    if ms != [] {
      NothingMissing(ms[1..]);
      assert Asked(ms[0]) - Run(ms[1..]) == multiset{} ==> Asked(ms[0]) <= Run(ms[1..]) by {
        forall id: Id ensures Asked(ms[0]) - Run(ms[1..]) == multiset{} ==> Asked(ms[0])[id] <= Run(ms[1..])[id] {
          assert (Asked(ms[0]) - Run(ms[1..]))[id] == 0 ==> Asked(ms[0])[id] <= Run(ms[1..])[id];
        }
      }
      assert Asked(ms[0]) <= Run(ms[1..]) ==> Asked(ms[0]) - Run(ms[1..]) == multiset{};
      assert Deficit(ms) == multiset{} ==>
        Asked(ms[0]) - Run(ms[1..]) == multiset{} && Deficit(ms[1..]) == multiset{} by {
        forall id: Id ensures Deficit(ms)[id] == (Asked(ms[0]) - Run(ms[1..]))[id] + Deficit(ms[1..])[id] {
        }
      }
    }
  }

  lemma {:induction false} NoStubs(entries: seq<Entry>)
    requires StubIds(entries) == multiset{}
    ensures Sent(entries) == Erased(entries)
  {
    if entries != [] {
      NoStubs(entries[1..]);
    }
  }

  /** A list gains nothing exactly when every call in it is answered already. */
  lemma RepairLeavesValidAlone(ms: seq<Message>)
    ensures StubIds(Repaired(ms, [])) == multiset{} <==> AllAnswered(ms)
    ensures AllAnswered(ms) ==> Sanitized(ms) == ProjectedAll(ms)
  {
    RepairAddsWhatIsMissing(ms, []);
    NothingMissing(ms);
    assert multiset([]) - Run(ms) == multiset{};
    if AllAnswered(ms) {
      NoStubs(Repaired(ms, []));
    }
  }

  lemma {:induction false} SentIsProjected(ms: seq<Message>, pending: seq<Id>)
    ensures forall m | m in Sent(Repaired(ms, pending)) :: m == Projected(m)
    decreases |ms|
  {
    EntriesAreProjected(ms, pending);
    SentOfProjected(Repaired(ms, pending));
  }

  lemma {:induction false} StubsAreStubs(pending: seq<Id>)
    ensures forall e | e in Stubs(pending) :: e.Stub?
  {
    if pending != [] {
      StubsAreStubs(pending[1..]);
    }
  }

  lemma {:induction false} EntriesAreProjected(ms: seq<Message>, pending: seq<Id>)
    ensures forall e | e in Repaired(ms, pending) :: e.Outgoing() == Projected(e.Outgoing())
    decreases |ms|
  {
    StubsAreStubs(pending);
    if ms != [] {
      EntriesAreProjected(ms[1..], Without(pending, ms[0].callId));
      EntriesAreProjected(ms[1..], if ms[0].role.Assistant? then CallIds(ms[0].calls) else []);
    }
  }

  lemma {:induction false} SentOfProjected(entries: seq<Entry>)
    requires forall e | e in entries :: e.Outgoing() == Projected(e.Outgoing())
    ensures forall m | m in Sent(entries) :: m == Projected(m)
  {
    if entries != [] {
      SentOfProjected(entries[1..]);
    }
  }

  lemma {:induction false} ProjectedTwice(ms: seq<Message>)
    requires forall m | m in ms :: m == Projected(m)
    ensures ProjectedAll(ms) == ms
  {
    if ms != [] {
      ProjectedTwice(ms[1..]);
    }
  }

  lemma RepairIsIdempotent(ms: seq<Message>)
    ensures Sanitized(Sanitized(ms)) == Sanitized(ms)
  {
    RepairAnswersAll(ms, []);
    RepairLeavesValidAlone(Sanitized(ms));
    SentIsProjected(ms, []);
    ProjectedTwice(Sanitized(ms));
  }

  // ----- the two passes in the order the chat turn applies them

  lemma {:induction false} KeptEntries(entries: seq<Entry>)
    ensures forall e | e in entries && e.Kept? :: e.message in Erased(entries)
  {
    if entries != [] {
      KeptEntries(entries[1..]);
    }
  }

  lemma {:induction false} ProjectedFrom(ms: seq<Message>)
    ensures forall m | m in ProjectedAll(ms) :: exists i | 0 <= i < |ms| :: m == Projected(ms[i])
  {
    if ms != [] {
      ProjectedFrom(ms[1..]);
      forall m | m in ProjectedAll(ms) ensures exists i | 0 <= i < |ms| :: m == Projected(ms[i]) {
        if m in ProjectedAll(ms[1..]) {
          var i :| 0 <= i < |ms[1..]| && m == Projected(ms[1..][i]);
          assert m == Projected(ms[i + 1]);
        } else {
          assert m == Projected(ms[0]);
        }
      }
    }
  }

  /**
    The outgoing list answers every call, contains the collapsed history in order, and
    shows the excerpts of no lookup of the turn other than the latest one that has any.
   */
  lemma OutgoingHistory(ms: seq<Message>)
    requires LastUser(ms) >= 0
    ensures var entries := Repaired(Collapsed(ms), []);
      && AllAnswered(Sent(entries))
      && Erased(entries) == ProjectedAll(Collapsed(ms))
      && forall e | e in entries && e.Kept? && e.message.role.Tool?
                    && e.message.callId in Lookups(Turn(ms)) && HasExcerpts(e.message.body) ::
           e.message.callId == Keep(Lookups(Turn(ms)), Turn(ms))
  {
    var collapsed := Collapsed(ms);
    var entries := Repaired(collapsed, []);
    RepairAnswersAll(collapsed, []);
    RepairAddsWhatIsMissing(collapsed, []);
    KeptEntries(entries);
    ProjectedFrom(collapsed);
    forall e | e in entries && e.Kept? && e.message.role.Tool?
               && e.message.callId in Lookups(Turn(ms)) && HasExcerpts(e.message.body)
      ensures e.message.callId == Keep(Lookups(Turn(ms)), Turn(ms))
    {
      var i :| 0 <= i < |collapsed| && e.message == Projected(collapsed[i]);
      OneLookupRemains(ms, i);
    }
  }
}
