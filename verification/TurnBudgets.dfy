/**
  One user message: rounds of model replies and tool calls under hard budgets, whatever
  the model asks for, the tools find and the user decides.
 */
module TurnBudgets {
  import opened Wrappers

  const MAX_ROUNDS: nat := 15
  const MAX_SEARCHES: nat := 5
  const MAX_LOOKUPS: nat := 5
  const MAX_WASTED_LOOKUPS: nat := 2
  const MAX_NOTES: nat := 3
  const MAX_REVIEW_RETRIES: nat := 2

  type Pack = string

  /** A note's place: the collection and the title, stripped and case-folded. */
  datatype Place = Place(collection: string, title: string)

  /** The user's answer on the confirmation card; the card can redirect the note. */
  datatype Card = Declines | Approves(elsewhere: Option<string>, usable: bool)

  datatype Target = Unresolved | Resolved(place: Place, confirm: bool, card: Card)

  /** A tool call together with everything the environment decides about it. */
  datatype Call =
    | Refused
    | Search(configured: bool)
    | Lookup(allowed: bool, inScope: bool, misdirected: bool, found: set<Pack>)
    | Web(enabled: bool, approved: bool)
    | Note(target: Target)
    | OtherTool

  /** What the model replies: an error, an answer (which a report review may send back), or calls. */
  datatype Reply = Failure | Answer(unsaved: bool) | Calls(calls: seq<Call>)

  datatype Decision = Undecided | Approved | Declined

  /** What the turn does to the world. */
  datatype Effect =
    | Asked
    | Searched
    | LookedUp
    | WastedLookup
    | WebConfirmed(approved: bool)
    | WebSearched
    | Noted(attempt: Place, place: Place)

  datatype Turn = Turn(searches: nat, lookups: nat, dry: bool, wasted: nat, seen: set<Pack>,
                       attempts: set<Place>, notes: nat, web: Decision, retries: nat, trace: seq<Effect>)

  const START: Turn := Turn(0, 0, false, 0, {}, {}, 0, Undecided, 0, [])

  // ----- one call

  function WithEffect(t: Turn, e: Effect): Turn {
    t.(trace := t.trace + [e])
  }

  function AfterSearch(t: Turn, configured: bool): Turn {
    if !configured || t.searches >= MAX_SEARCHES then t
    else WithEffect(t.(searches := t.searches + 1), Searched)
  }

  /** `stashed` says that the search has been run in the fan-out of the round already. */
  function AfterLookup(t: Turn, c: Call, stashed: bool): Turn
    requires c.Lookup?
  {
    if !c.allowed || !c.inScope || c.misdirected then t
    else if t.dry then WithEffect(t.(wasted := t.wasted + 1), WastedLookup)
    else if !stashed && t.lookups >= MAX_LOOKUPS then t.(dry := true)
    else
      var counted := if stashed then t else WithEffect(t.(lookups := t.lookups + 1), LookedUp);
      counted.(seen := t.seen + c.found, dry := t.seen != {} && c.found <= t.seen)
  }

  function AfterWeb(t: Turn, enabled: bool, approved: bool): Turn {
    if !enabled || t.web == Declined then t
    else
      var decided := if t.web == Approved then t
                     else WithEffect(t.(web := if approved then Approved else Declined), WebConfirmed(approved));
      if decided.web == Approved then WithEffect(decided, WebSearched) else decided
  }

  /** Where an approved note goes; None when the card names a collection that cannot be used. */
  function Destination(place: Place, card: Card): Option<Place>
    requires card.Approves?
  {
    if card.elsewhere.Some? && card.elsewhere.value != "" && card.elsewhere.value != place.collection then
      if card.usable then Some(Place(card.elsewhere.value, place.title)) else None
    else Some(place)
  }

  function AfterNote(t: Turn, target: Target): Turn {
    if target.Unresolved? || target.place in t.attempts || t.notes >= MAX_NOTES then t
    else
      var tried := t.(attempts := t.attempts + {target.place});
      var to := if !target.confirm then Some(target.place)
                else if target.card.Declines? then None
                else Destination(target.place, target.card);
      if to.None? then tried
      else WithEffect(tried.(notes := t.notes + 1), Noted(target.place, to.value))
  }

  function AfterCall(t: Turn, c: Call, stashed: bool): Turn {
    match c
    case Refused => t
    case Search(configured) => AfterSearch(t, configured)
    case Lookup(_, _, _, _) => AfterLookup(t, c, stashed)
    case Web(enabled, approved) => AfterWeb(t, enabled, approved)
    case Note(target) => AfterNote(t, target)
    case OtherTool => t
  }

  // ----- one round

  /** The lookups of a round that are run together: as many as the budget has left. */
  function Launch(lookups: nat, calls: seq<Call>, i: nat, launched: seq<nat>): (r: seq<nat>)
    requires i <= |calls|
    ensures |r| >= |launched|
    ensures |r| + lookups <= MAX_LOOKUPS || r == launched
    decreases |calls| - i
  {
    if i == |calls| || (calls[i].Lookup? && |launched| + lookups >= MAX_LOOKUPS) then launched
    else if calls[i].Lookup? && !calls[i].misdirected && calls[i].allowed
    then Launch(lookups, calls, i + 1, launched + [i])
    else Launch(lookups, calls, i + 1, launched)
  }

  function LookupCount(calls: seq<Call>): nat {
    if calls == [] then 0 else (if calls[0].Lookup? then 1 else 0) + LookupCount(calls[1..])
  }

  /** The positions whose lookups are run ahead of the loop; a single one is not worth it. */
  function FanOut(t: Turn, calls: seq<Call>): seq<nat> {
    if t.dry || LookupCount(calls) < 2 then []
    else
      var launched := Launch(t.lookups, calls, 0, []);
      if |launched| >= 2 then launched else []
  }

  function LookedUpTimes(t: Turn, n: nat): Turn
    decreases n
  {
    if n == 0 then t else LookedUpTimes(WithEffect(t.(lookups := t.lookups + 1), LookedUp), n - 1)
  }

  function AfterCalls(t: Turn, calls: seq<Call>, stash: seq<nat>, i: nat): Turn
    requires i <= |calls|
    decreases |calls| - i
  {
    if i == |calls| then t else AfterCalls(AfterCall(t, calls[i], i in stash), calls, stash, i + 1)
  }

  function AfterRound(t: Turn, calls: seq<Call>): Turn {
    var launched := FanOut(t, calls);
    AfterCalls(LookedUpTimes(t, |launched|), calls, launched, 0)
  }

  // ----- the whole turn

  /** The turn after the replies that were asked for from this round on. */
  function AfterReplies(t: Turn, replies: seq<Reply>, round: nat): Turn
    decreases |replies|
  {
    if round >= MAX_ROUNDS || t.wasted >= MAX_WASTED_LOOKUPS || replies == [] then t
    else
      var asked := WithEffect(t, Asked);
      match replies[0]
      case Failure => asked
      case Answer(unsaved) =>
        if unsaved && t.retries < MAX_REVIEW_RETRIES && round < MAX_ROUNDS - 1
        then AfterReplies(asked.(retries := t.retries + 1), replies[1..], round + 1)
        else asked
      case Calls(calls) => AfterReplies(AfterRound(asked, calls), replies[1..], round + 1)
  }

  // ----- the loop itself

  class TurnLoop {
    var searches: nat
    var lookups: nat
    var dry: bool
    var wasted: nat
    var seen: set<Pack>
    var attempts: set<Place>
    var notes: nat
    var web: Decision
    var retries: nat
    ghost var trace: seq<Effect>

    ghost function View(): Turn
      reads this
    {
      Turn(searches, lookups, dry, wasted, seen, attempts, notes, web, retries, trace)
    }

    constructor ()
      ensures View() == START
    {
      searches, lookups, dry, wasted, seen := 0, 0, false, 0, {};
      attempts, notes, web, retries, trace := {}, 0, Undecided, 0, [];
    }

    method SearchKnowledgeBase(configured: bool)
      modifies this
      ensures View() == AfterSearch(old(View()), configured)
      ensures old(Consistent(View())) ==> Consistent(View())
    {
      if Consistent(View()) {
        SearchKeeps(View(), configured);
      }
      hide Consistent;
      if !configured {
        return;
      }
      if searches >= MAX_SEARCHES {
        return;
      }
      searches := searches + 1;
      trace := trace + [Searched];
    }

    method LookUpTranscript(call: Call, stashed: bool)
      requires call.Lookup?
      modifies this
      ensures View() == AfterLookup(old(View()), call, stashed)
      ensures old(Consistent(View())) ==> Consistent(View())
    {
      if Consistent(View()) {
        LookupKeeps(View(), call, stashed);
      }
      hide Consistent;
      if !call.allowed || !call.inScope {
        return;
      }
      if call.misdirected {
        return;
      }
      if dry {
        wasted := wasted + 1;
        trace := trace + [WastedLookup];
        return;
      }
      var had := seen;
      var found := call.found;
      if !stashed {
        if lookups >= MAX_LOOKUPS {
          found := {};
          dry := true;
        } else {
          lookups := lookups + 1;
          trace := trace + [LookedUp];
        }
      }
      seen := seen + found;
      if had != {} && found - had == {} {
        dry := true;
      }
      assert forall p | p in found :: p in had || p in found - had;
    }

    method SearchWeb(enabled: bool, approved: bool)
      modifies this
      ensures View() == AfterWeb(old(View()), enabled, approved)
      ensures old(Consistent(View())) ==> Consistent(View())
    {
      if Consistent(View()) {
        WebKeeps(View(), enabled, approved);
      }
      hide Consistent;
      if !enabled || web == Declined {
        return;
      }
      if web != Approved {
        trace := trace + [WebConfirmed(approved)];
        if !approved {
          web := Declined;
        } else {
          web := Approved;
        }
      }
      if web == Approved {
        trace := trace + [WebSearched];
      }
    }

    method CreateNote(target: Target)
      modifies this
      ensures View() == AfterNote(old(View()), target)
      ensures old(Consistent(View())) ==> Consistent(View())
    {
      if Consistent(View()) {
        NoteKeeps(View(), target);
      }
      hide Consistent;
      if target.Unresolved? {
        return;
      }
      if target.place in attempts {
        return;
      }
      if notes >= MAX_NOTES {
        return;
      }
      attempts := attempts + {target.place};
      var to := Some(target.place);
      if target.confirm {
        match target.card
        case Declines => to := None;
        case Approves(_, _) => to := Destination(target.place, target.card);
      }
      if to.Some? {
        trace := trace + [Noted(target.place, to.value)];
        notes := notes + 1;
      }
    }

    /** The searches of a round that run together, against the same budget. */
    method RunFanOut(calls: seq<Call>) returns (launched: seq<nat>)
      modifies this
      ensures launched == FanOut(old(View()), calls)
      ensures View() == LookedUpTimes(old(View()), |launched|)
    {
      launched := [];
      if dry {
        return;
      }
      var positions := 0;
      for i := 0 to |calls|
        invariant positions + LookupCount(calls[i..]) == LookupCount(calls)
      {
        assert calls[i..][1..] == calls[i + 1..];
        if calls[i].Lookup? {
          positions := positions + 1;
        }
      }
      assert LookupCount(calls[|calls|..]) == 0;
      if positions < 2 {
        return;
      }
      var i := 0;
      while i < |calls|
        invariant i <= |calls|
        invariant Launch(lookups, calls, 0, []) == Launch(lookups, calls, i, launched)
      {
        if calls[i].Lookup? {
          if |launched| + lookups >= MAX_LOOKUPS {
            break;
          }
          if !calls[i].misdirected && calls[i].allowed {
            launched := launched + [i];
          }
        }
        i := i + 1;
      }
      if |launched| < 2 {
        launched := [];
        return;
      }
      RunLookups(|launched|);
    }

    method RunLookups(n: nat)
      modifies this
      ensures View() == LookedUpTimes(old(View()), n)
    {
      ghost var before := View();
      for k := 0 to n
        invariant LookedUpTimes(before, n) == LookedUpTimes(View(), n - k)
      {
        lookups := lookups + 1;
        trace := trace + [LookedUp];
      }
    }

    method RunRound(calls: seq<Call>)
      modifies this
      ensures View() == AfterRound(old(View()), calls)
    {
      hide AfterSearch, AfterLookup, AfterWeb, AfterNote, LookedUpTimes, FanOut;
      ghost var before := View();
      var stash := RunFanOut(calls);
      for i := 0 to |calls|
        invariant AfterCalls(View(), calls, stash, i) == AfterRound(before, calls)
      {
        match calls[i]
        case Refused =>
        case Search(configured) => SearchKnowledgeBase(configured);
        case Lookup(_, _, _, _) => LookUpTranscript(calls[i], i in stash);
        case Web(enabled, approved) => SearchWeb(enabled, approved);
        case Note(target) => CreateNote(target);
        case OtherTool =>
      }
    }

    /** The replies stand for the model: one is taken each time it is asked. */
    method Run(replies: seq<Reply>)
      requires View() == START
      modifies this
      ensures View() == AfterReplies(START, replies, 0)
    {
      hide AfterRound;
      assert replies[0..] == replies;
      for round := 0 to MAX_ROUNDS
        invariant round <= |replies|
        invariant AfterReplies(View(), replies[round..], round) == AfterReplies(START, replies, 0)
      {
        if wasted >= MAX_WASTED_LOOKUPS || round == |replies| {
          return;
        }
        assert replies[round..][1..] == replies[round + 1..];
        trace := trace + [Asked];
        match replies[round] {
          case Failure => return;
          case Answer(unsaved) =>
            if unsaved && retries < MAX_REVIEW_RETRIES && round < MAX_ROUNDS - 1 {
              retries := retries + 1;
              continue;
            }
            return;
          case Calls(calls) => RunRound(calls);
        }
      }
    }
  }

  // ----- what the trace shows

  datatype Kind = ASK | SEARCH | LOOKUP | WASTE | CONFIRM | WEB | NOTE

  function KindOf(e: Effect): Kind {
    match e
    case Asked => ASK
    case Searched => SEARCH
    case LookedUp => LOOKUP
    case WastedLookup => WASTE
    case WebConfirmed(_) => CONFIRM
    case WebSearched => WEB
    case Noted(_, _) => NOTE
  }

  function Kinds(trace: seq<Effect>): seq<Kind> {
    seq(|trace|, i requires 0 <= i < |trace| => KindOf(trace[i]))
  }

  function Count(trace: seq<Effect>, kind: Kind): nat {
    multiset(Kinds(trace))[kind]
  }

  lemma CountOneMore(trace: seq<Effect>, e: Effect, kind: Kind)
    ensures Count(trace + [e], kind) == Count(trace, kind) + if KindOf(e) == kind then 1 else 0
  {
    assert Kinds(trace + [e]) == Kinds(trace) + [KindOf(e)];
  }

  /** No web search without an approval before it, and none after a refusal. */
  ghost predicate WebIsConfirmed(trace: seq<Effect>) {
    forall i | 0 <= i < |trace| && trace[i] == WebSearched ::
      (exists j | 0 <= j < i :: trace[j] == WebConfirmed(true)) && WebConfirmed(false) !in trace
  }

  /** Every note written is another attempt. */
  ghost predicate AttemptsDiffer(trace: seq<Effect>) {
    forall i, j | 0 <= i < j < |trace| && trace[i].Noted? && trace[j].Noted? :: trace[i].attempt != trace[j].attempt
  }

  /** A note goes where it was attempted, unless the user sends it elsewhere; the title stays. */
  ghost predicate PlacesFollow(trace: seq<Effect>) {
    forall e | e in trace && e.Noted? :: e.place.title == e.attempt.title
  }

  /** The model is not asked again once two lookups were wasted. */
  ghost predicate WasteStops(trace: seq<Effect>) {
    forall i | 0 <= i < |trace| && trace[i] == Asked :: Count(trace[..i], WASTE) < MAX_WASTED_LOOKUPS
  }

  ghost predicate Consistent(t: Turn) {
    && Count(t.trace, SEARCH) == t.searches <= MAX_SEARCHES
    && Count(t.trace, LOOKUP) == t.lookups <= MAX_LOOKUPS
    && Count(t.trace, WASTE) == t.wasted
    && Count(t.trace, NOTE) == t.notes <= MAX_NOTES
    && Count(t.trace, CONFIRM) == (if t.web == Undecided then 0 else 1)
    && (forall b :: WebConfirmed(b) in t.trace <==> t.web == (if b then Approved else Declined))
    && (forall e | e in t.trace && e.Noted? :: e.attempt in t.attempts)
    && WebIsConfirmed(t.trace) && AttemptsDiffer(t.trace) && PlacesFollow(t.trace) && WasteStops(t.trace)
  }

  lemma WebStaysConfirmed(trace: seq<Effect>, e: Effect)
    requires WebIsConfirmed(trace)
    requires e == WebSearched ==> WebConfirmed(true) in trace && WebConfirmed(false) !in trace
    requires e == WebConfirmed(false) ==> WebSearched !in trace
    ensures WebIsConfirmed(trace + [e])
  {
    var more := trace + [e];
    forall i | 0 <= i < |more| && more[i] == WebSearched
      ensures (exists j | 0 <= j < i :: more[j] == WebConfirmed(true)) && WebConfirmed(false) !in more
    {
      assert i < |trace| ==> trace[i] == WebSearched;
      var j :| 0 <= j < i && j < |trace| && trace[j] == WebConfirmed(true);
      assert more[j] == WebConfirmed(true);
    }
  }

  lemma WasteStillStops(trace: seq<Effect>, e: Effect)
    requires WasteStops(trace)
    requires e == Asked ==> Count(trace, WASTE) < MAX_WASTED_LOOKUPS
    ensures WasteStops(trace + [e])
  {
    hide Count;
    var more := trace + [e];
    forall i | 0 <= i < |more| && more[i] == Asked ensures Count(more[..i], WASTE) < MAX_WASTED_LOOKUPS {
      assert more[..i] == trace[..i];
      assert trace[..|trace|] == trace;
    }
  }

  lemma NotesStayApart(trace: seq<Effect>, attempts: set<Place>, e: Effect)
    requires AttemptsDiffer(trace) && PlacesFollow(trace)
    requires forall o | o in trace && o.Noted? :: o.attempt in attempts
    requires e.Noted? ==> e.attempt !in attempts && e.place.title == e.attempt.title
    ensures AttemptsDiffer(trace + [e]) && PlacesFollow(trace + [e])
  {
    assert forall i | 0 <= i < |trace| :: trace[i] in trace;
  }

  /** The part of consistency that one more effect has to keep. */
  lemma OneMoreEffect(t: Turn, e: Effect)
    requires Consistent(t)
    requires e == WebSearched ==> WebConfirmed(true) in t.trace && WebConfirmed(false) !in t.trace
    requires e == WebConfirmed(false) ==> WebSearched !in t.trace
    requires e.Noted? ==> e.attempt !in t.attempts && e.place.title == e.attempt.title
    requires e == Asked ==> t.wasted < MAX_WASTED_LOOKUPS
    ensures var trace := t.trace + [e];
      WebIsConfirmed(trace) && AttemptsDiffer(trace) && PlacesFollow(trace) && WasteStops(trace)
    ensures forall kind :: Count(t.trace + [e], kind) == Count(t.trace, kind) + if KindOf(e) == kind then 1 else 0
  {
    hide WebIsConfirmed, AttemptsDiffer, PlacesFollow, WasteStops, Count;
    WebStaysConfirmed(t.trace, e);
    WasteStillStops(t.trace, e);
    NotesStayApart(t.trace, t.attempts, e);
    forall kind ensures Count(t.trace + [e], kind) == Count(t.trace, kind) + if KindOf(e) == kind then 1 else 0 {
      CountOneMore(t.trace, e, kind);
    }
  }

  lemma SearchKeeps(t: Turn, configured: bool)
    requires Consistent(t)
    ensures Consistent(AfterSearch(t, configured))
  {
    hide Count, WebIsConfirmed, AttemptsDiffer, PlacesFollow, WasteStops;
    OneMoreEffect(t, Searched);
  }

  lemma LookupKeeps(t: Turn, c: Call, stashed: bool)
    requires Consistent(t) && c.Lookup?
    ensures Consistent(AfterLookup(t, c, stashed))
  {
    hide Count, WebIsConfirmed, AttemptsDiffer, PlacesFollow, WasteStops;
    OneMoreEffect(t, LookedUp);
    OneMoreEffect(t, WastedLookup);
  }

  lemma SearchMeansApproved(t: Turn)
    requires Consistent(t)
    ensures WebSearched in t.trace ==> t.web == Approved
  {
    hide Count;
    if WebSearched in t.trace {
      var i :| 0 <= i < |t.trace| && t.trace[i] == WebSearched;
      assert WebConfirmed(true) in t.trace;
    }
  }

  lemma DecisionKeeps(t: Turn, approved: bool)
    requires Consistent(t) && t.web == Undecided
    ensures Consistent(WithEffect(t.(web := if approved then Approved else Declined), WebConfirmed(approved)))
  {
    hide Count, WebIsConfirmed, AttemptsDiffer, PlacesFollow, WasteStops;
    SearchMeansApproved(t);
    OneMoreEffect(t, WebConfirmed(approved));
  }

  lemma WebKeeps(t: Turn, enabled: bool, approved: bool)
    requires Consistent(t)
    ensures Consistent(AfterWeb(t, enabled, approved))
  {
    hide Count, WebIsConfirmed, AttemptsDiffer, PlacesFollow, WasteStops;
    if enabled && t.web != Declined {
      var decided := t;
      if t.web == Undecided {
        DecisionKeeps(t, approved);
        decided := WithEffect(t.(web := if approved then Approved else Declined), WebConfirmed(approved));
      }
      if decided.web == Approved {
        OneMoreEffect(decided, WebSearched);
      }
    }
  }

  lemma NoteKeeps(t: Turn, target: Target)
    requires Consistent(t)
    ensures Consistent(AfterNote(t, target))
  {
    hide Count, WebIsConfirmed, AttemptsDiffer, PlacesFollow, WasteStops;
    if target.Resolved? && target.place !in t.attempts {
      OneMoreEffect(t, Noted(target.place, target.place));
      if target.card.Approves? && Destination(target.place, target.card).Some? {
        OneMoreEffect(t, Noted(target.place, Destination(target.place, target.card).value));
      }
    }
  }

  lemma CallKeeps(t: Turn, c: Call, stashed: bool)
    requires Consistent(t)
    ensures Consistent(AfterCall(t, c, stashed))
  {
    hide Consistent, AfterSearch, AfterLookup, AfterWeb, AfterNote;
    match c
    case Refused =>
    case Search(configured) => SearchKeeps(t, configured);
    case Lookup(_, _, _, _) => LookupKeeps(t, c, stashed);
    case Web(enabled, approved) => WebKeeps(t, enabled, approved);
    case Note(target) => NoteKeeps(t, target);
    case OtherTool =>
  }

  lemma {:induction false} CallsKeep(t: Turn, calls: seq<Call>, stash: seq<nat>, i: nat)
    requires Consistent(t) && i <= |calls|
    ensures Consistent(AfterCalls(t, calls, stash, i))
    decreases |calls| - i
  {
    hide Consistent, AfterCall;
    if i < |calls| {
      CallKeeps(t, calls[i], i in stash);
      CallsKeep(AfterCall(t, calls[i], i in stash), calls, stash, i + 1);
    }
  }

  lemma LookedUpKeeps(t: Turn)
    requires Consistent(t) && t.lookups < MAX_LOOKUPS
    ensures Consistent(WithEffect(t.(lookups := t.lookups + 1), LookedUp))
  {
    hide Count, WebIsConfirmed, AttemptsDiffer, PlacesFollow, WasteStops;
    OneMoreEffect(t, LookedUp);
  }

  lemma {:induction false} FanOutKeeps(t: Turn, n: nat)
    requires Consistent(t) && t.lookups + n <= MAX_LOOKUPS
    ensures Consistent(LookedUpTimes(t, n))
    decreases n
  {
    hide Consistent;
    if n > 0 {
      LookedUpKeeps(t);
      FanOutKeeps(WithEffect(t.(lookups := t.lookups + 1), LookedUp), n - 1);
    }
  }

  lemma RoundKeeps(t: Turn, calls: seq<Call>)
    requires Consistent(t)
    ensures Consistent(AfterRound(t, calls))
  {
    var launched := FanOut(t, calls);
    assert |launched| + t.lookups <= MAX_LOOKUPS;
    hide Consistent;
    FanOutKeeps(t, |launched|) by {
      assert Consistent(t);
    }
    CallsKeep(LookedUpTimes(t, |launched|), calls, launched, 0);
  }

  lemma AskedKeeps(t: Turn)
    requires Consistent(t) && t.wasted < MAX_WASTED_LOOKUPS
    ensures Consistent(WithEffect(t, Asked))
    ensures Count(WithEffect(t, Asked).trace, ASK) == Count(t.trace, ASK) + 1
  {
    hide Count, WebIsConfirmed, AttemptsDiffer, PlacesFollow, WasteStops;
    OneMoreEffect(t, Asked);
  }

  lemma RoundAsksNothing(t: Turn, calls: seq<Call>)
    ensures Count(AfterRound(t, calls).trace, ASK) == Count(t.trace, ASK)
    ensures AfterRound(t, calls).retries == t.retries
  {
    var launched := FanOut(t, calls);
    FanOutAsksNothing(t, |launched|);
    CallsAskNothing(LookedUpTimes(t, |launched|), calls, launched, 0);
  }

  lemma {:induction false} FanOutAsksNothing(t: Turn, n: nat)
    ensures Count(LookedUpTimes(t, n).trace, ASK) == Count(t.trace, ASK)
    ensures LookedUpTimes(t, n).retries == t.retries
    decreases n
  {
    hide Count;
    if n > 0 {
      CountOneMore(t.trace, LookedUp, ASK);
      FanOutAsksNothing(WithEffect(t.(lookups := t.lookups + 1), LookedUp), n - 1);
    }
  }

  /** A call adds at most two effects, none of which asks the model. */
  lemma CallAsksNothing(t: Turn, c: Call, stashed: bool)
    ensures Count(AfterCall(t, c, stashed).trace, ASK) == Count(t.trace, ASK)
    ensures AfterCall(t, c, stashed).retries == t.retries
  {
    hide Count;
    forall e ensures Count(t.trace + [e], ASK) == Count(t.trace, ASK) + if KindOf(e) == ASK then 1 else 0 {
      CountOneMore(t.trace, e, ASK);
    }
    CountOneMore(t.trace + [WebConfirmed(true)], WebSearched, ASK);
  }

  lemma {:induction false} CallsAskNothing(t: Turn, calls: seq<Call>, stash: seq<nat>, i: nat)
    requires i <= |calls|
    ensures Count(AfterCalls(t, calls, stash, i).trace, ASK) == Count(t.trace, ASK)
    ensures AfterCalls(t, calls, stash, i).retries == t.retries
    decreases |calls| - i
  {
    hide AfterCall, Count;
    if i < |calls| {
      CallAsksNothing(t, calls[i], i in stash);
      CallsAskNothing(AfterCall(t, calls[i], i in stash), calls, stash, i + 1);
    }
  }

  lemma {:induction false} TurnKeeps(t: Turn, replies: seq<Reply>, round: nat)
    requires Consistent(t) && round <= MAX_ROUNDS
    ensures Consistent(AfterReplies(t, replies, round))
    ensures Count(AfterReplies(t, replies, round).trace, ASK) <= Count(t.trace, ASK) + (MAX_ROUNDS - round)
    decreases |replies|
  {
    hide Count, AfterRound;
    if round < MAX_ROUNDS && t.wasted < MAX_WASTED_LOOKUPS && replies != [] {
      AskedKeeps(t);
      var asked := WithEffect(t, Asked);
      match replies[0] {
        case Failure =>
        case Answer(unsaved) =>
          var again := asked.(retries := t.retries + 1);
          assert Consistent(again);
          if unsaved && t.retries < MAX_REVIEW_RETRIES && round < MAX_ROUNDS - 1 {
            hide Consistent;
            TurnKeeps(again, replies[1..], round + 1);
          }
        case Calls(calls) =>
          hide Consistent;
          RoundKeeps(asked, calls);
          RoundAsksNothing(asked, calls);
          TurnKeeps(AfterRound(asked, calls), replies[1..], round + 1);
      }
    }
  }

  /**
    Whatever the model replies and the user decides, one user message takes at most 15 rounds
    with tools (an answer without tools may be asked for after the last one), runs at most 5
    knowledge-base searches and 5 transcript lookups, writes at most 3 notes, each for another
    attempt, asks once at most for the web and never searches it unasked.
   */
  lemma BudgetsHold(replies: seq<Reply>)
    ensures var trace := AfterReplies(START, replies, 0).trace;
      && Count(trace, ASK) <= MAX_ROUNDS
      && Count(trace, SEARCH) <= MAX_SEARCHES
      && Count(trace, LOOKUP) <= MAX_LOOKUPS
      && Count(trace, NOTE) <= MAX_NOTES
      && Count(trace, CONFIRM) <= 1
      && WebIsConfirmed(trace) && AttemptsDiffer(trace) && PlacesFollow(trace) && WasteStops(trace)
  {
    assert Consistent(START);
    TurnKeeps(START, replies, 0);
  }

  // ----- the end of the lookups

  lemma {:induction false} DryCalls(t: Turn, calls: seq<Call>, stash: seq<nat>, i: nat)
    requires t.dry && i <= |calls|
    ensures AfterCalls(t, calls, stash, i).dry && AfterCalls(t, calls, stash, i).lookups == t.lookups
    decreases |calls| - i
  {
    if i < |calls| {
      DryCalls(AfterCall(t, calls[i], i in stash), calls, stash, i + 1);
    }
  }

  /** A lookup that finds nothing new, or comes after the budget is spent, is the last one of the turn. */
  lemma {:induction false} DryTurnLooksUpNoMore(t: Turn, replies: seq<Reply>, round: nat)
    requires t.dry
    ensures AfterReplies(t, replies, round).dry && AfterReplies(t, replies, round).lookups == t.lookups
    decreases |replies|
  {
    hide AfterCalls;
    if round < MAX_ROUNDS && t.wasted < MAX_WASTED_LOOKUPS && replies != [] {
      var asked := WithEffect(t, Asked);
      match replies[0] {
        case Failure =>
        case Answer(_) => DryTurnLooksUpNoMore(asked.(retries := t.retries + 1), replies[1..], round + 1);
        case Calls(calls) =>
          assert FanOut(asked, calls) == [];
          DryCalls(asked, calls, [], 0);
          DryTurnLooksUpNoMore(AfterRound(asked, calls), replies[1..], round + 1);
      }
    }
  }

  predicate MayLookUp(c: Call) {
    c.Lookup? && c.allowed && c.inScope && !c.misdirected
  }

  /** The lookup finds nothing that was not found before, or comes after five have run. */
  predicate BringsNothingNew(t: Turn, c: Call, stashed: bool)
    requires c.Lookup?
  {
    (t.seen != {} && c.found <= t.seen) || (!stashed && Count(t.trace, LOOKUP) >= 5)
  }

  /** From such a lookup on none runs any more, whatever calls and replies follow. */
  lemma NothingNewEndsLookups(t: Turn, c: Call, stashed: bool, calls: seq<Call>, stash: seq<nat>, i: nat,
                              replies: seq<Reply>, round: nat)
    requires Consistent(t) && MayLookUp(c) && BringsNothingNew(t, c, stashed)
    requires i <= |calls| && round <= MAX_ROUNDS
    ensures var after := AfterCall(t, c, stashed);
      Count(AfterReplies(AfterCalls(after, calls, stash, i), replies, round).trace, LOOKUP)
      == Count(after.trace, LOOKUP)
  {
    var after := AfterCall(t, c, stashed);
    assert after.dry;
    CallKeeps(t, c, stashed);
    hide AfterCall;
    DryCalls(after, calls, stash, i);
    CallsKeep(after, calls, stash, i);
    var later := AfterCalls(after, calls, stash, i);
    DryTurnLooksUpNoMore(later, replies, round);
    TurnKeeps(later, replies, round);
  }

  /** Any other lookup leaves the turn open: its finds are remembered, and the next lookup runs unless five have. */
  lemma SomethingNewGoesOn(t: Turn, c: Call, stashed: bool, next: Call)
    requires Consistent(t) && MayLookUp(c) && !t.dry && !BringsNothingNew(t, c, stashed) && MayLookUp(next)
    ensures var after := AfterCall(t, c, stashed);
      && after.trace == t.trace + (if stashed then [] else [LookedUp])
      && after.seen == t.seen + c.found
      && !after.dry
      && AfterCall(after, next, false).trace
         == after.trace + (if Count(after.trace, LOOKUP) < 5 then [LookedUp] else [])
  {
    CallKeeps(t, c, stashed);
    hide Count;
    assert t.trace + [] == t.trace;
    var after := AfterCall(t, c, stashed);
    assert after.trace + [] == after.trace;
  }

  /** In a turn that has run dry a lookup is only answered, and counted as wasted; a refused one does nothing. */
  lemma OtherLookupsRunNothing(t: Turn, c: Call, stashed: bool)
    requires c.Lookup?
    ensures t.dry && MayLookUp(c) ==> AfterCall(t, c, stashed) == WithEffect(t.(wasted := t.wasted + 1), WastedLookup)
    ensures !MayLookUp(c) ==> AfterCall(t, c, stashed) == t
  {
  }

  // ----- what the budgets allow is done

  lemma SearchRunsWithinBudget(t: Turn, configured: bool, stashed: bool)
    requires Consistent(t)
    ensures AfterCall(t, Search(configured), stashed).trace
         == t.trace + (if configured && Count(t.trace, SEARCH) < 5 then [Searched] else [])
  {
    assert t.trace + [] == t.trace;
  }

  /** The user is asked for the web once, and an approved search runs every time. */
  lemma WebRunsWhenApproved(t: Turn, enabled: bool, approved: bool, stashed: bool)
    requires Consistent(t)
    ensures AfterCall(t, Web(enabled, approved), stashed).trace == t.trace +
      if !enabled || WebConfirmed(false) in t.trace then []
      else if WebConfirmed(true) in t.trace then [WebSearched]
      else if approved then [WebConfirmed(true), WebSearched]
      else [WebConfirmed(false)]
  {
    assert t.trace + [] == t.trace;
    assert t.trace + [WebConfirmed(true)] + [WebSearched] == t.trace + [WebConfirmed(true), WebSearched];
  }

  /** A new attempt within the budget is written where the user leaves it or sends it; declined, or sent to a
      collection that cannot be used, it is written nowhere, and it is not new any more. */
  lemma NoteRunsWithinBudget(t: Turn, place: Place, confirm: bool, card: Card, stashed: bool)
    requires Consistent(t) && place !in t.attempts && Count(t.trace, NOTE) < 3
    ensures var after := AfterCall(t, Note(Resolved(place, confirm, card)), stashed);
      && after.attempts == t.attempts + {place}
      && after.trace == t.trace +
           if confirm && card.Declines? then []
           else if confirm && card.elsewhere.Some? && card.elsewhere.value !in {"", place.collection} then
             if card.usable then [Noted(place, Place(card.elsewhere.value, place.title))] else []
           else [Noted(place, place)]
  {
    assert t.trace + [] == t.trace;
  }

  /** An attempt made before, or a fourth note, does nothing. */
  lemma OtherNotesDoNothing(t: Turn, target: Target, stashed: bool)
    requires Consistent(t)
    requires target.Unresolved? || target.place in t.attempts || Count(t.trace, NOTE) >= 3
    ensures AfterCall(t, Note(target), stashed) == t
  {
  }

  // ----- which lookups run ahead

  predicate MayLaunch(c: Call) {
    c.Lookup? && !c.misdirected && c.allowed
  }

  /** All positions before `i` that may be launched have been, in order, while the budget lasts. */
  predicate Greedy(lookups: nat, calls: seq<Call>, i: nat, launched: seq<nat>) {
    && i <= |calls|
    && (forall a, b | 0 <= a < b < |launched| :: launched[a] < launched[b])
    && (forall k | k in launched :: k < i && MayLaunch(calls[k]))
    && (forall k | 0 <= k < i && MayLaunch(calls[k]) && k !in launched :: |launched| + lookups >= 5)
  }

  lemma GreedyStep(lookups: nat, calls: seq<Call>, i: nat, launched: seq<nat>)
    requires i < |calls| && Greedy(lookups, calls, i, launched)
    ensures MayLaunch(calls[i]) ==> Greedy(lookups, calls, i + 1, launched + [i])
    ensures !MayLaunch(calls[i]) ==> Greedy(lookups, calls, i + 1, launched)
    ensures |launched| + lookups >= 5 ==> Greedy(lookups, calls, |calls|, launched)
  {
    hide MayLaunch;
    assert forall a | 0 <= a < |launched| :: launched[a] in launched;
    var longer := launched + [i];
    assert forall k :: k in longer <==> k in launched || k == i;
  }

  lemma {:induction false} LaunchIsGreedy(lookups: nat, calls: seq<Call>, i: nat, launched: seq<nat>)
    requires Greedy(lookups, calls, i, launched)
    ensures Greedy(lookups, calls, |calls|, Launch(lookups, calls, i, launched))
    decreases |calls| - i
  {
    assert i <= |calls|;
    hide Greedy;
    if i == |calls| {
    } else {
      GreedyStep(lookups, calls, i, launched);
      if !(calls[i].Lookup? && |launched| + lookups >= MAX_LOOKUPS) {
        LaunchIsGreedy(lookups, calls, i + 1, if MayLaunch(calls[i]) then launched + [i] else launched);
      }
    }
  }

  lemma {:induction false} TwoLookups(calls: seq<Call>)
    ensures LookupCount(calls) >= 1 <==> exists i | 0 <= i < |calls| :: calls[i].Lookup?
    ensures LookupCount(calls) >= 2 <==> exists i, j | 0 <= i < j < |calls| :: calls[i].Lookup? && calls[j].Lookup?
  {
    if calls != [] {
      var rest := calls[1..];
      TwoLookups(rest);
      assert forall i | 0 <= i < |rest| :: rest[i] == calls[i + 1];
      if exists i | 0 <= i < |rest| :: rest[i].Lookup? {
        var i :| 0 <= i < |rest| && rest[i].Lookup?;
        assert calls[i + 1].Lookup?;
      }
      if exists i, j | 0 <= i < j < |rest| :: rest[i].Lookup? && rest[j].Lookup? {
        var i, j :| 0 <= i < j < |rest| && rest[i].Lookup? && rest[j].Lookup?;
        assert calls[i + 1].Lookup? && calls[j + 1].Lookup?;
      }
      forall i, j | 0 <= i < j < |calls| && calls[i].Lookup? && calls[j].Lookup? ensures LookupCount(calls) >= 2 {
        assert rest[j - 1].Lookup?;
        if i > 0 {
          assert rest[i - 1].Lookup?;
        }
      }
    }
  }

  /** When a round asks for two lookups or more, as many of them as the budget has left run together, in order
      and none before its turn; a single one is left to the loop. */
  lemma FanOutIsGreedy(t: Turn, calls: seq<Call>)
    ensures var launched := FanOut(t, calls);
      && (launched == [] || (|launched| >= 2 && Greedy(t.lookups, calls, |calls|, launched)))
      && (launched == [] <==>
            || t.dry
            || !(exists i, j | 0 <= i < j < |calls| :: calls[i].Lookup? && calls[j].Lookup?)
            || exists few: seq<nat> :: |few| < 2 && Greedy(t.lookups, calls, |calls|, few))
  {
    TwoLookups(calls);
    LaunchIsGreedy(t.lookups, calls, 0, []);
    var all := Launch(t.lookups, calls, 0, []);
    forall few: seq<nat> | Greedy(t.lookups, calls, |calls|, few) && |all| >= 2 ensures |few| >= 2 {
      GreedyGoesOn(t.lookups, calls, few, all);
    }
  }

  lemma GreedyGoesOn(lookups: nat, calls: seq<Call>, few: seq<nat>, all: seq<nat>)
    requires Greedy(lookups, calls, |calls|, few) && Greedy(lookups, calls, |calls|, all)
    requires 2 <= |all| && |all| + lookups <= 5
    ensures |few| >= 2
  {
    var a, b := all[0], all[1];
    assert a in all && b in all && a != b;
    if a in few && b in few {
      var i, j :| 0 <= i < |few| && 0 <= j < |few| && few[i] == a && few[j] == b;
      assert i != j;
    }
  }

  lemma {:induction false} LookedUpTimesCounts(t: Turn, n: nat)
    ensures Count(LookedUpTimes(t, n).trace, LOOKUP) == Count(t.trace, LOOKUP) + n
    ensures LookedUpTimes(t, n).lookups == t.lookups + n
    decreases n
  {
    hide Count;
    if n > 0 {
      CountOneMore(t.trace, LookedUp, LOOKUP);
      LookedUpTimesCounts(WithEffect(t.(lookups := t.lookups + 1), LookedUp), n - 1);
    }
  }

  lemma CallLooksUpNoLess(t: Turn, c: Call, stashed: bool)
    ensures Count(AfterCall(t, c, stashed).trace, LOOKUP) >= Count(t.trace, LOOKUP)
  {
    hide Count;
    forall e ensures Count(t.trace + [e], LOOKUP) >= Count(t.trace, LOOKUP) {
      CountOneMore(t.trace, e, LOOKUP);
    }
    CountOneMore(t.trace + [WebConfirmed(true)], WebSearched, LOOKUP);
  }

  lemma {:induction false} CallsLookUpNoLess(t: Turn, calls: seq<Call>, stash: seq<nat>, i: nat)
    requires i <= |calls|
    ensures Count(AfterCalls(t, calls, stash, i).trace, LOOKUP) >= Count(t.trace, LOOKUP)
    decreases |calls| - i
  {
    hide AfterCall, Count;
    if i < |calls| {
      CallLooksUpNoLess(t, calls[i], i in stash);
      CallsLookUpNoLess(AfterCall(t, calls[i], i in stash), calls, stash, i + 1);
    }
  }

  /** Every lookup of the fan-out is run, and counts. */
  lemma FanOutIsCounted(t: Turn, calls: seq<Call>)
    ensures Count(AfterRound(t, calls).trace, LOOKUP) >= Count(t.trace, LOOKUP) + |FanOut(t, calls)|
  {
    hide Count, FanOut, AfterCalls;
    LookedUpTimesCounts(t, |FanOut(t, calls)|);
    CallsLookUpNoLess(LookedUpTimes(t, |FanOut(t, calls)|), calls, FanOut(t, calls), 0);
  }

  /** The calls of a round are done in order: one more at the end is done last. */
  lemma {:induction false} CallsInOrder(t: Turn, calls: seq<Call>, last: Call, stash: seq<nat>, i: nat)
    requires i <= |calls|
    ensures AfterCalls(t, calls + [last], stash, i)
         == AfterCall(AfterCalls(t, calls, stash, i), last, |calls| in stash)
    decreases |calls| - i
  {
    hide AfterCall;
    var all := calls + [last];
    if i == |calls| {
      assert AfterCalls(AfterCall(t, all[i], i in stash), all, stash, i + 1) == AfterCall(t, last, i in stash);
    } else {
      CallsInOrder(AfterCall(t, calls[i], i in stash), calls, last, stash, i + 1);
    }
  }

  // ----- how long a turn goes on

  /** A failure, or an answer that needs no other try, is the last reply asked for. */
  lemma {:induction false} FinalReplyEnds(t: Turn, replies: seq<Reply>, more: seq<Reply>, round: nat)
    requires replies != []
    requires replies[|replies| - 1] == Reply.Failure || replies[|replies| - 1] == Answer(false)
    ensures AfterReplies(t, replies + more, round) == AfterReplies(t, replies, round)
    decreases |replies|
  {
    hide AfterRound;
    var all := replies + more;
    if |replies| > 1 && round < MAX_ROUNDS && t.wasted < MAX_WASTED_LOOKUPS {
      assert all[1..] == replies[1..] + more;
      var asked := WithEffect(t, Asked);
      match replies[0] {
        case Failure =>
        case Answer(_) => FinalReplyEnds(asked.(retries := t.retries + 1), replies[1..], more, round + 1);
        case Calls(calls) => FinalReplyEnds(AfterRound(asked, calls), replies[1..], more, round + 1);
      }
    }
  }

  predicate NoLookups(replies: seq<Reply>) {
    forall i | 0 <= i < |replies| ::
      replies[i].Calls? && forall k | 0 <= k < |replies[i].calls| :: !replies[i].calls[k].Lookup?
  }

  lemma {:induction false} NothingWasted(t: Turn, calls: seq<Call>, stash: seq<nat>, i: nat)
    requires i <= |calls| && forall k | 0 <= k < |calls| :: !calls[k].Lookup?
    ensures AfterCalls(t, calls, stash, i).wasted == t.wasted
    decreases |calls| - i
  {
    if i < |calls| {
      NothingWasted(AfterCall(t, calls[i], i in stash), calls, stash, i + 1);
    }
  }

  /** Replies with calls are asked for one after the other, up to fifteen. */
  lemma {:induction false} CallsGoOn(t: Turn, replies: seq<Reply>, round: nat)
    requires NoLookups(replies) && t.wasted < 2 && round <= 15
    ensures Count(AfterReplies(t, replies, round).trace, ASK)
         == Count(t.trace, ASK) + if |replies| <= 15 - round then |replies| else 15 - round
    decreases |replies|
  {
    hide Count, AfterCalls;
    if replies != [] && round < 15 {
      var asked := WithEffect(t, Asked);
      var calls := replies[0].calls;
      CountOneMore(t.trace, Asked, ASK);
      RoundAsksNothing(asked, calls);
      TwoLookups(calls);
      NothingWasted(asked, calls, [], 0);
      CallsGoOn(AfterRound(asked, calls), replies[1..], round + 1);
    }
  }

  /** An answer that a report review sends back is asked for again, twice at most. */
  lemma {:induction false} UnsavedAnswersAreRetriedTwice(replies: seq<Reply>)
    requires forall i | 0 <= i < |replies| :: replies[i] == Answer(true)
    ensures AfterReplies(START, replies, 0).trace
         == if |replies| == 0 then [] else if |replies| == 1 then [Asked]
            else if |replies| == 2 then [Asked, Asked] else [Asked, Asked, Asked]
  {
    if |replies| > 0 {
      var t1 := WithEffect(START, Asked).(retries := 1);
      assert AfterReplies(START, replies, 0) == AfterReplies(t1, replies[1..], 1);
      if |replies| > 1 {
        var t2 := WithEffect(t1, Asked).(retries := 2);
        assert AfterReplies(t1, replies[1..], 1) == AfterReplies(t2, replies[1..][1..], 2);
        assert |replies| > 2 ==> replies[1..][1..][0] == replies[2];
      }
    }
  }

  // ----- duplicate notes

  /** Two notes of one turn can only end up under the same title in the same collection when the
      user's card sent one of them there. */
  lemma DuplicatesAreRedirected(replies: seq<Reply>, i: nat, j: nat)
    requires var trace := AfterReplies(START, replies, 0).trace;
      i < j < |trace| && trace[i].Noted? && trace[j].Noted? && trace[i].place == trace[j].place
    ensures var trace := AfterReplies(START, replies, 0).trace;
      || trace[i].place.collection != trace[i].attempt.collection
      || trace[j].place.collection != trace[j].attempt.collection
  {
    BudgetsHold(replies);
    var trace := AfterReplies(START, replies, 0).trace;
    assert trace[i] in trace && trace[j] in trace;
  }

  ghost predicate PlacesDiffer(trace: seq<Effect>) {
    forall i, j | 0 <= i < j < |trace| && trace[i].Noted? && trace[j].Noted? :: trace[i].place != trace[j].place
  }

  predicate WroteTo(trace: seq<Effect>, place: Place) {
    exists i | 0 <= i < |trace| :: trace[i].Noted? && trace[i].place == place
  }

  predicate WasRedirectedTo(trace: seq<Effect>, place: Place) {
    exists i | 0 <= i < |trace| :: trace[i].Noted? && trace[i].place == place && trace[i].attempt != place
  }

  /** The next note, when it goes where it was attempted, repeats an earlier one if and only if a card sent
      an earlier one there: the attempts of the turn do not show it. */
  lemma NoteAtHomeRepeatsIff(t: Turn, target: Target)
    requires Consistent(t) && |AfterNote(t, target).trace| > |t.trace|
    ensures var e := AfterNote(t, target).trace[|t.trace|];
      && e.Noted? && e.attempt == target.place
      && (e.place == target.place ==> (WroteTo(t.trace, e.place) <==> WasRedirectedTo(t.trace, e.place)))
  {
    hide Count;
    var e := AfterNote(t, target).trace[|t.trace|];
    forall i | 0 <= i < |t.trace| && t.trace[i].Noted? ensures t.trace[i].attempt != target.place {
      assert t.trace[i] in t.trace;
    }
  }

  /**
    One note makes the first duplicate of a turn if and only if the place its
    card leaves it in has been written to: at home by an earlier card that sent
    a note there, elsewhere by any earlier note.
   */
  lemma NoteDuplicatesIff(t: Turn, target: Target)
    requires Consistent(t) && PlacesDiffer(t.trace)
    requires target.Resolved? && (target.confirm ==> target.card.Approves?)
    requires |AfterNote(t, target).trace| > |t.trace|
    ensures var to := if target.confirm then Destination(target.place, target.card) else Some(target.place);
      && to.Some?
      && (PlacesDiffer(AfterNote(t, target).trace) <==>
            if to.value == target.place then !WasRedirectedTo(t.trace, to.value) else !WroteTo(t.trace, to.value))
  {
    hide Consistent;
    NoteAtHomeRepeatsIff(t, target);
    var e := AfterNote(t, target).trace[|t.trace|];
    assert AfterNote(t, target).trace == t.trace + [e];
    PlacesDifferWithOneMore(t.trace, e);
  }

  lemma PlacesDifferWithOneMore(trace: seq<Effect>, e: Effect)
    requires PlacesDiffer(trace) && e.Noted?
    ensures PlacesDiffer(trace + [e]) <==> !WroteTo(trace, e.place)
  {
    var more := trace + [e];
    assert more[|trace|] == e && forall i | 0 <= i < |trace| :: more[i] == trace[i];
    if WroteTo(trace, e.place) {
      var i :| 0 <= i < |trace| && trace[i].Noted? && trace[i].place == e.place;
      assert more[i].place == more[|trace|].place;
    }
  }

  /** The redirected notes went to places of their own: no other note, redirected or not, is there. */
  ghost predicate RedirectionsStayApart(trace: seq<Effect>) {
    forall i, j | 0 <= i < |trace| && 0 <= j < |trace| && i != j && trace[i].Noted? && trace[j].Noted?
                  && trace[i].place != trace[i].attempt :: trace[i].place != trace[j].place
  }

  /** Over a whole turn: no title is written twice into one collection if and only if no redirected note
      went where another one is. */
  lemma NoDuplicatesIff(replies: seq<Reply>)
    ensures var trace := AfterReplies(START, replies, 0).trace;
      PlacesDiffer(trace) <==> RedirectionsStayApart(trace)
  {
    BudgetsHold(replies);
  }

  /** ... and then it happens: the turn remembers what was attempted, not where the note went. */
  lemma RedirectionCanDuplicate()
    ensures var first := Note(Resolved(Place("a", "t"), true, Approves(Some("b"), true)));
      var second := Note(Resolved(Place("b", "t"), false, Declines));
      AfterReplies(START, [Calls([first, second])], 0).trace
        == [Asked, Noted(Place("a", "t"), Place("b", "t")), Noted(Place("b", "t"), Place("b", "t"))]
  {
    var first := Note(Resolved(Place("a", "t"), true, Approves(Some("b"), true)));
    var second := Note(Resolved(Place("b", "t"), false, Declines));
    var calls := [first, second];
    var asked := WithEffect(START, Asked);
    assert LookupCount(calls) == 0 by {
      assert calls[1..] == [second] && [second][1..] == [];
      assert LookupCount([second]) == 0;
    }
    var t1 := AfterCall(asked, first, false);
    var t2 := AfterCall(t1, second, false);
    assert AfterCalls(t2, calls, [], 2) == t2;
    assert AfterCalls(t1, calls, [], 1) == t2;
    assert AfterCalls(asked, calls, [], 0) == t2;
    assert AfterRound(asked, calls) == t2;
    assert [Calls(calls)][1..] == [];
    assert AfterReplies(t2, [], 1) == t2;
  }
}
