/**
  Masking secrets in what the API returns, and putting the stored secrets back
  into what a client sends.
 */
module Secrets {
  import opened Wrappers

  datatype Json = Text(text: string) | Dict(fields: map<string, Json>) | List(items: seq<Json>) | Other(literal: string)

  const MASK: string := "****"
  const LEGACY_MASK: string := "\U{2022}\U{2022}\U{2022}\U{2022}"

  function Masked(value: string): string {
    if value == "" then ""
    else if |value| <= 8 then MASK
    else MASK + value[|value| - 4..]
  }

  predicate StartsWith(s: string, prefix: string) {
    |prefix| <= |s| && s[..|prefix|] == prefix
  }

  predicate IsMasked(value: string) {
    StartsWith(value, MASK) || StartsWith(value, LEGACY_MASK)
  }

  /** What a client sends for a field it did not change. */
  predicate Untouched(value: string) {
    value == "" || IsMasked(value)
  }

  /** str.lower as far as it can yield one of the letters compared with (U+212A is the Kelvin sign). */
  function Lower(s: string): string {
    if s == "" then ""
    else
      var c := s[0];
      [if 'A' <= c <= 'Z' then c - 'A' + 'a' else if c == '\U{212A}' then 'k' else c] + Lower(s[1..])
  }

  predicate EndsWith(s: string, suffix: string) {
    |suffix| <= |s| && s[|s| - |suffix|..] == suffix
  }

  predicate IsSecretKey(key: string) {
    var k := Lower(key);
    k == "api_key" || EndsWith(k, "_api_key") || k == "token" || k == "api_token"
  }

  /** The text reads as the word, whatever the case of its letters. */
  predicate Spells(s: string, word: string) {
    |s| == |word| && forall i | 0 <= i < |s| :: IsLetter(s[i], word[i])
  }

  predicate IsLetter(c: char, letter: char) {
    c == letter || ('A' <= c <= 'Z' && c - 'A' + 'a' == letter) || (c == '\U{212A}' && letter == 'k')
  }

  predicate InLowerCase(word: string) {
    forall i | 0 <= i < |word| :: !('A' <= word[i] <= 'Z') && word[i] != '\U{212A}'
  }

  lemma {:induction false} LowerAt(s: string, i: nat, letter: char)
    requires i < |s| == |Lower(s)| && InLowerCase([letter])
    ensures Lower(s)[i] == letter <==> IsLetter(s[i], letter)
  {
    if i > 0 {
      LowerLength(s[1..]);
      LowerAt(s[1..], i - 1, letter);
    } else {
      assert [letter][0] == letter;
    }
  }

  lemma {:induction false} LowerLength(s: string)
    ensures |Lower(s)| == |s|
  {
    if s != "" {
      LowerLength(s[1..]);
    }
  }

  lemma LowerSpells(s: string, word: string)
    requires InLowerCase(word)
    ensures |Lower(s)| == |s|
    ensures Lower(s) == word <==> Spells(s, word)
  {
    hide Lower, IsLetter;
    LowerLength(s);
    forall i | 0 <= i < |s| && i < |word| ensures Lower(s)[i] == word[i] <==> IsLetter(s[i], word[i]) {
      LowerAt(s, i, word[i]);
    }
  }

  lemma {:induction false} LowerOfEnd(s: string, n: nat)
    requires n <= |s|
    ensures |Lower(s)| == |s| && Lower(s)[n..] == Lower(s[n..])
  {
    LowerSpells(s, "");
    if n > 0 {
      LowerOfEnd(s[1..], n - 1);
      assert s[1..][n - 1..] == s[n..];
    }
  }

  lemma NamesAreLowerCase()
    ensures InLowerCase("api_key") && InLowerCase("token") && InLowerCase("api_token") && InLowerCase("_api_key")
  {
  }

  /** The keys that hold secrets: three names, and every name that ends in another, in any case. */
  lemma SecretKeyIff(key: string)
    ensures IsSecretKey(key) <==>
      || Spells(key, "api_key") || Spells(key, "token") || Spells(key, "api_token")
      || (|key| >= 8 && Spells(key[|key| - 8..], "_api_key"))
  {
    NamesAreLowerCase();
    hide Lower, Spells, InLowerCase;
    LowerSpells(key, "api_key");
    LowerSpells(key, "token");
    LowerSpells(key, "api_token");
    if |key| >= 8 {
      LowerOfEnd(key, |key| - 8);
      LowerSpells(key[|key| - 8..], "_api_key");
    }
  }

  // ----- the two passes

  function Redact(d: Json): (r: Json)
    requires d.Dict?
    ensures r.Dict?
    decreases d, 0
  {
    Dict(map k | k in d.fields :: k := RedactField(k, d.fields[k]))
  }

  function RedactField(key: string, v: Json): Json
    decreases v, 1
  {
    match v
    case Dict(_) => Redact(v)
    case List(items) => List(seq(|items|, i requires 0 <= i < |items| => RedactItem(items[i])))
    case Text(text) => if IsSecretKey(key) then Text(Masked(text)) else v
    case Other(_) => v
  }

  function RedactItem(item: Json): Json
    decreases item, 1
  {
    if item.Dict? then Redact(item) else item
  }

  function Restore(incoming: Json, stored: Json): (r: Json)
    requires incoming.Dict? && stored.Dict?
    ensures r.Dict?
    decreases incoming, 0
  {
    Dict(map k | k in incoming.fields :: k :=
      if k in stored.fields then RestoreField(k, incoming.fields[k], stored.fields[k]) else incoming.fields[k])
  }

  function RestoreField(key: string, v: Json, kept: Json): Json
    decreases v, 1
  {
    if v.Dict? && kept.Dict? then Restore(v, kept)
    else if v.List? && kept.List? then
      List(seq(|v.items|, i requires 0 <= i < |v.items| => RestoreItem(v.items[i], kept.items, i)))
    else if IsSecretKey(key) && v.Text? && kept.Text? && Untouched(v.text) then kept
    else v
  }

  function RestoreItem(item: Json, kept: seq<Json>, i: nat): Json
    decreases item, 1
  {
    if item.Dict? && i < |kept| && kept[i].Dict? then Restore(item, kept[i]) else item
  }

  method RedactMapping(data: Json) returns (out: map<string, Json>)
    requires data.Dict?
    ensures Dict(out) == Redact(data)
    decreases data, 0
  {
    hide IsSecretKey, Masked, RedactItem;
    out := map[];
    var keys := data.fields.Keys;
    while keys != {}
      invariant keys <= data.fields.Keys
      invariant out.Keys == data.fields.Keys - keys
      invariant forall k | k in out :: out[k] == RedactField(k, data.fields[k])
      decreases |keys|
    {
      var key :| key in keys;
      var val := data.fields[key];
      keys := keys - {key};
      match val {
        case Dict(_) =>
          var inner := RedactMapping(val);
          out := out[key := Dict(inner)];
        case List(items) =>
          var redacted := RedactList(val);
          out := out[key := List(redacted)];
        case Text(text) =>
          out := out[key := if IsSecretKey(key) then Text(Masked(text)) else val];
        case Other(_) =>
          out := out[key := val];
      }
    }
    assert out == Redact(data).fields;
  }

  method RedactList(list: Json) returns (redacted: seq<Json>)
    requires list.List?
    ensures forall key :: List(redacted) == RedactField(key, list)
    decreases list, 0
  {
    hide Redact;
    redacted := [];
    for i := 0 to |list.items|
      invariant |redacted| == i
      invariant forall k | 0 <= k < i :: redacted[k] == RedactItem(list.items[k])
    {
      if list.items[i].Dict? {
        var inner := RedactMapping(list.items[i]);
        redacted := redacted + [Dict(inner)];
      } else {
        redacted := redacted + [list.items[i]];
      }
    }
    forall key ensures List(redacted) == RedactField(key, list) {
      assert RedactField(key, list).items == redacted;
    }
  }

  method RestoreSecrets(incoming: Json, stored: Json) returns (out: map<string, Json>)
    requires incoming.Dict? && stored.Dict?
    ensures Dict(out) == Restore(incoming, stored)
    decreases incoming, 0
  {
    hide IsSecretKey, IsMasked, RestoreItem;
    out := incoming.fields;
    var keys := incoming.fields.Keys;
    while keys != {}
      invariant keys <= incoming.fields.Keys == out.Keys
      invariant forall k | k in keys :: out[k] == incoming.fields[k]
      invariant forall k | k in incoming.fields && k !in keys && k in stored.fields ::
        out[k] == RestoreField(k, incoming.fields[k], stored.fields[k])
      invariant forall k | k in incoming.fields && k !in keys && k !in stored.fields :: out[k] == incoming.fields[k]
      decreases |keys|
    {
      var key :| key in keys;
      var val := incoming.fields[key];
      keys := keys - {key};
      if key in stored.fields {
        var kept := stored.fields[key];
        if val.Dict? && kept.Dict? {
          var inner := RestoreSecrets(val, kept);
          out := out[key := Dict(inner)];
        } else if val.List? && kept.List? {
          var merged := RestoreList(val, kept);
          out := out[key := List(merged)];
        } else if IsSecretKey(key) && val.Text? && kept.Text? {
          if IsMasked(val.text) || val.text == "" {
            out := out[key := kept];
          }
        }
      }
    }
    assert out == Restore(incoming, stored).fields;
  }

  method RestoreList(list: Json, kept: Json) returns (merged: seq<Json>)
    requires list.List? && kept.List?
    ensures forall key :: List(merged) == RestoreField(key, list, kept)
    decreases list, 0
  {
    hide Restore;
    merged := [];
    for i := 0 to |list.items|
      invariant |merged| == i
      invariant forall k | 0 <= k < i :: merged[k] == RestoreItem(list.items[k], kept.items, k)
    {
      if list.items[i].Dict? && i < |kept.items| && kept.items[i].Dict? {
        var inner := RestoreSecrets(list.items[i], kept.items[i]);
        merged := merged + [Dict(inner)];
      } else {
        merged := merged + [list.items[i]];
      }
    }
    forall key ensures List(merged) == RestoreField(key, list, kept) {
      assert RestoreField(key, list, kept).items == merged;
    }
  }

  // ----- round trip

  lemma MaskIsRecognised(value: string)
    ensures Untouched(Masked(value))
    ensures Masked(value) == "" <==> value == ""
  {
    if |value| > 8 {
      assert (MASK + value[|value| - 4..])[..4] == MASK;
    }
  }

  /** A client that sends back what it was shown changes nothing. */
  lemma {:induction false} RestoreUndoesRedact(d: Json)
    requires d.Dict?
    ensures Restore(Redact(d), d) == d
    decreases d, 0
  {
    hide IsSecretKey, Untouched, Masked;
    forall k | k in d.fields ensures RestoreField(k, RedactField(k, d.fields[k]), d.fields[k]) == d.fields[k] {
      FieldRoundTrip(k, d.fields[k]);
    }
    assert Restore(Redact(d), d).fields == d.fields;
  }

  lemma {:induction false} FieldRoundTrip(key: string, v: Json)
    ensures RestoreField(key, RedactField(key, v), v) == v
    decreases v, 1
  {
    match v
    case Dict(_) => RestoreUndoesRedact(v);
    case List(items) =>
      var shown := RedactField(key, v).items;
      var back := RestoreField(key, RedactField(key, v), v).items;
      forall i | 0 <= i < |items| ensures back[i] == items[i] {
        assert back[i] == RestoreItem(RedactItem(items[i]), items, i);
        if items[i].Dict? {
          RestoreUndoesRedact(items[i]);
        }
      }
      assert back == items;
    case Text(text) => MaskIsRecognised(text);
    case Other(_) =>
  }

  /** A mask tells secrets apart by their last four characters only, and short ones not at all. */
  lemma MaskHidesTheRest(a: string, b: string)
    requires a != "" && b != ""
    requires (|a| <= 8 && |b| <= 8) || (|a| > 8 && |b| > 8 && a[|a| - 4..] == b[|b| - 4..])
    ensures Masked(a) == Masked(b)
    ensures |Masked(a)| <= 8
    ensures Masked(a) == if |a| > 8 then "****" + a[|a| - 4..] else "****"
  {
  }

  // ----- any place in the mapping

  /** One step down to an inner mapping: a field, or an item of a list field. */
  datatype Step = Into(key: string) | IntoItem(key: string, index: nat)

  function Child(d: Json, step: Step): Option<Json>
    requires d.Dict?
    ensures Child(d, step).Some? ==> Child(d, step).value.Dict?
  {
    if step.key !in d.fields then None
    else
      var v := d.fields[step.key];
      if step.Into? then (if v.Dict? then Some(v) else None)
      else if v.List? && step.index < |v.items| && v.items[step.index].Dict? then Some(v.items[step.index])
      else None
  }

  function At(d: Json, path: seq<Step>): (r: Option<Json>)
    requires d.Dict?
    ensures r.Some? ==> r.value.Dict?
    decreases |path|
  {
    if path == [] then Some(d)
    else
      var c := Child(d, path[0]);
      if c.Some? then At(c.value, path[1..]) else None
  }

  lemma RestoreOfChild(incoming: Json, stored: Json, step: Step)
    requires incoming.Dict? && stored.Dict?
    ensures var a, b := Child(incoming, step), Child(stored, step);
      Child(Restore(incoming, stored), step)
        == if a.Some? && b.Some? then Some(Restore(a.value, b.value)) else a
  {
    hide IsSecretKey, Untouched;
    if step.key in incoming.fields && step.key in stored.fields {
      var v, kept := incoming.fields[step.key], stored.fields[step.key];
      var field := RestoreField(step.key, v, kept);
      assert Restore(incoming, stored).fields[step.key] == field;
      hide Restore;
      if step.IntoItem? && v.List? && kept.List? && step.index < |v.items| {
        assert field.items[step.index] == RestoreItem(v.items[step.index], kept.items, step.index);
      }
    }
  }

  /** At every place, what is restored is what was sent there, completed from what is stored there. */
  lemma {:induction false} RestoreAt(incoming: Json, stored: Json, path: seq<Step>)
    requires incoming.Dict? && stored.Dict?
    ensures var a, b := At(incoming, path), At(stored, path);
      At(Restore(incoming, stored), path) == if a.Some? && b.Some? then Some(Restore(a.value, b.value)) else a
    decreases |path|
  {
    hide Restore;
    if path != [] {
      RestoreOfChild(incoming, stored, path[0]);
      var a, b := Child(incoming, path[0]), Child(stored, path[0]);
      if a.Some? && b.Some? {
        RestoreAt(a.value, b.value, path[1..]);
      }
    }
  }

  function TextAt(d: Json, path: seq<Step>, key: string): Option<string>
    requires d.Dict?
  {
    var m := At(d, path);
    if m.Some? && key in m.value.fields && m.value.fields[key].Text? then Some(m.value.fields[key].text) else None
  }

  lemma TextRestored(a: Json, b: Json, key: string)
    requires a.Dict? && b.Dict? && key in a.fields && a.fields[key].Text?
    ensures key in Restore(a, b).fields
    ensures Restore(a, b).fields[key] ==
      if IsSecretKey(key) && key in b.fields && b.fields[key].Text? && Untouched(a.fields[key].text) then b.fields[key]
      else a.fields[key]
  {
    hide IsSecretKey, Untouched;
  }

  /** A text that was sent survives, wherever it stands, unless it stands under a secret key, starts
      like a mask or is empty, and another text is stored there; then the stored one takes its place. */
  lemma NewSecretsSurvive(incoming: Json, stored: Json, path: seq<Step>, key: string)
    requires incoming.Dict? && stored.Dict?
    requires TextAt(incoming, path, key).Some?
    ensures var sent, kept := TextAt(incoming, path, key), TextAt(stored, path, key);
      var restored := TextAt(Restore(incoming, stored), path, key);
      var asShown := sent.value == "" ||
        (|sent.value| >= 4 && sent.value[..4] in {"****", "\U{2022}\U{2022}\U{2022}\U{2022}"});
      && restored == (if IsSecretKey(key) && asShown && kept.Some? then kept else sent)
      && (restored == sent <==> !IsSecretKey(key) || !asShown || kept.None? || kept == sent)
  {
    hide IsSecretKey, Restore;
    RestoreAt(incoming, stored, path);
    var a, b := At(incoming, path), At(stored, path);
    if b.Some? {
      TextRestored(a.value, b.value, key);
    }
  }

  /** The same kind of value, and as much of it: what is neither a mapping nor a list is the same, a list has as
      many items, and those that are no mappings are the same. */
  predicate SameButInner(v: Json, w: Json) {
    match v
    case Dict(_) => w.Dict?
    case List(items) =>
      && w.List? && |w.items| == |items|
      && forall i | 0 <= i < |items| :: if items[i].Dict? then w.items[i].Dict? else w.items[i] == items[i]
    case _ => w == v
  }

  lemma FieldRestored(a: Json, b: Json, key: string)
    requires a.Dict? && b.Dict? && key in a.fields && !a.fields[key].Text?
    ensures SameButInner(a.fields[key], Restore(a, b).fields[key])
    ensures key !in b.fields ==> Restore(a, b).fields[key] == a.fields[key]
  {
    hide IsSecretKey, Untouched;
    var v := a.fields[key];
    if key in b.fields {
      var r := RestoreField(key, v, b.fields[key]);
      if v.List? && b.fields[key].List? {
        assert forall i | 0 <= i < |v.items| :: r.items[i] == RestoreItem(v.items[i], b.fields[key].items, i);
      }
    }
  }

  /** Nothing but texts under secret keys is taken from what is stored: at every place the keys are those sent,
      other values stay as they were sent, and lists keep their length and their order. */
  lemma OthersStayAsSent(incoming: Json, stored: Json, path: seq<Step>, key: string)
    requires incoming.Dict? && stored.Dict? && At(incoming, path).Some?
    ensures At(Restore(incoming, stored), path).Some?
    ensures var m, r := At(incoming, path).value.fields, At(Restore(incoming, stored), path).value.fields;
      && r.Keys == m.Keys
      && (key in m && !m[key].Text? ==> SameButInner(m[key], r[key]))
      && (key in m && (At(stored, path).None? || key !in At(stored, path).value.fields) ==> r[key] == m[key])
  {
    hide IsSecretKey, Untouched, SameButInner;
    RestoreAt(incoming, stored, path);
    var a, b := At(incoming, path), At(stored, path);
    SameAsItself(a.value, key);
    if b.Some? && key in a.value.fields && !a.value.fields[key].Text? {
      FieldRestored(a.value, b.value, key);
    }
  }

  lemma SameAsItself(a: Json, key: string)
    requires a.Dict?
    ensures key in a.fields ==> SameButInner(a.fields[key], a.fields[key])
  {
  }

  // ----- what a response shows

  lemma RedactOfChild(d: Json, step: Step)
    requires d.Dict?
    ensures Child(Redact(d), step) == if Child(d, step).Some? then Some(Redact(Child(d, step).value)) else None
  {
    hide IsSecretKey, Masked;
    if step.key in d.fields {
      var v := d.fields[step.key];
      assert Redact(d).fields[step.key] == RedactField(step.key, v);
      if step.IntoItem? && v.List? && step.index < |v.items| {
        assert RedactField(step.key, v).items[step.index] == RedactItem(v.items[step.index]);
      }
    }
  }

  lemma {:induction false} RedactAt(d: Json, path: seq<Step>)
    requires d.Dict?
    ensures At(Redact(d), path) == if At(d, path).Some? then Some(Redact(At(d, path).value)) else None
    decreases |path|
  {
    hide Redact;
    if path != [] {
      RedactOfChild(d, path[0]);
      if Child(d, path[0]).Some? {
        RedactAt(Child(d, path[0]).value, path[1..]);
      }
    }
  }

  /** Wherever a text stands under a secret key, only its mask is shown: at most the last four of
      more than eight characters. Every other text is shown as it is. */
  lemma OnlyMasksAreShown(d: Json, path: seq<Step>, key: string)
    requires d.Dict? && TextAt(d, path, key).Some?
    ensures var text := TextAt(d, path, key).value;
      TextAt(Redact(d), path, key) == Some(if IsSecretKey(key) then Masked(text) else text)
  {
    hide IsSecretKey, Masked;
    RedactAt(d, path);
    var m := At(d, path).value;
    assert Redact(m).fields[key] == RedactField(key, m.fields[key]);
  }

  /** Nothing else is hidden: at every place a response has the keys that are stored, other values as they are,
      and lists of the same length and order. */
  lemma OthersAreShown(d: Json, path: seq<Step>, key: string)
    requires d.Dict? && At(d, path).Some?
    ensures At(Redact(d), path).Some?
    ensures var m, r := At(d, path).value.fields, At(Redact(d), path).value.fields;
      && r.Keys == m.Keys
      && (key in m && !m[key].Text? ==> SameButInner(m[key], r[key]))
  {
    hide IsSecretKey, Masked;
    RedactAt(d, path);
    var m := At(d, path).value;
    if key in m.fields && m.fields[key].List? {
      var items, shown := m.fields[key].items, RedactField(key, m.fields[key]).items;
      assert forall i | 0 <= i < |items| :: shown[i] == RedactItem(items[i]);
    }
  }

  // ----- the two functions for a single field

  /** None stands for null. */
  function EffectiveSecret(incoming: Option<string>, stored: Option<string>): string {
    if incoming.None? || incoming.value == "" || IsMasked(incoming.value) then
      if stored.Some? then stored.value else ""
    else incoming.value
  }

  predicate SkipSecretWrite(key: string, value: Json) {
    IsSecretKey(key) &&
    (value == Other("null") || value == Text("") || (value.Text? && IsMasked(value.text)))
  }

  /** The single-field functions and the nested pass agree on every secret field that holds texts. */
  lemma FieldFunctionsAgree(key: string, sent: string, kept: string)
    requires IsSecretKey(key)
    ensures RestoreField(key, Text(sent), Text(kept)) == Text(EffectiveSecret(Some(sent), Some(kept)))
    ensures SkipSecretWrite(key, Text(sent)) <==> Untouched(sent)
    ensures SkipSecretWrite(key, Text(sent)) ==> RestoreField(key, Text(sent), Text(kept)) == Text(kept)
    ensures SkipSecretWrite(key, Other("null")) && EffectiveSecret(None, Some(kept)) == kept
    ensures EffectiveSecret(None, None) == "" && (!Untouched(sent) ==> EffectiveSecret(Some(sent), None) == sent)
  {
  }
}
