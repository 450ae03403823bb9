/** Timeline-safe payload summaries: what of a payload shows, what never does, and how big it can get. */
module Redaction {
  import Masking

  /** A JSON value; a dict is its fields in insertion order. */
  datatype Json =
    | Null
    | Bool(b: bool)
    | Num(n: real)
    | Str(s: string)
    | Arr(items: seq<Json>)
    | Obj(fields: seq<Field>)

  datatype Field = Field(key: string, value: Json)

  /** The regex and URL rewriting applied to strings; any two functions will do. */
  datatype Rewriting = Rewriting(mask: string -> string, sanitizeUrl: string -> string)

  const MAX_ITEMS := 8
  const MAX_LENGTH := 240

  const SENSITIVE_EXACT_KEYS := [
    "address", "address_line1", "api_key", "authorization", "contact_email", "contact_phone_e164", "consent_ip",
    "consent_text", "consent_user_agent", "email", "full_name", "name", "password", "phone", "phone_e164", "prompt",
    "raw_payload", "response_body", "secret", "system_prompt", "token", "trustedform_cert_url", "user_prompt",
    "webhook_secret"]

  const SENSITIVE_KEY_PARTS := [
    "api_key", "authorization", "consent", "password", "prompt", "raw", "secret", "token", "webhook_secret"]

  // ---------------------------------------------------------------- strings

  function LowerChar(c: char): char {
    if 'A' <= c <= 'Z' then c - 'A' + 'a' else c
  }

  function Lower(s: string): string {
    seq(|s|, i requires 0 <= i < |s| => LowerChar(s[i]))
  }

  predicate Contains(s: string, part: string) {
    exists i :: 0 <= i <= |s| - |part| && OccursAt(s, part, i)
  }

  predicate OccursAt(s: string, part: string, i: nat) {
    i + |part| <= |s| && s[i..i + |part|] == part
  }

  predicate EndsWith(s: string, suffix: string) {
    |suffix| <= |s| && s[|s| - |suffix|..] == suffix
  }

  /** key is already lower case. */
  predicate IsSensitive(key: string) {
    IsListed(key) || HasListedPart(key)
  }

  predicate IsListed(key: string) {
    key in SENSITIVE_EXACT_KEYS
  }

  predicate HasListedPart(key: string) {
    exists i :: 0 <= i < |SENSITIVE_KEY_PARTS| && Contains(key, SENSITIVE_KEY_PARTS[i])
  }

  predicate IsUrlKey(key: string) {
    EndsWith(key, "_url") || EndsWith(key, "_uri") || key == "url" || key == "uri"
  }

  function Rewritten(t: Rewriting, value: string, key: string): string {
    var masked := t.mask(value);
    if IsUrlKey(key) then t.sanitizeUrl(masked) else masked
  }

  function Shortened(text: string): string {
    if |text| > MAX_LENGTH then text[..MAX_LENGTH - 3] + "..." else text
  }

  function SummarizeString(t: Rewriting, value: string, key: string): string {
    Shortened(Rewritten(t, value, key))
  }

  /** A text that is cut, or that looks as if it had been. */
  predicate LooksCut(text: string) {
    |text| > MAX_LENGTH || (|text| == MAX_LENGTH && EndsWith(text, "..."))
  }

  /** Two texts are shown alike exactly when they are equal, or both look cut and agree up to the cut. */
  lemma ShownAlike(a: string, b: string)
    ensures Shortened(a) == Shortened(b) <==>
              a == b || (LooksCut(a) && LooksCut(b) && a[..MAX_LENGTH - 3] == b[..MAX_LENGTH - 3])
  {
    CutParts(a);
    CutParts(b);
  }

  lemma CutParts(a: string)
    ensures |a| <= MAX_LENGTH ==> Shortened(a) == a
    ensures LooksCut(a) <==> |Shortened(a)| == MAX_LENGTH && EndsWith(Shortened(a), "...")
    ensures LooksCut(a) ==>
              && Shortened(a) == a[..MAX_LENGTH - 3] + "..."
              && Shortened(a)[..MAX_LENGTH - 3] == a[..MAX_LENGTH - 3]
  {
    if |a| == MAX_LENGTH && EndsWith(a, "...") {
      assert a == a[..MAX_LENGTH - 3] + "...";
    }
  }

  // ---------------------------------------------------------------- the summary

  const REDACTED := Str("[redacted]")
  const NESTED_OMITTED := Obj([Field("summary", Str("nested payload omitted"))])

  function OmittedCount(n: nat): Json {
    Obj([Field("omitted_count", Num(n as real))])
  }

  function SummarizeValue(t: Rewriting, value: Json, key: string, depth: nat): Json
    decreases value, 2
  {
    match value
    case Obj(fields) => if depth >= 2 then NESTED_OMITTED else Obj(SummarizeMapping(t, value, depth + 1))
    case Arr(items) =>
      Arr(SummarizeItems(t, value, key, depth + 1)
          + if |items| > MAX_ITEMS then [OmittedCount(|items| - MAX_ITEMS)] else [])
    case Str(s) => Str(SummarizeString(t, s, key))
    case _ => value
  }

  /** The summaries of the items of a list that are shown. */
  function SummarizeItems(t: Rewriting, list: Json, key: string, depth: nat): seq<Json>
    requires list.Arr?
    decreases list, 1
  {
    var shown := Min(|list.items|, MAX_ITEMS);
    seq(shown, i requires 0 <= i < shown => SummarizeValue(t, list.items[i], key, depth))
  }

  /** The summary of the fields of a dict. */
  function SummarizeMapping(t: Rewriting, dict: Json, depth: nat): seq<Field>
    requires dict.Obj?
    decreases dict, 1
  {
    seq(|dict.fields|, i requires 0 <= i < |dict.fields| => SummarizeField(t, dict, i, depth))
  }

  function SummarizeField(t: Rewriting, dict: Json, i: nat, depth: nat): Field
    requires dict.Obj? && i < |dict.fields|
    decreases dict, 0
  {
    var key := Lower(dict.fields[i].key);
    Field(dict.fields[i].key,
          if IsSensitive(key) then REDACTED else SummarizeValue(t, dict.fields[i].value, key, depth))
  }

  function Min(a: nat, b: nat): nat {
    if a < b then a else b
  }

  // ---------------------------------------------------------------- what a summary depends on

  /** Two values that may differ only where a summary does not look: under sensitive keys, past the eighth item
      of lists of one length, inside dicts at depth two or more, and in strings that are shown alike. */
  ghost predicate Agree(t: Rewriting, a: Json, b: Json, key: string, depth: nat)
    decreases a, 2
  {
    match a
    case Obj(_) => b.Obj? && (depth >= 2 || AgreeMapping(t, a, b, depth + 1))
    case Arr(items) =>
      && b.Arr? && |b.items| == |items|
      && forall i :: 0 <= i < Min(|items|, MAX_ITEMS) ==> Agree(t, items[i], b.items[i], key, depth + 1)
    case Str(s) => b.Str? && SummarizeString(t, s, key) == SummarizeString(t, b.s, key)
    case _ => a == b
  }

  /** The same keys in the same order, and agreement under each key that is not sensitive. */
  ghost predicate AgreeMapping(t: Rewriting, a: Json, b: Json, depth: nat)
    requires a.Obj? && b.Obj?
    decreases a, 1
  {
    && |a.fields| == |b.fields|
    && forall i :: 0 <= i < |a.fields| ==> AgreeField(t, a, b, i, depth)
  }

  ghost predicate AgreeField(t: Rewriting, a: Json, b: Json, i: nat, depth: nat)
    requires a.Obj? && b.Obj? && |a.fields| == |b.fields| && i < |a.fields|
    decreases a, 0
  {
    && a.fields[i].key == b.fields[i].key
    && (IsSensitive(Lower(a.fields[i].key)) ||
         Agree(t, a.fields[i].value, b.fields[i].value, Lower(a.fields[i].key), depth))
  }

  /** The summary hides exactly what it is meant to hide: two values have one summary if and only if they agree. */
  lemma {:induction false} ValueNonInterference(t: Rewriting, a: Json, b: Json, key: string, depth: nat)
    ensures SummarizeValue(t, a, key, depth) == SummarizeValue(t, b, key, depth) <==> Agree(t, a, b, key, depth)
    decreases a, 1
  {
    match a
    case Obj(_) => if b.Obj? && depth < 2 { MappingNonInterference(t, a, b, depth + 1); }
    case Arr(items) => if b.Arr? { ItemsNonInterference(t, a, b, key, depth); }
    case _ =>
  }

  lemma {:induction false} MappingNonInterference(t: Rewriting, a: Json, b: Json, depth: nat)
    requires a.Obj? && b.Obj?
    ensures SummarizeMapping(t, a, depth) == SummarizeMapping(t, b, depth) <==> AgreeMapping(t, a, b, depth)
    decreases a, 0
  {
    var x, y := SummarizeMapping(t, a, depth), SummarizeMapping(t, b, depth);
    if |a.fields| == |b.fields| {
      forall i | 0 <= i < |a.fields| ensures x[i] == y[i] <==> AgreeField(t, a, b, i, depth) {
        assert x[i] == SummarizeField(t, a, i, depth) && y[i] == SummarizeField(t, b, i, depth);
        ValueNonInterference(t, a.fields[i].value, b.fields[i].value, Lower(a.fields[i].key), depth);
      }
    }
  }

  lemma {:induction false} ItemsNonInterference(t: Rewriting, a: Json, b: Json, key: string, depth: nat)
    requires a.Arr? && b.Arr?
    ensures SummarizeValue(t, a, key, depth) == SummarizeValue(t, b, key, depth) <==> Agree(t, a, b, key, depth)
    decreases a, 0
  {
    var x, y := SummarizeItems(t, a, key, depth + 1), SummarizeItems(t, b, key, depth + 1);
    ListSummaryShape(t, a, key, depth);
    ListSummaryShape(t, b, key, depth);
    if |a.items| == |b.items| {
      forall i | 0 <= i < |x| ensures x[i] == y[i] <==> Agree(t, a.items[i], b.items[i], key, depth + 1) {
        ValueNonInterference(t, a.items[i], b.items[i], key, depth + 1);
      }
    }
  }

  /** The shown items come first, and the number of the others can be read off the end. */
  lemma ListSummaryShape(t: Rewriting, list: Json, key: string, depth: nat)
    requires list.Arr?
    ensures var shown, all := SummarizeItems(t, list, key, depth + 1), SummarizeValue(t, list, key, depth).items;
            && |shown| == Min(|list.items|, MAX_ITEMS) && all[..|shown|] == shown
            && |all| == Min(|list.items|, MAX_ITEMS + 1)
            && (|list.items| > MAX_ITEMS ==> all[MAX_ITEMS] == OmittedCount(|list.items| - MAX_ITEMS))
  {
  }

  // ---------------------------------------------------------------- how big a summary can get

  /** At most nine entries to a list, 240 characters to a string, and dicts at most levels deep. */
  ghost predicate Small(v: Json, levels: nat) {
    match v
    case Obj(fields) => levels >= 1 && forall i :: 0 <= i < |fields| ==> Small(fields[i].value, levels - 1)
    case Arr(items) => |items| <= MAX_ITEMS + 1 && forall i :: 0 <= i < |items| ==> Small(items[i], levels)
    case Str(s) => |s| <= MAX_LENGTH
    case _ => true
  }

  lemma {:induction false} ValueIsSmall(t: Rewriting, v: Json, key: string, depth: nat, levels: nat)
    requires levels + Min(depth, 2) >= 3
    ensures Small(SummarizeValue(t, v, key, depth), levels)
    decreases v, 1
  {
    match v
    case Obj(fields) => if depth < 2 { MappingIsSmall(t, v, depth + 1, levels - 1); }
    case Arr(items) =>
      ListSummaryShape(t, v, key, depth);
      var all := SummarizeValue(t, v, key, depth).items;
      forall i | 0 <= i < |all| ensures Small(all[i], levels) {
        if i < MAX_ITEMS {
          ValueIsSmall(t, items[i], key, depth + 1, levels);
        }
      }
    case _ =>
  }

  lemma {:induction false} MappingIsSmall(t: Rewriting, dict: Json, depth: nat, levels: nat)
    requires dict.Obj? && levels + Min(depth, 2) >= 3
    ensures forall i :: 0 <= i < |dict.fields| ==> Small(SummarizeMapping(t, dict, depth)[i].value, levels)
    decreases dict, 0
  {
    forall i | 0 <= i < |dict.fields| ensures Small(SummarizeMapping(t, dict, depth)[i].value, levels) {
      ValueIsSmall(t, dict.fields[i].value, Lower(dict.fields[i].key), depth, levels);
    }
  }

  // ---------------------------------------------------------------- whole payloads

  /** The summary of a payload; what is not a dict has none. */
  function Summary(t: Rewriting, payload: Json): Json {
    if payload.Obj? then Obj(SummarizeMapping(t, payload, 0)) else Obj([])
  }

  predicate ShowsNothing(payload: Json) {
    payload.Obj? ==> payload.fields == []
  }

  lemma SummariesEqualIffAgree(t: Rewriting, p: Json, q: Json)
    ensures Summary(t, p) == Summary(t, q) <==>
              (ShowsNothing(p) && ShowsNothing(q)) || (p.Obj? && q.Obj? && AgreeMapping(t, p, q, 0))
  {
    if p.Obj? && q.Obj? {
      MappingNonInterference(t, p, q, 0);
    }
  }

  lemma SummaryIsSmall(t: Rewriting, payload: Json)
    ensures Small(Summary(t, payload), 4)
  {
    if payload.Obj? {
      MappingIsSmall(t, payload, 0, 3);
    }
  }

  /** Three dicts inside a dict. */
  const NESTED := Obj([Field("", Obj([Field("", Obj([Field("", Obj([]))]))]))])

  /** Four levels are reached, so the bound on nesting is tight. */
  lemma FourLevelsReached(t: Rewriting)
    ensures !Small(Summary(t, NESTED), 3)
  {
    var inner := Obj([Field("", Obj([]))]);
    var middle := Obj([Field("", inner)]);
    assert !IsSensitive(Lower(""));
    var third := SummarizeMapping(t, inner, 2)[0].value;
    assert third == NESTED_OMITTED;
    var second := SummarizeMapping(t, middle, 1)[0].value;
    assert second.fields[0].value == third;
    var first := SummarizeMapping(t, NESTED, 0)[0].value;
    assert first.fields[0].value == second;
    assert !Small(third, 0) && !Small(second, 1) && !Small(first, 2);
  }

  // ---------------------------------------------------------------- what stands where

  function ChildCount(v: Json): nat {
    if v.Arr? then |v.items| else if v.Obj? then |v.fields| else 0
  }

  function Child(v: Json, i: nat): (child: Json)
    requires i < ChildCount(v)
    ensures child < v
  {
    if v.Arr? then v.items[i] else v.fields[i].value
  }

  /** w is v or lies somewhere inside it. */
  ghost predicate Within(w: Json, v: Json)
    decreases v
  {
    w == v || exists i :: 0 <= i < ChildCount(v) && Within(w, Child(v, i))
  }

  /** From position at on the text reads word, capitals counting as small letters. */
  predicate Spells(text: string, at: nat, word: string) {
    && at + |word| <= |text|
    && forall k :: 0 <= k < |word| ==>
         word[k] == if 'A' <= text[at + k] <= 'Z' then text[at + k] - 'A' + 'a' else text[at + k]
  }

  /** The names whose fields are never shown. */
  predicate IsHiddenName(name: string) {
    name in {
          "address", "address_line1", "api_key", "authorization", "contact_email", "contact_phone_e164", "consent_ip",
          "consent_text", "consent_user_agent", "email", "full_name", "name", "password", "phone", "phone_e164",
          "prompt", "raw_payload", "response_body", "secret", "system_prompt", "token", "trustedform_cert_url",
          "user_prompt", "webhook_secret"}
  }

  /** The parts of names whose fields are never shown. */
  predicate IsHiddenPart(part: string) {
    part in {
          "api_key", "authorization", "consent", "password", "prompt", "raw", "secret", "token", "webhook_secret"}
  }

  /** The key is one of the hidden names, or has one of the hidden parts in it. */
  ghost predicate LooksSensitive(key: string) {
    || (exists name :: IsHiddenName(name) && |key| == |name| && Spells(key, 0, name))
    || (exists part, at :: IsHiddenPart(part) && 0 <= at <= |key| && Spells(key, at, part))
  }

  predicate LooksLikeUrl(key: string) {
    || (|key| >= 4 && (Spells(key, |key| - 4, "_url") || Spells(key, |key| - 4, "_uri")))
    || (|key| == 3 && (Spells(key, 0, "url") || Spells(key, 0, "uri")))
  }

  lemma LowerSpells(text: string, at: nat, word: string)
    requires at + |word| <= |text|
    ensures Lower(text)[at..at + |word|] == word <==> Spells(text, at, word)
  {
    var part := Lower(text)[at..at + |word|];
    assert forall k :: 0 <= k < |word| ==> part[k] == LowerChar(text[at + k]);
  }

  lemma NameSpells(key: string, name: string)
    ensures Lower(key) == name <==> |key| == |name| && Spells(key, 0, name)
  {
    if |key| == |name| {
      LowerSpells(key, 0, name);
      assert Lower(key)[0..|name|] == Lower(key);
    }
  }

  lemma PartSpells(key: string, part: string)
    ensures Contains(Lower(key), part) <==> exists at :: 0 <= at <= |key| && Spells(key, at, part)
  {
    forall at | 0 <= at <= |key| - |part| ensures OccursAt(Lower(key), part, at) <==> Spells(key, at, part) {
      LowerSpells(key, at, part);
    }
  }

  lemma ListedNames(key: string)
    ensures IsListed(key) <==> IsHiddenName(key)
  {
  }

  lemma ListedParts(key: string)
    ensures HasListedPart(key) <==> exists part :: IsHiddenPart(part) && Contains(key, part)
  {
    hide Contains;
    if part :| IsHiddenPart(part) && Contains(key, part) {
      assert part in SENSITIVE_KEY_PARTS;
    }
    if i :| 0 <= i < |SENSITIVE_KEY_PARTS| && Contains(key, SENSITIVE_KEY_PARTS[i]) {
      assert IsHiddenPart(SENSITIVE_KEY_PARTS[i]);
    }
  }

  lemma SensitiveIsExact(key: string)
    ensures IsSensitive(Lower(key)) <==> LooksSensitive(key)
  {
    ListedNames(Lower(key));
    ListedParts(Lower(key));
    hide Contains, Spells, Lower, IsHiddenName, IsHiddenPart, IsListed, HasListedPart;
    if IsHiddenName(Lower(key)) {
      NameSpells(key, Lower(key));
    }
    if name :| IsHiddenName(name) && |key| == |name| && Spells(key, 0, name) {
      NameSpells(key, name);
    }
    if part :| IsHiddenPart(part) && Contains(Lower(key), part) {
      PartSpells(key, part);
    }
    if part, at :| IsHiddenPart(part) && 0 <= at <= |key| && Spells(key, at, part) {
      PartSpells(key, part);
    }
  }

  lemma SuffixSpells(key: string, suffix: string)
    ensures EndsWith(Lower(key), suffix) <==> |key| >= |suffix| && Spells(key, |key| - |suffix|, suffix)
  {
    if |key| >= |suffix| {
      var at := |key| - |suffix|;
      LowerSpells(key, at, suffix);
      assert Lower(key)[at..at + |suffix|] == Lower(key)[at..];
    }
  }

  lemma UrlIsExact(key: string)
    ensures IsUrlKey(Lower(key)) <==> LooksLikeUrl(key)
  {
    SuffixSpells(key, "_url");
    SuffixSpells(key, "_uri");
    NameSpells(key, "url");
    NameSpells(key, "uri");
    hide Spells, Lower, EndsWith;
  }

  /** The value at the end of a path of field and item numbers. */
  function At(v: Json, path: seq<nat>): Json
    decreases |path|
  {
    if |path| == 0 || path[0] >= ChildCount(v) then v else At(Child(v, path[0]), path[1..])
  }

  /** The last key on the way, and key if there is none. */
  function KeyAt(v: Json, path: seq<nat>, key: string): string
    decreases |path|
  {
    if |path| == 0 || path[0] >= ChildCount(v) then key
    else KeyAt(Child(v, path[0]), path[1..], if v.Obj? then v.fields[path[0]].key else key)
  }

  /** The place shows: no key on the way looks sensitive, no item is behind the eighth, and no dict on the way is at
      depth two or more. The payload itself is at depth -1. */
  ghost predicate Visible(v: Json, path: seq<nat>, depth: int)
    decreases |path|
  {
    |path| > 0 ==>
      && path[0] < ChildCount(v)
      && (v.Obj? ==> depth < 2 && !LooksSensitive(v.fields[path[0]].key))
      && (v.Arr? ==> path[0] < 8)
      && Visible(Child(v, path[0]), path[1..], depth + 1)
  }

  /** What is shown for v at a place with this key and depth. */
  ghost predicate ShowsAs(t: Rewriting, v: Json, shown: Json, key: string, depth: int) {
    match v
    case Str(s) =>
      var text := if LooksLikeUrl(key) then t.sanitizeUrl(t.mask(s)) else t.mask(s);
      shown == Str(if |text| <= 240 then text else text[..237] + "...")
    case Arr(items) =>
      && shown.Arr? && |shown.items| == (if |items| <= 8 then |items| else 9)
      && (|items| > 8 ==> shown.items[8] == Obj([Field("omitted_count", Num((|items| - 8) as real))]))
    case Obj(fields) =>
      if depth >= 2 then shown == Obj([Field("summary", Str("nested payload omitted"))])
      else
        && shown.Obj? && |shown.fields| == |fields|
        && forall i :: 0 <= i < |fields| ==>
             && shown.fields[i].key == fields[i].key
             && (LooksSensitive(fields[i].key) ==> shown.fields[i].value == Str("[redacted]"))
    case _ => shown == v
  }

  lemma ValueShowsHere(t: Rewriting, v: Json, key: string, depth: nat)
    ensures ShowsAs(t, v, SummarizeValue(t, v, Lower(key), depth), key, depth)
  {
    hide LooksSensitive, LooksLikeUrl, IsSensitive, IsUrlKey, Lower;
    match v
    case Str(s) => UrlIsExact(key);
    case Obj(fields) => if depth < 2 { MappingShows(t, v, depth + 1); }
    case Arr(items) => ListSummaryShape(t, v, Lower(key), depth);
    case _ =>
  }

  lemma MappingShows(t: Rewriting, dict: Json, depth: nat)
    requires dict.Obj?
    ensures ShowsAs(t, dict, Obj(SummarizeMapping(t, dict, depth)), "", -1)
  {
    hide LooksSensitive, IsSensitive, Lower;
    forall i | 0 <= i < |dict.fields|
      ensures SummarizeMapping(t, dict, depth)[i].key == dict.fields[i].key
      ensures LooksSensitive(dict.fields[i].key) ==> SummarizeMapping(t, dict, depth)[i].value == Str("[redacted]")
    {
      SensitiveIsExact(dict.fields[i].key);
    }
  }

  lemma FieldShows(t: Rewriting, dict: Json, i: nat, depth: nat)
    requires dict.Obj? && i < |dict.fields| && !LooksSensitive(dict.fields[i].key)
    ensures |SummarizeMapping(t, dict, depth)| == |dict.fields|
    ensures SummarizeMapping(t, dict, depth)[i].value ==
              SummarizeValue(t, dict.fields[i].value, Lower(dict.fields[i].key), depth)
  {
    SensitiveIsExact(dict.fields[i].key);
    assert SummarizeMapping(t, dict, depth)[i] == SummarizeField(t, dict, i, depth);
  }

  lemma ItemShows(t: Rewriting, list: Json, i: nat, key: string, depth: nat)
    requires list.Arr? && i < |list.items| && i < 8
    ensures var shown := SummarizeValue(t, list, key, depth).items;
            i < |shown| && shown[i] == SummarizeValue(t, list.items[i], key, depth + 1)
  {
    ListSummaryShape(t, list, key, depth);
    assert SummarizeItems(t, list, key, depth + 1)[i] == SummarizeValue(t, list.items[i], key, depth + 1);
  }

  lemma {:induction false} ValueShows(t: Rewriting, v: Json, key: string, depth: nat, path: seq<nat>)
    requires Visible(v, path, depth)
    ensures ShowsAs(t, At(v, path), At(SummarizeValue(t, v, Lower(key), depth), path), KeyAt(v, path, key),
                    depth + |path|)
    decreases |path|
  {
    hide ShowsAs, LooksSensitive, Lower, SummarizeMapping, SummarizeItems;
    if |path| == 0 {
      ValueShowsHere(t, v, key, depth);
    } else if v.Obj? {
      var field, dict := v.fields[path[0]], Obj(SummarizeMapping(t, v, depth + 1));
      FieldShows(t, v, path[0], depth + 1);
      assert SummarizeValue(t, v, Lower(key), depth) == dict;
      assert Child(dict, path[0]) == SummarizeValue(t, field.value, Lower(field.key), depth + 1);
      hide SummarizeValue;
      ValueShows(t, field.value, field.key, depth + 1, path[1..]);
    } else {
      var list := SummarizeValue(t, v, Lower(key), depth);
      ItemShows(t, v, path[0], Lower(key), depth);
      assert list.Arr? && Child(list, path[0]) == SummarizeValue(t, v.items[path[0]], Lower(key), depth + 1);
      hide SummarizeValue;
      ValueShows(t, v.items[path[0]], key, depth + 1, path[1..]);
    }
  }

  /** At every place that shows, a summary has exactly this: dicts keep their keys and hide the fields whose keys look
      sensitive, lists keep eight items and say how many more there were, strings are rewritten and cut, and the rest is
      as it was. */
  lemma PlaceShows(t: Rewriting, payload: Json, path: seq<nat>)
    requires payload.Obj? && Visible(payload, path, -1)
    ensures ShowsAs(t, At(payload, path), At(Summary(t, payload), path), KeyAt(payload, path, ""), |path| - 1)
  {
    hide ShowsAs, LooksSensitive, Lower, SummarizeMapping, SummarizeValue;
    if |path| == 0 {
      MappingShows(t, payload, 0);
    } else {
      var field := payload.fields[path[0]];
      FieldShows(t, payload, path[0], 0);
      assert Child(Summary(t, payload), path[0]) == SummarizeValue(t, field.value, Lower(field.key), 0);
      ValueShows(t, field.value, field.key, 0, path[1..]);
    }
  }

  // ---------------------------------------------------------------- no contact shows

  /** The service's own masking, with any cleaning of URLs. */
  function Service(sanitizeUrl: string -> string): Rewriting {
    Rewriting((s: string) => Masking.Mask(s), sanitizeUrl)
  }

  /** Cutting a text shows nothing that was not there before. */
  lemma CutShowsNothingNew(text: string)
    requires !Masking.HasEmail(text) && !Masking.HasPhone(text)
    ensures !Masking.HasEmail(Shortened(text)) && !Masking.HasPhone(Shortened(text))
  {
    var shown := Shortened(text);
    if |text| > MAX_LENGTH {
      assert forall k :: 0 <= k < |shown| ==> shown[k] == if k < 237 then text[k] else '.';
      forall at, dot ensures !Masking.EmailAt(shown, at, dot) {
        assert !Masking.EmailAt(text, at, dot);
      }
      forall i ensures !Masking.PhoneAt(shown, i) {
        assert !Masking.PhoneAt(text, i);
      }
    }
  }

  /** No visible string shows an email address or a phone number, wherever in the payload it stands, unless its key is
      a URL key. */
  lemma NoContactShows(sanitizeUrl: string -> string, payload: Json, path: seq<nat>)
    requires payload.Obj? && Visible(payload, path, -1)
    requires At(payload, path).Str? && !LooksLikeUrl(KeyAt(payload, path, ""))
    ensures var shown := At(Summary(Service(sanitizeUrl), payload), path);
            shown.Str? && !Masking.HasEmail(shown.s) && !Masking.HasPhone(shown.s)
  {
    hide Visible, At, KeyAt, Summary, LooksLikeUrl;
    PlaceShows(Service(sanitizeUrl), payload, path);
    Masking.NothingLeft(At(payload, path).s);
    CutShowsNothingNew(Masking.Mask(At(payload, path).s));
  }

  /** The loop over the fields of a dict. */
  method SummarizeFields(t: Rewriting, dict: Json, depth: nat) returns (summary: seq<Field>)
    requires dict.Obj?
    ensures summary == SummarizeMapping(t, dict, depth)
  {
    summary := [];
    for i := 0 to |dict.fields|
      invariant summary == SummarizeMapping(t, dict, depth)[..i]
    {
      var normalized := Lower(dict.fields[i].key);
      if IsSensitive(normalized) {
        summary := summary + [Field(dict.fields[i].key, REDACTED)];
        continue;
      }
      summary := summary + [Field(dict.fields[i].key, SummarizeValue(t, dict.fields[i].value, normalized, depth))];
    }
  }

  method SummarizeTransitionPayload(t: Rewriting, payload: Json) returns (summary: Json)
    ensures summary == Summary(t, payload)
    ensures Small(summary, 4) && (!payload.Obj? ==> summary == Obj([]))
  {
    SummaryIsSmall(t, payload);
    if !payload.Obj? {
      return Obj([]);
    }
    var fields := SummarizeFields(t, payload, 0);
    summary := Obj(fields);
  }
}
