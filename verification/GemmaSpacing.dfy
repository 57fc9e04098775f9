/** Argument texts with white space, spelled out: what every way of laying a value out reads
    back as, what may follow it, and which names are keys. */
module GemmaSpacing {
  import opened Model
  import opened Text
  import opened GemmaGrammar

  /** One blank character. */
  lemma BlankChar(c: char)
    ensures Blank([c]) <==> AsciiSpace(c)
  {
    assert [c][0] == c;
  }

  lemma {:induction false} BlankSkipped(w: string, s: string)
    requires Blank(w)
    ensures SkipSpace(w + s) == SkipSpace(s)
    decreases |w|
  {
    if w == "" {
      assert w + s == s;
    } else {
      BlankChar(w[0]);
      assert [w[0]][0] == w[0];
      assert (w + s)[1..] == w[1..] + s;
      BlankSkipped(w[1..], s);
    }
  }

  /** White space in front of a value makes no difference. */
  lemma BlankBefore(json: Json, w: string, s: string)
    requires Blank(w)
    ensures ParseValue(json, w + s) == ParseValue(json, s)
  {
    BlankSkipped(w, s);
  }

  lemma SameSkipped(json: Json, s: string, s': string)
    requires SkipSpace(s) == SkipSpace(s')
    ensures ParseValue(json, s) == ParseValue(json, s')
  {
  }

  lemma SkipTwice(s: string)
    ensures SkipSpace(SkipSpace(s)) == SkipSpace(s)
  {
  }

  /** All of a text is skipped exactly when it is blank. */
  lemma {:induction false} AllSkipped(w: string)
    ensures SkipSpace(w) == "" <==> Blank(w)
  {
    if w != "" {
      BlankChar(w[0]);
      AllSkipped(w[1..]);
      assert Blank(w) ==> Blank([w[0]]) && Blank(w[1..]);
      assert Blank([w[0]]) && Blank(w[1..]) ==> Blank(w) by {
        assert w == [w[0]] + w[1..];
      }
    }
  }

  // ---- Names ----

  predicate NameLetter(c: char) {
    'a' <= c <= 'z' || 'A' <= c <= 'Z' || '0' <= c <= '9' || c == '_' || c == '-'
  }

  /** One or more ASCII letters, digits, underscores and hyphens. */
  predicate Name(key: string) {
    key != "" && forall i | 0 <= i < |key| :: NameLetter(key[i])
  }

  lemma NamesAreValid(key: string)
    ensures Name(key) <==> ValidName(key)
  {
  }

  /** The first colon behind a text that has none. */
  lemma ColonBehind(before: string, rest: string, s: string)
    requires s == before + ":" + rest && forall i | 0 <= i < |before| :: before[i] != ':'
    ensures Find(s, ":") == Some(|before|) && s[..|before|] == before && s[|before| + 1..] == rest
  {
    var n := |before|;
    assert s[n..n + 1] == ":";
    forall k | 0 <= k < n ensures !OccursAt(s, ":", k) {
      assert s[k] == before[k];
      assert s[k..k + 1] == [s[k]];
    }
    FindIs(s, ":", n);
  }

  /** A name as a key, blanks behind it. */
  lemma NameInBlanks(key: string, gap: string, before: string)
    requires Name(key) && Blank(gap) && before == key + gap
    ensures Tight(key) && forall i | 0 <= i < |before| :: before[i] != ':'
  {
  }

  lemma FieldIs(json: Json, s: string, fields: seq<Field>, end: nat, key: string, value: Value, rest: string,
                after: string)
    requires Find(s, ":") == Some(end) && Trim(s[..end]) == key && ValidName(key) && !HasKey(fields, key)
    requires ParseValue(json, s[end + 1..]) == Ok(value, rest) && after == SkipSpace(rest)
    ensures ParseField(json, s, fields) == Ok(Obj(fields + [Field(key, value)]), after)
  {
  }

  lemma FieldRead(json: Json, key: string, gap: string, gap': string, s: string, fields: seq<Field>, value: Value,
                  rest: string, text: string, after: string)
    requires Name(key) && Blank(gap) && Blank(gap') && !HasKey(fields, key)
    requires ParseValue(json, s) == Ok(value, rest) && after == SkipSpace(rest)
    requires text == key + gap + ":" + (gap' + s)
    ensures ParseField(json, text, fields) == Ok(Obj(fields + [Field(key, value)]), after)
  {
    var before := key + gap;
    NameInBlanks(key, gap, before);
    TrimBlank("", key, gap, before);
    ColonBehind(before, gap' + s, text);
    NamesAreValid(key);
    BlankBefore(json, gap', s);
    FieldIs(json, text, fields, |before|, key, value, rest, after);
  }

  // ---- Every way of laying a value out ----

  /** A value with the white space of its text. */
  datatype Spaced =
    | Quoted(text: string)
    | Bare(atom: Atom)
    | Braced(gap: string, fields: seq<SpacedField>)
    | Bracketed(gap: string, items: seq<SpacedItem>)

  /** White space stands ahead of the key, on both sides of the colon and behind the value. */
  datatype SpacedField = SpacedField(ahead: string, key: string, beforeColon: string, afterColon: string,
                                     value: Spaced, behind: string)

  datatype SpacedItem = SpacedItem(ahead: string, value: Spaced, behind: string)

  function Breadth(v: Spaced): nat {
    match v
    case Braced(_, fields) => |fields|
    case Bracketed(_, items) => |items|
    case _ => 0
  }

  /** The text. */
  function Show(json: Json, v: Spaced): string
    decreases v, Breadth(v) + 1
  {
    match v
    case Quoted(text) => "<|\"|>" + text + "<|\"|>"
    case Bare(atom) => json.show(atom)
    case Braced(gap, fields) => "{" + ((if fields == [] then gap else ShowFields(json, v, 0)) + "}")
    case Bracketed(gap, items) => "[" + ((if items == [] then gap else ShowItems(json, v, 0)) + "]")
  }

  function ShowFields(json: Json, v: Spaced, i: nat): string
    requires v.Braced? && i < |v.fields|
    decreases v, |v.fields| - i
  {
    var f, more := v.fields[i], if i + 1 < |v.fields| then "," + ShowFields(json, v, i + 1) else "";
    f.ahead + (f.key + f.beforeColon + ":" + (f.afterColon + (Show(json, f.value) + (f.behind + more))))
  }

  function ShowItems(json: Json, v: Spaced, i: nat): string
    requires v.Bracketed? && i < |v.items|
    decreases v, |v.items| - i
  {
    var x, more := v.items[i], if i + 1 < |v.items| then "," + ShowItems(json, v, i + 1) else "";
    x.ahead + (Show(json, x.value) + (x.behind + more))
  }

  /** What the text means. */
  function Meaning(v: Spaced): Value {
    match v
    case Quoted(text) => Str(text)
    case Bare(atom) => Scalar(atom)
    case Braced(_, fields) =>
      Obj(seq(|fields|, i requires 0 <= i < |fields| => Field(fields[i].key, Meaning(fields[i].value))))
    case Bracketed(_, items) => Arr(seq(|items|, i requires 0 <= i < |items| => Meaning(items[i].value)))
  }

  /** A scalar text that does not end early and looks like no other kind of value. */
  predicate BareText(raw: string) {
    && raw != "" && Tight(raw)
    && (forall i | 0 <= i < |raw| :: raw[i] != ',' && raw[i] != '}' && raw[i] != ']')
    && raw[0] != '{' && raw[0] != '[' && raw[0] != '<'
  }

  /** Blank gaps, distinct names, strings without the quote marker, and scalars that the JSON
      library reads back. */
  predicate LaidOut(json: Json, v: Spaced) {
    match v
    case Quoted(text) => Find(text, "<|\"|>").None?
    case Bare(atom) => BareText(json.show(atom)) && json.read(json.show(atom)) == Some(atom)
    case Braced(gap, fields) =>
      && Blank(gap)
      && (forall i, k | 0 <= i < k < |fields| :: fields[i].key != fields[k].key)
      && (forall i | 0 <= i < |fields| :: GapsBlank(fields[i]) && LaidOut(json, fields[i].value))
    case Bracketed(gap, items) =>
      && Blank(gap)
      && (forall i | 0 <= i < |items| ::
            Blank(items[i].ahead) && Blank(items[i].behind) && LaidOut(json, items[i].value))
  }

  predicate GapsBlank(f: SpacedField) {
    Blank(f.ahead) && Name(f.key) && Blank(f.beforeColon) && Blank(f.afterColon) && Blank(f.behind)
  }

  /** What a parse of the text in front of `tail` has to be. A scalar takes the white space
      behind it along. */
  predicate ReadsBack(v: Spaced, tail: string, r: Parsed) {
    && r.Ok? && r.value == Meaning(v) && SkipSpace(r.rest) == SkipSpace(tail)
    && (!v.Bare? ==> r.rest == tail)
  }

  // ---- Scalars ----

  lemma {:induction false} SkipSplits(tail: string, rest: string) returns (gap: string)
    requires rest == SkipSpace(tail)
    ensures Blank(gap) && tail == gap + rest
  {
    gap := "";
    if tail != "" && AsciiSpace(tail[0]) {
      var more := SkipSplits(tail[1..], rest);
      gap := [tail[0]] + more;
      BlankChar(tail[0]);
      assert [tail[0]][0] == tail[0] && gap[1..] == more;
    }
  }

  lemma ScalarIs(json: Json, t: string, end: nat, raw: string, atom: Atom, rest: string)
    requires ScalarEnd(t) == end && Trim(t[..end]) == raw && raw != "" && json.read(raw) == Some(atom)
    requires rest == t[end..]
    ensures ParseScalar(json, t) == Ok(Scalar(atom), rest)
  {
  }

  lemma BareEnds(raw: string, gap: string, rest: string, t: string, body: string)
    requires BareText(raw) && Blank(gap) && Closed(rest) && body == raw + gap && t == body + rest
    ensures ScalarEnd(t) == |body| && t[..|body|] == body && t[|body|..] == rest && Trim(body) == raw
  {
    ScalarEndsAtTail(body, rest);
    TrimBlank("", raw, gap, body);
  }

  lemma BareRead(json: Json, atom: Atom, raw: string, tail: string, t: string, rest: string)
    requires BareText(raw) && json.read(raw) == Some(atom) && t == raw + tail
    requires rest == SkipSpace(tail) && Closed(rest)
    ensures ParseValue(json, t) == Ok(Scalar(atom), rest)
  {
    var gap := SkipSplits(tail, rest);
    assert t == (raw + gap) + rest && t[0] == raw[0];
    FirstShows(raw);
    ReadsScalar(json, t);
    BareEnds(raw, gap, rest, t, raw + gap);
    ScalarIs(json, t, |raw + gap|, raw, atom, rest);
  }

  lemma FirstShows(raw: string)
    requires raw != "" && Tight(raw)
    ensures !AsciiSpace(raw[0])
  {
  }

  // ---- Objects and arrays ----

  lemma SkipTo(w: string, s: string, text: string)
    requires Blank(w) && text == w + s && Solid(s)
    ensures SkipSpace(text) == s
  {
    BlankSkipped(w, s);
  }

  /** What follows field `i`, behind the white space after its value. */
  function BehindField(json: Json, v: Spaced, i: nat, tail: string): (s: string)
    requires v.Braced? && i < |v.fields|
    ensures s != "" && Delimiter(s[0]) && Solid(s)
  {
    if i + 1 < |v.fields| then "," + (ShowFields(json, v, i + 1) + "}" + tail) else "}" + tail
  }

  function BehindItem(json: Json, v: Spaced, i: nat, tail: string): (s: string)
    requires v.Bracketed? && i < |v.items|
    ensures s != "" && Delimiter(s[0]) && Solid(s)
  {
    if i + 1 < |v.items| then "," + (ShowItems(json, v, i + 1) + "]" + tail) else "]" + tail
  }

  lemma TailMoves(a: string, b: string, c: string, d: string, e: string, more: string, tail: string)
    ensures a + (b + (c + (d + (e + more)))) + tail == a + (b + (c + (d + (e + (more + tail)))))
  {
    assert e + more + tail == e + (more + tail);
    assert d + (e + more) + tail == d + (e + more + tail);
  }

  lemma FieldText(json: Json, v: Spaced, i: nat, tail: string, after: string, inner: string, text: string,
                  shown: string)
    requires v.Braced? && i < |v.fields| && after == BehindField(json, v, i, tail) && shown == ShowFields(json, v, i)
    requires var f := v.fields[i]; inner == Show(json, f.value) + (f.behind + after)
    requires var f := v.fields[i]; text == f.key + f.beforeColon + ":" + (f.afterColon + inner)
    ensures shown + "}" + tail == v.fields[i].ahead + text
  {
    var f, more := v.fields[i], if i + 1 < |v.fields| then "," + ShowFields(json, v, i + 1) else "";
    assert more + ("}" + tail) == after;
    TailMoves(f.ahead, f.key + f.beforeColon + ":", f.afterColon, Show(json, f.value), f.behind, more, "}" + tail);
    assert shown + "}" + tail == shown + ("}" + tail);
  }

  lemma KeyFirst(f: SpacedField, inner: string, text: string)
    requires Name(f.key) && text == f.key + f.beforeColon + ":" + (f.afterColon + inner)
    ensures Solid(text) && text[0] != '}'
  {
    NamesAreValid(f.key);
    assert text[0] == f.key[0];
  }

  lemma ItemText(json: Json, v: Spaced, i: nat, tail: string, inner: string)
    requires v.Bracketed? && i < |v.items|
    requires var x := v.items[i]; inner == Show(json, x.value) + (x.behind + BehindItem(json, v, i, tail))
    ensures ShowItems(json, v, i) + "]" + tail == v.items[i].ahead + inner
  {
  }

  function FieldsOf(v: Spaced): seq<Field>
    requires v.Braced?
  {
    Meaning(v).fields
  }

  function ItemsOf(v: Spaced): seq<Value>
    requires v.Bracketed?
  {
    Meaning(v).items
  }

  lemma NewKey(json: Json, v: Spaced, i: nat)
    requires v.Braced? && i < |v.fields| && LaidOut(json, v)
    ensures |FieldsOf(v)| == |v.fields| && !HasKey(FieldsOf(v)[..i], v.fields[i].key)
    ensures FieldsOf(v)[i] == Field(v.fields[i].key, Meaning(v.fields[i].value))
  {
  }

  /** A value reads back in front of what closes it. */
  lemma BeforeGap(v: Spaced, gap: string, after: string, r: Parsed)
    requires Blank(gap) && Solid(after) && ReadsBack(v, gap + after, r)
    ensures r == Ok(Meaning(v), r.rest) && SkipSpace(r.rest) == after
  {
    SkipTo(gap, after, gap + after);
  }

  /** The text of one field, its value read. */
  lemma OneField(json: Json, v: Spaced, i: nat, after: string, inner: string, text: string, r: Parsed)
    requires v.Braced? && i < |v.fields| && LaidOut(json, v) && Solid(after)
    requires var f := v.fields[i]; text == f.key + f.beforeColon + ":" + (f.afterColon + inner)
    requires r == ParseValue(json, inner) && ReadsBack(v.fields[i].value, v.fields[i].behind + after, r)
    ensures |FieldsOf(v)| == |v.fields|
    ensures ParseField(json, text, FieldsOf(v)[..i]) == Ok(Obj(FieldsOf(v)[..i + 1]), after)
  {
    var f, done := v.fields[i], FieldsOf(v);
    assert GapsBlank(f);
    NewKey(json, v, i);
    BeforeGap(f.value, f.behind, after, r);
    FieldRead(json, f.key, f.beforeColon, f.afterColon, inner, done[..i], Meaning(f.value), r.rest, text, after);
    PrefixGrows(done, i);
  }

  lemma ClosedBehind(gap: string, after: string)
    requires Blank(gap) && Solid(after) && Delimiter(after[0])
    ensures Closed(SkipSpace(gap + after))
  {
    SkipTo(gap, after, gap + after);
  }

  /** The fields from index `i` on, and what follows the object. */
  lemma {:induction false} SpacedFields(json: Json, v: Spaced, i: nat, tail: string, text: string, r: Parsed)
    requires v.Braced? && i < |v.fields| && LaidOut(json, v) && |FieldsOf(v)| == |v.fields|
    requires text == SkipSpace(ShowFields(json, v, i) + "}" + tail) && r == ParseFields(json, text, FieldsOf(v)[..i])
    ensures r == Ok(Meaning(v), tail)
    decreases v, |v.fields| - i
  {
    var f, after := v.fields[i], BehindField(json, v, i, tail);
    var inner := Show(json, f.value) + (f.behind + after);
    var shown := f.key + f.beforeColon + ":" + (f.afterColon + inner);
    assert GapsBlank(f);
    FieldText(json, v, i, tail, after, inner, shown, ShowFields(json, v, i));
    KeyFirst(f, inner, shown);
    SkipTo(f.ahead, shown, ShowFields(json, v, i) + "}" + tail);
    ClosedBehind(f.behind, after);
    SpacedBack(json, f.value, f.behind + after, inner, ParseValue(json, inner));
    OneField(json, v, i, after, inner, shown, ParseValue(json, inner));
    FieldsStep(json, shown, FieldsOf(v)[..i], Obj(FieldsOf(v)[..i + 1]), after);
    if i + 1 == |v.fields| {
      PrefixGrows(FieldsOf(v), i);
      assert after[1..] == tail;
    } else {
      assert after[1..] == ShowFields(json, v, i + 1) + "}" + tail;
      SpacedFields(json, v, i + 1, tail, SkipSpace(after[1..]), r);
    }
  }

  lemma {:induction false} SpacedItems(json: Json, v: Spaced, i: nat, tail: string, text: string, r: Parsed)
    requires v.Bracketed? && i < |v.items| && LaidOut(json, v) && |ItemsOf(v)| == |v.items|
    requires SkipSpace(text) == SkipSpace(ShowItems(json, v, i) + "]" + tail)
    requires r == ParseItems(json, text, ItemsOf(v)[..i])
    ensures r == Ok(Meaning(v), tail)
    decreases v, |v.items| - i
  {
    var x, after := v.items[i], BehindItem(json, v, i, tail);
    var inner := Show(json, x.value) + (x.behind + after);
    ItemText(json, v, i, tail, inner);
    ClosedBehind(x.behind, after);
    SpacedBack(json, x.value, x.behind + after, inner, ParseValue(json, inner));
    BlankBefore(json, x.ahead, inner);
    SameSkipped(json, text, x.ahead + inner);
    BeforeGap(x.value, x.behind, after, ParseValue(json, inner));
    ItemsIs(json, text, ItemsOf(v)[..i], Meaning(x.value), ParseValue(json, inner).rest, after);
    PrefixGrows(ItemsOf(v), i);
    if i + 1 == |v.items| {
      assert after[1..] == tail;
    } else {
      assert after[1..] == ShowItems(json, v, i + 1) + "]" + tail;
      SpacedItems(json, v, i + 1, tail, after[1..], r);
    }
  }

  lemma ItemsIs(json: Json, s: string, items: seq<Value>, value: Value, rest: string, after: string)
    requires ParseValue(json, s) == Ok(value, rest) && SkipSpace(rest) == after && Solid(after)
    ensures ParseItems(json, s, items) ==
            if after[0] == ']' then Ok(Arr(items + [value]), after[1..])
            else if after[0] != ',' then Err(Expected(','))
            else ParseItems(json, after[1..], items + [value])
  {
  }

  lemma Opened(json: Json, open: char, s: string, text: string)
    requires text == [open] + s && (open == '{' || open == '[')
    ensures ParseValue(json, text) == if open == '{' then ParseObject(json, text) else ParseArray(json, text)
    ensures text[1..] == s
  {
    assert text[0] == open;
    assert SkipSpace(text) == text;
    assert QUOTE[0] == '<';
    assert !StartsWith(text, QUOTE);
  }

  lemma FieldsOpen(json: Json, v: Spaced, tail: string, body: string, text: string)
    requires v.Braced? && v.fields != [] && LaidOut(json, v)
    requires body == ShowFields(json, v, 0) + "}" + tail && text == ['{'] + body
    ensures ParseObject(json, text) == ParseFields(json, SkipSpace(body), [])
  {
    var f := v.fields[0];
    var after := BehindField(json, v, 0, tail);
    var inner := Show(json, f.value) + (f.behind + after);
    var shown := f.key + f.beforeColon + ":" + (f.afterColon + inner);
    assert GapsBlank(f);
    FieldText(json, v, 0, tail, after, inner, shown, ShowFields(json, v, 0));
    KeyFirst(f, inner, shown);
    SkipTo(f.ahead, shown, body);
    assert text[1..] == body;
  }

  lemma FirstOf(json: Json, v: Spaced, text: string)
    requires LaidOut(json, v) && text == Show(json, v)
    ensures Solid(text) && text[0] != ']'
  {
    if v.Bare? { FirstShows(text); }
  }

  lemma ItemsOpen(json: Json, v: Spaced, tail: string, body: string, text: string)
    requires v.Bracketed? && v.items != [] && LaidOut(json, v)
    requires body == ShowItems(json, v, 0) + "]" + tail && text == ['['] + body
    ensures ParseArray(json, text) == ParseItems(json, SkipSpace(body), [])
  {
    var x := v.items[0];
    var first := Show(json, x.value);
    var inner := first + (x.behind + BehindItem(json, v, 0, tail));
    ItemText(json, v, 0, tail, inner);
    FirstOf(json, x.value, first);
    assert inner[0] == first[0];
    SkipTo(x.ahead, inner, body);
    assert text[1..] == body;
  }

  lemma EmptyBack(json: Json, v: Spaced, tail: string, body: string, text: string)
    requires LaidOut(json, v)
    requires (v.Braced? && v.fields == [] && body == v.gap + ("}" + tail) && text == ['{'] + body) ||
             (v.Bracketed? && v.items == [] && body == v.gap + ("]" + tail) && text == ['['] + body)
    ensures ParseValue(json, text) == Ok(Meaning(v), tail)
  {
    var close := if v.Braced? then "}" else "]";
    SkipTo(v.gap, close + tail, body);
    Opened(json, if v.Braced? then '{' else '[', body, text);
    assert (close + tail)[1..] == tail;
    if v.Braced? { assert FieldsOf(v) == []; } else { assert ItemsOf(v) == []; }
  }

  lemma {:induction false} BracedBack(json: Json, v: Spaced, tail: string, text: string)
    requires v.Braced? && LaidOut(json, v) && text == Show(json, v) + tail
    ensures ParseValue(json, text) == Ok(Meaning(v), tail)
    decreases v, Breadth(v) + 1
  {
    var body := (if v.fields == [] then v.gap else ShowFields(json, v, 0)) + "}" + tail;
    assert text == ['{'] + body;
    if v.fields == [] {
      assert body == v.gap + ("}" + tail);
      EmptyBack(json, v, tail, body, text);
    } else {
      Opened(json, '{', body, text);
      FieldsOpen(json, v, tail, body, text);
      assert FieldsOf(v)[..0] == [];
      SpacedFields(json, v, 0, tail, SkipSpace(body), ParseFields(json, SkipSpace(body), []));
    }
  }

  lemma {:induction false} BracketedBack(json: Json, v: Spaced, tail: string, text: string)
    requires v.Bracketed? && LaidOut(json, v) && text == Show(json, v) + tail
    ensures ParseValue(json, text) == Ok(Meaning(v), tail)
    decreases v, Breadth(v) + 1
  {
    var body := (if v.items == [] then v.gap else ShowItems(json, v, 0)) + "]" + tail;
    assert text == ['['] + body;
    if v.items == [] {
      assert body == v.gap + ("]" + tail);
      EmptyBack(json, v, tail, body, text);
    } else {
      Opened(json, '[', body, text);
      ItemsOpen(json, v, tail, body, text);
      SkipTwice(body);
      assert ItemsOf(v)[..0] == [];
      SpacedItems(json, v, 0, tail, SkipSpace(body), ParseItems(json, SkipSpace(body), []));
    }
  }

  /** The text of a value, and what follows it. */
  lemma {:induction false} SpacedBack(json: Json, v: Spaced, tail: string, text: string, r: Parsed)
    requires LaidOut(json, v) && (v.Bare? ==> Closed(SkipSpace(tail)))
    requires text == Show(json, v) + tail && r == ParseValue(json, text)
    ensures ReadsBack(v, tail, r)
    decreases v, Breadth(v) + 2
  {
    match v
    case Quoted(s) =>
      StringBack(json, s, tail);
    case Bare(atom) =>
      BareRead(json, atom, json.show(atom), tail, text, SkipSpace(tail));
      SkipTwice(tail);
    case Braced(_, _) =>
      BracedBack(json, v, tail, text);
    case Bracketed(_, _) =>
      BracketedBack(json, v, tail, text);
  }

  // ---- What it comes to ----

  lemma CompleteIs(json: Json, text: string, v: Value, rest: string)
    requires ParseValue(json, text) == Ok(v, rest)
    ensures ParseComplete(json, text) == if SkipSpace(rest) == "" then Success(v) else Failure(UnexpectedSuffix)
  {
  }

  lemma SpacedParse(json: Json, w: string, v: Spaced, tail: string, text: string, input: string) returns (rest: string)
    requires LaidOut(json, v) && Blank(w) && (v.Bare? ==> Closed(SkipSpace(tail)))
    requires text == Show(json, v) + tail && input == w + text
    ensures ParseValue(json, input) == Ok(Meaning(v), rest) && SkipSpace(rest) == SkipSpace(tail)
  {
    var r := ParseValue(json, text);
    SpacedBack(json, v, tail, text, r);
    BlankBefore(json, w, text);
    rest := r.rest;
  }

  /** However a value is laid out, its text reads back as the value. With more text behind it
      the parse fails, exactly when that text is not blank; behind a scalar it has to begin
      with a delimiter, or it would be part of the scalar. */
  lemma SpacedRoundTrip(json: Json, w: string, v: Spaced, gap: string, more: string)
    requires LaidOut(json, v) && Blank(w) && Blank(gap)
    requires v.Bare? ==> more == "" || more[0] == ',' || more[0] == '}' || more[0] == ']'
    ensures ParseComplete(json, w + Show(json, v) + (gap + more)) ==
            if Blank(more) then Success(Meaning(v)) else Failure(UnexpectedSuffix)
  {
    var tail, input := gap + more, w + Show(json, v) + (gap + more);
    assert input == w + (Show(json, v) + tail);
    BlankSkipped(gap, more);
    if v.Bare? { ClosedTail(more); }
    var rest := SpacedParse(json, w, v, tail, Show(json, v) + tail, input);
    CompleteIs(json, input, Meaning(v), rest);
    AllSkipped(more);
  }

  lemma ClosedTail(more: string)
    requires more == "" || more[0] == ',' || more[0] == '}' || more[0] == ']'
    ensures Closed(SkipSpace(more))
  {
  }

  /** A value that prints and reads back. */
  predicate Readable(json: Json, v: Value) {
    WellFormed(v) && AtomsRead(json, v)
  }

  lemma FieldsFit(json: Json, v: Spaced, fields: seq<Field>)
    requires v.Braced? && LaidOut(json, v) && fields == FieldsOf(v)
    requires forall i | 0 <= i < |v.fields| :: Readable(json, Meaning(v.fields[i].value))
    ensures Readable(json, Obj(fields))
  {
    assert |fields| == |v.fields|;
    forall i | 0 <= i < |fields|
      ensures fields[i].key == v.fields[i].key && ValidName(fields[i].key) && Readable(json, fields[i].value)
    {
      assert GapsBlank(v.fields[i]) && Readable(json, Meaning(v.fields[i].value));
      NamesAreValid(v.fields[i].key);
    }
  }

  lemma ItemsFit(json: Json, v: Spaced, items: seq<Value>)
    requires v.Bracketed? && items == ItemsOf(v)
    requires forall i | 0 <= i < |v.items| :: Readable(json, Meaning(v.items[i].value))
    ensures Readable(json, Arr(items))
  {
    assert |items| == |v.items|;
    forall i | 0 <= i < |items| ensures Readable(json, items[i]) {
      assert Readable(json, Meaning(v.items[i].value));
    }
  }

  lemma BareIsScalar(raw: string)
    requires BareText(raw)
    ensures ScalarText(raw)
  {
    TrimStartNone(raw);
    TrimEndBlank(raw, "");
    assert raw + "" == raw;
  }

  lemma BareFits(json: Json, atom: Atom, raw: string)
    requires raw == json.show(atom) && ScalarText(raw) && json.read(raw) == Some(atom)
    ensures Readable(json, Scalar(atom))
  {
  }

  lemma {:induction false} MeaningFits(json: Json, v: Spaced, m: Value)
    requires LaidOut(json, v) && m == Meaning(v)
    ensures Readable(json, m)
  {
    match v
    case Quoted(_) =>
    case Bare(atom) =>
      var raw := json.show(atom);
      BareIsScalar(raw);
      BareFits(json, atom, raw);
    case Braced(_, fields) =>
      forall i | 0 <= i < |fields| ensures Readable(json, Meaning(fields[i].value)) {
        MeaningFits(json, fields[i].value, Meaning(fields[i].value));
      }
      FieldsFit(json, v, m.fields);
    case Bracketed(_, items) =>
      forall i | 0 <= i < |items| ensures Readable(json, Meaning(items[i].value)) {
        MeaningFits(json, items[i].value, Meaning(items[i].value));
      }
      ItemsFit(json, v, m.items);
  }

  /** White space leaves the parse of a print as it is. */
  lemma SpacingIsInvisible(json: Json, w: string, v: Spaced, gap: string)
    requires LaidOut(json, v) && Blank(w) && Blank(gap)
    ensures ParseComplete(json, w + Show(json, v) + gap) == ParseComplete(json, Print(json, Meaning(v)))
  {
    SpacedRoundTrip(json, w, v, gap, "");
    assert gap + "" == gap;
    MeaningFits(json, v, Meaning(v));
    RoundTrip(json, Meaning(v));
  }

  /** Behind a scalar other text can be part of it, and the parse succeeds. */
  lemma ScalarRunsOn() returns (json: Json, v: Spaced)
    ensures LaidOut(json, v) && v.Bare? && !Blank("2") && ParseComplete(json, Show(json, v) + "2").Success?
  {
    json := Json((s: string) => Some(Number(s)), (a: Atom) => if a.Number? && a.digits == "12" then "12" else "1");
    v := Bare(Number("1"));
    assert Show(json, v) + "2" == "12" + "" && Blank("");
    BareRead(json, Number("12"), "12", "", "12", "");
    assert "2"[0] == '2';
  }

  /** The names that can be keys. */
  lemma KeysExact(json: Json, key: string)
    ensures ParseComplete(json, "{" + key + ":<|\"|><|\"|>}") == Success(Obj([Field(key, Str(""))])) <==> Name(key)
  {
    var text := "{" + key + ":<|\"|><|\"|>}";
    if Name(key) {
      var v := Braced("", [SpacedField("", key, "", "", Quoted(""), "")]);
      SpacedRoundTrip(json, "", v, "", "");
      assert Meaning(v).fields == [Field(key, Str(""))];
      KeyText(json, key, v, text);
    } else {
      KeyIsName(json, key, text);
    }
  }

  lemma KeyIsName(json: Json, key: string, text: string)
    ensures ParseComplete(json, text) == Success(Obj([Field(key, Str(""))])) ==> Name(key)
  {
    ParsedWellFormed(json, text);
    NamesAreValid(key);
    var fields := [Field(key, Str(""))];
    assert WellFormed(Obj(fields)) ==> ValidName(fields[0].key);
  }

  lemma KeyText(json: Json, key: string, v: Spaced, text: string)
    requires v == Braced("", [SpacedField("", key, "", "", Quoted(""), "")])
    requires text == "{" + key + ":<|\"|><|\"|>}"
    ensures "" + Show(json, v) + ("" + "") == text
  {
    var shown := ShowFields(json, v, 0);
    assert Show(json, v.fields[0].value) == "<|\"|><|\"|>";
    assert shown == key + ":" + "<|\"|><|\"|>";
  }
}
