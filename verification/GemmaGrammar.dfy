/** The argument language of Gemma tool calls: its parse, its print and the round trip. */
module GemmaGrammar {
  import opened Model
  import opened Text

  const QUOTE := "<|\"|>"

  /** What the JSON library makes of an unquoted scalar. */
  datatype Atom = Null | Bool(flag: bool) | Number(digits: string)

  datatype Value =
    | Str(text: string)
    | Scalar(atom: Atom)
    | Obj(fields: seq<Field>)
    | Arr(items: seq<Value>)

  /** Object fields keep their insertion order. */
  datatype Field = Field(key: string, value: Value)

  datatype Error =
    | UnexpectedSuffix | UnexpectedEnd | UnterminatedString | MissingColon
    | InvalidName(name: string) | Duplicate(key: string)
    | EmptyArgument | InvalidScalar(raw: string) | Expected(c: char)

  /** A result and the input left after it. */
  datatype Parsed = Ok(value: Value, rest: string) | Err(error: Error)

  datatype Outcome = Success(value: Value) | Failure(error: Error)

  /** The JSON library: `read` answers with a null, a boolean or a number and refuses
      everything else; `show` writes one of those. */
  datatype Json = Json(read: string -> Option<Atom>, show: Atom -> string)

  predicate AsciiSpace(c: char) {
    c == ' ' || c == '\t' || c == '\n' || c == '\U{0C}' || c == '\r'
  }

  predicate NameChar(c: char) {
    'a' <= c <= 'z' || 'A' <= c <= 'Z' || '0' <= c <= '9' || c == '_' || c == '-'
  }

  predicate ValidName(name: string) {
    name != "" && forall i | 0 <= i < |name| :: NameChar(name[i])
  }

  predicate Delimiter(c: char) {
    c == ',' || c == '}' || c == ']'
  }

  function SkipSpace(s: string): (r: string)
    ensures |r| <= |s|
    ensures r != "" ==> !AsciiSpace(r[0])
  {
    if s != "" && AsciiSpace(s[0]) then SkipSpace(s[1..]) else s
  }

  /** The index of the first delimiter, or the length. */
  function ScalarEnd(s: string): (end: nat)
    ensures end <= |s|
    ensures forall i | 0 <= i < end :: !Delimiter(s[i])
    ensures end < |s| ==> Delimiter(s[end])
  {
    if s == "" || Delimiter(s[0]) then 0 else 1 + ScalarEnd(s[1..])
  }

  predicate HasKey(fields: seq<Field>, key: string) {
    exists i | 0 <= i < |fields| :: fields[i].key == key
  }

  function ParseValue(json: Json, s: string): (r: Parsed)
    ensures r.Ok? ==> |r.rest| < |s|
    decreases |s|, 2
  {
    var t := SkipSpace(s);
    if StartsWith(t, QUOTE) then ParseString(t)
    else if t == "" then Err(UnexpectedEnd)
    else if t[0] == '{' then ParseObject(json, t)
    else if t[0] == '[' then ParseArray(json, t)
    else ParseScalar(json, t)
  }

  function ParseString(t: string): (r: Parsed)
    requires StartsWith(t, QUOTE)
    ensures r.Ok? ==> |r.rest| < |t|
  {
    var body := t[|QUOTE|..];
    match Find(body, QUOTE)
    case None => Err(UnterminatedString)
    case Some(end) => Ok(Str(body[..end]), body[end + |QUOTE|..])
  }

  function ParseScalar(json: Json, t: string): (r: Parsed)
    ensures r.Ok? ==> |r.rest| < |t|
  {
    var end := ScalarEnd(t);
    var raw := Trim(t[..end]);
    if raw == "" then Err(EmptyArgument)
    else match json.read(raw)
      case None => Err(InvalidScalar(raw))
      case Some(atom) => Ok(Scalar(atom), t[end..])
  }

  function ParseObject(json: Json, t: string): (r: Parsed)
    requires t != "" && t[0] == '{'
    ensures r.Ok? ==> |r.rest| < |t|
    decreases |t|, 1
  {
    var s := SkipSpace(t[1..]);
    if s != "" && s[0] == '}' then Ok(Obj([]), s[1..]) else ParseFields(json, s, [])
  }

  /** Key, colon and value: the object so far with that field added. */
  function ParseField(json: Json, s: string, fields: seq<Field>): (r: Parsed)
    ensures r.Ok? ==> |r.rest| < |s| && r.value.Obj?
    decreases |s|, 3
  {
    match Find(s, ":")
    case None => Err(MissingColon)
    case Some(end) =>
      var key := Trim(s[..end]);
      if !ValidName(key) then Err(InvalidName(key))
      else match ParseValue(json, s[end + 1..])
        case Err(e) => Err(e)
        case Ok(value, rest) =>
          if HasKey(fields, key) then Err(Duplicate(key))
          else Ok(Obj(fields + [Field(key, value)]), SkipSpace(rest))
  }

  /** The object loop after `fields`. */
  function ParseFields(json: Json, s: string, fields: seq<Field>): (r: Parsed)
    ensures r.Ok? ==> |r.rest| < |s|
    decreases |s|, 4
  {
    match ParseField(json, s, fields)
    case Err(e) => Err(e)
    case Ok(v, w) =>
      if w != "" && w[0] == '}' then Ok(v, w[1..])
      else if w == "" || w[0] != ',' then Err(Expected(','))
      else ParseFields(json, SkipSpace(w[1..]), v.fields)
  }

  function ParseArray(json: Json, t: string): (r: Parsed)
    requires t != "" && t[0] == '['
    ensures r.Ok? ==> |r.rest| < |t|
    decreases |t|, 1
  {
    var s := SkipSpace(t[1..]);
    if s != "" && s[0] == ']' then Ok(Arr([]), s[1..]) else ParseItems(json, s, [])
  }

  /** The array loop after `items`. */
  function ParseItems(json: Json, s: string, items: seq<Value>): (r: Parsed)
    ensures r.Ok? ==> |r.rest| < |s|
    decreases |s|, 3
  {
    match ParseValue(json, s)
    case Err(e) => Err(e)
    case Ok(value, rest) =>
      var w := SkipSpace(rest);
      if w != "" && w[0] == ']' then Ok(Arr(items + [value]), w[1..])
      else if w == "" || w[0] != ',' then Err(Expected(','))
      else ParseItems(json, w[1..], items + [value])
  }

  function ParseComplete(json: Json, input: string): Outcome {
    match ParseValue(json, input)
    case Err(e) => Failure(e)
    case Ok(value, rest) => if SkipSpace(rest) == "" then Success(value) else Failure(UnexpectedSuffix)
  }

  // ---- The canonical print ----

  function Width(v: Value): nat {
    match v
    case Obj(fields) => |fields|
    case Arr(items) => |items|
    case _ => 0
  }

  function Print(json: Json, v: Value): string
    decreases v, Width(v) + 1
  {
    match v
    case Str(text) => QUOTE + text + QUOTE
    case Scalar(atom) => json.show(atom)
    case Obj(fields) => "{" + (if fields == [] then "" else PrintFields(json, v, 0)) + "}"
    case Arr(items) => "[" + (if items == [] then "" else PrintItems(json, v, 0)) + "]"
  }

  /** The fields from index `i` on. */
  function PrintFields(json: Json, v: Value, i: nat): string
    requires v.Obj? && i < |v.fields|
    decreases v, |v.fields| - i
  {
    v.fields[i].key + ":" + Print(json, v.fields[i].value) +
      (if i + 1 < |v.fields| then "," + PrintFields(json, v, i + 1) else "")
  }

  function PrintItems(json: Json, v: Value, i: nat): string
    requires v.Arr? && i < |v.items|
    decreases v, |v.items| - i
  {
    Print(json, v.items[i]) + (if i + 1 < |v.items| then "," + PrintItems(json, v, i + 1) else "")
  }

  predicate Unmarked(text: string) {
    Find(text, QUOTE).None?
  }

  predicate DistinctKeys(fields: seq<Field>) {
    forall i, k | 0 <= i < k < |fields| :: fields[i].key != fields[k].key
  }

  /** Strings free of the quote marker, valid and distinct keys, at every depth. */
  predicate WellFormed(v: Value) {
    match v
    case Str(text) => Unmarked(text)
    case Scalar(_) => true
    case Obj(fields) =>
      && DistinctKeys(fields)
      && forall i | 0 <= i < |fields| :: ValidName(fields[i].key) && WellFormed(fields[i].value)
    case Arr(items) => forall i | 0 <= i < |items| :: WellFormed(items[i])
  }

  /** A scalar text that neither ends early nor looks like another kind of value. */
  predicate ScalarText(raw: string) {
    && raw != "" && Trim(raw) == raw && (forall i | 0 <= i < |raw| :: !Delimiter(raw[i]))
    && raw[0] != '{' && raw[0] != '[' && raw[0] != '<'
  }

  predicate AtomReads(json: Json, atom: Atom) {
    ScalarText(json.show(atom)) && json.read(json.show(atom)) == Some(atom)
  }

  predicate AtomsRead(json: Json, v: Value) {
    match v
    case Str(_) => true
    case Scalar(atom) => AtomReads(json, atom)
    case Obj(fields) => forall i | 0 <= i < |fields| :: AtomsRead(json, fields[i].value)
    case Arr(items) => forall i | 0 <= i < |items| :: AtomsRead(json, items[i])
  }

  predicate Closed(tail: string) {
    tail == "" || Delimiter(tail[0])
  }

  // ---- The round trip ----

  /** The marker has no border: a marker that overlaps an appended one would put
      '<' inside it. */
  lemma MarkerEndsString(text: string, tail: string)
    requires Unmarked(text)
    ensures Find(text + QUOTE + tail, QUOTE) == Some(|text|)
  {
    var s := text + QUOTE + tail;
    assert s[|text|..|text| + |QUOTE|] == QUOTE;
    forall k | 0 <= k < |text| ensures !OccursAt(s, QUOTE, k) {
      assert s == text + (QUOTE + tail);
      if k + |QUOTE| <= |text| {
        OccursInPrefix(text, QUOTE + tail, QUOTE, k);
      } else {
        assert s[|text|] == '<';
        assert QUOTE[|text| - k] != '<';
        assert k + |QUOTE| <= |s| ==> s[k..k + |QUOTE|][|text| - k] == s[|text|];
      }
    }
    FindIs(s, QUOTE, |text|);
  }

  lemma StringBack(json: Json, text: string, tail: string)
    requires Unmarked(text)
    ensures ParseValue(json, QUOTE + text + QUOTE + tail) == Ok(Str(text), tail)
  {
    var s := QUOTE + text + QUOTE + tail;
    var body := text + QUOTE + tail;
    assert s == QUOTE + body;
    assert s[|QUOTE|..] == body && s[0] == '<';
    assert StartsWith(s, QUOTE);
    MarkerEndsString(text, tail);
    assert body[..|text|] == text && body[|text| + |QUOTE|..] == tail;
  }

  /** A string comes back exactly when it does not hold the quote marker. */
  lemma StringRoundTrip(json: Json, text: string)
    ensures ParseComplete(json, Print(json, Str(text))) == Success(Str(text)) <==> Unmarked(text)
  {
    var s := Print(json, Str(text));
    assert s == QUOTE + text + QUOTE + "";
    if Unmarked(text) {
      StringBack(json, text, "");
    } else {
      var body := text + QUOTE;
      assert s == QUOTE + body;
      assert s[|QUOTE|..] == body && s[0] == '<';
      assert StartsWith(s, QUOTE);
      FindExtends(text, QUOTE, QUOTE);
    }
  }

  lemma {:induction false} ScalarEndsAtTail(raw: string, tail: string)
    requires forall i | 0 <= i < |raw| :: !Delimiter(raw[i])
    requires Closed(tail)
    ensures ScalarEnd(raw + tail) == |raw|
  {
    if raw == "" {
      assert raw + tail == tail;
    } else {
      assert (raw + tail)[1..] == raw[1..] + tail;
      ScalarEndsAtTail(raw[1..], tail);
    }
  }

  lemma TrimmedFirst(raw: string)
    requires Trim(raw) == raw && raw != ""
    ensures !IsWhitespace(raw[0])
  {
  }

  lemma ReadsScalar(json: Json, s: string)
    requires s != "" && !AsciiSpace(s[0]) && s[0] != '{' && s[0] != '[' && s[0] != '<'
    ensures ParseValue(json, s) == ParseScalar(json, s)
  {
    assert SkipSpace(s) == s;
    assert QUOTE[0] == '<';
    assert !StartsWith(s, QUOTE);
  }

  lemma ScalarFirst(raw: string, tail: string)
    requires ScalarText(raw)
    ensures var s := raw + tail; s != "" && !AsciiSpace(s[0]) && s[0] != '{' && s[0] != '[' && s[0] != '<'
  {
    TrimmedFirst(raw);
    assert (raw + tail)[0] == raw[0];
  }

  lemma ScalarStep(json: Json, raw: string, atom: Atom, tail: string)
    requires ScalarText(raw) && json.read(raw) == Some(atom) && Closed(tail)
    ensures ParseScalar(json, raw + tail) == Ok(Scalar(atom), tail)
  {
    ScalarEndsAtTail(raw, tail);
    assert (raw + tail)[..|raw|] == raw && (raw + tail)[|raw|..] == tail;
  }

  lemma {:induction false} TrimName(name: string)
    requires forall i | 0 <= i < |name| :: NameChar(name[i])
    ensures Trim(name) == name
  {
  }

  lemma KeyBack(key: string, rest: string)
    requires ValidName(key)
    ensures var s := key + ":" + rest;
      && Find(s, ":") == Some(|key|) && Trim(s[..|key|]) == key && s[|key| + 1..] == rest
  {
    var s := key + ":" + rest;
    assert s[|key|..|key| + 1] == ":";
    forall k | 0 <= k < |key| ensures !OccursAt(s, ":", k) {
      assert s[k] == key[k];
      assert s[k..k + 1] == [key[k]];
    }
    FindIs(s, ":", |key|);
    assert s[..|key|] == key;
    TrimName(key);
  }

  lemma FreshKey(fields: seq<Field>, i: nat)
    requires i < |fields| && DistinctKeys(fields)
    ensures !HasKey(fields[..i], fields[i].key)
  {
  }

  /** Text that a parser step does not skip over. */
  predicate Solid(s: string) {
    s != "" && !AsciiSpace(s[0])
  }

  lemma FieldStep(json: Json, key: string, s: string, fields: seq<Field>, value: Value, rest: string)
    requires ValidName(key) && !HasKey(fields, key)
    requires ParseValue(json, s) == Ok(value, rest) && Solid(rest)
    ensures ParseField(json, key + ":" + s, fields) == Ok(Obj(fields + [Field(key, value)]), rest)
  {
    KeyBack(key, s);
    assert SkipSpace(rest) == rest;
  }

  lemma ItemsStep(json: Json, s: string, items: seq<Value>, value: Value, rest: string)
    requires ParseValue(json, s) == Ok(value, rest) && Solid(rest)
    ensures ParseItems(json, s, items) ==
      if rest[0] == ']' then Ok(Arr(items + [value]), rest[1..])
      else if rest[0] != ',' then Err(Expected(','))
      else ParseItems(json, rest[1..], items + [value])
  {
    assert SkipSpace(rest) == rest;
  }

  lemma OpensObject(json: Json, s: string)
    requires Solid(s)
    ensures ParseValue(json, "{" + s) == if s[0] == '}' then Ok(Obj([]), s[1..]) else ParseFields(json, s, [])
  {
    var t := "{" + s;
    assert t[0] == '{' && t[1..] == s;
    assert SkipSpace(t) == t && SkipSpace(s) == s;
    assert QUOTE[0] == '<';
    assert !StartsWith(t, QUOTE);
  }

  lemma OpensArray(json: Json, s: string)
    requires Solid(s)
    ensures ParseValue(json, "[" + s) == if s[0] == ']' then Ok(Arr([]), s[1..]) else ParseItems(json, s, [])
  {
    var t := "[" + s;
    assert t[0] == '[' && t[1..] == s;
    assert SkipSpace(t) == t && SkipSpace(s) == s;
    assert QUOTE[0] == '<';
    assert !StartsWith(t, QUOTE);
  }

  lemma ScalarSolid(raw: string)
    requires ScalarText(raw)
    ensures Solid(raw) && raw[0] != ']'
  {
    TrimmedFirst(raw);
  }

  /** What follows field `i` in the print. */
  function AfterField(json: Json, v: Value, i: nat, tail: string): string
    requires v.Obj? && i < |v.fields|
  {
    if i + 1 < |v.fields| then "," + (PrintFields(json, v, i + 1) + "}" + tail) else "}" + tail
  }

  function AfterItem(json: Json, v: Value, i: nat, tail: string): string
    requires v.Arr? && i < |v.items|
  {
    if i + 1 < |v.items| then "," + (PrintItems(json, v, i + 1) + "]" + tail) else "]" + tail
  }

  lemma PrintFieldsStep(json: Json, v: Value, i: nat, tail: string)
    requires v.Obj? && i < |v.fields|
    ensures PrintFields(json, v, i) + "}" + tail ==
      v.fields[i].key + ":" + (Print(json, v.fields[i].value) + AfterField(json, v, i, tail))
  {
  }

  lemma PrintItemsStep(json: Json, v: Value, i: nat, tail: string)
    requires v.Arr? && i < |v.items|
    ensures PrintItems(json, v, i) + "]" + tail == Print(json, v.items[i]) + AfterItem(json, v, i, tail)
  {
  }

  lemma PrintFieldsSolid(json: Json, v: Value, i: nat, tail: string)
    requires v.Obj? && i < |v.fields| && ValidName(v.fields[i].key)
    ensures var s := PrintFields(json, v, i) + "}" + tail; Solid(s) && s[0] != '}' && SkipSpace(s) == s
  {
    assert (PrintFields(json, v, i) + "}" + tail)[0] == v.fields[i].key[0];
  }

  lemma PrintItemsSolid(json: Json, v: Value, tail: string)
    requires v.Arr? && v.items != [] && AtomsRead(json, v)
    ensures var s := PrintItems(json, v, 0) + "]" + tail; Solid(s) && s[0] != ']'
  {
    if v.items[0].Scalar? { ScalarSolid(json.show(v.items[0].atom)); }
    assert (PrintItems(json, v, 0) + "]" + tail)[0] == Print(json, v.items[0])[0];
  }

  lemma PrefixGrows<T>(s: seq<T>, i: nat)
    requires i < |s|
    ensures s[..i] + [s[i]] == s[..i + 1]
    ensures i + 1 == |s| ==> s[..i + 1] == s
  {
  }

  lemma FieldBack(json: Json, v: Value, i: nat, tail: string, printed: string, after: string)
    requires v.Obj? && i < |v.fields| && WellFormed(v)
    requires printed == PrintFields(json, v, i) + "}" + tail && after == AfterField(json, v, i, tail)
    requires ParseValue(json, Print(json, v.fields[i].value) + after) == Ok(v.fields[i].value, after)
    ensures ParseField(json, printed, v.fields[..i]) == Ok(Obj(v.fields[..i + 1]), after)
  {
    var f := v.fields[i];
    PrintFieldsStep(json, v, i, tail);
    FreshKey(v.fields, i);
    FieldStep(json, f.key, Print(json, f.value) + after, v.fields[..i], f.value, after);
    PrefixGrows(v.fields, i);
    assert Field(f.key, f.value) == f;
  }

  lemma FieldsStep(json: Json, s: string, fields: seq<Field>, v: Value, w: string)
    requires ParseField(json, s, fields) == Ok(v, w) && w != "" && v.Obj?
    ensures w[0] == '}' ==> ParseFields(json, s, fields) == Ok(v, w[1..])
    ensures w[0] == ',' ==> ParseFields(json, s, fields) == ParseFields(json, SkipSpace(w[1..]), v.fields)
  {
  }

  lemma {:induction false} FieldsBack(json: Json, v: Value, i: nat, tail: string)
    requires v.Obj? && i < |v.fields| && WellFormed(v) && AtomsRead(json, v)
    ensures ParseFields(json, PrintFields(json, v, i) + "}" + tail, v.fields[..i]) == Ok(v, tail)
    decreases v, |v.fields| - i
  {
    ValueBack(json, v.fields[i].value, AfterField(json, v, i, tail));
    var printed, after := PrintFields(json, v, i) + "}" + tail, AfterField(json, v, i, tail);
    FieldBack(json, v, i, tail, printed, after);
    FieldsStep(json, printed, v.fields[..i], Obj(v.fields[..i + 1]), after);
    if i + 1 == |v.fields| {
      PrefixGrows(v.fields, i);
    } else {
      PrintFieldsSolid(json, v, i + 1, tail);
      FieldsBack(json, v, i + 1, tail);
    }
  }

  lemma {:induction false} ItemsBack(json: Json, v: Value, i: nat, tail: string)
    requires v.Arr? && i < |v.items| && WellFormed(v) && AtomsRead(json, v)
    ensures ParseItems(json, PrintItems(json, v, i) + "]" + tail, v.items[..i]) == Ok(v, tail)
    decreases v, |v.items| - i
  {
    var item, after := v.items[i], AfterItem(json, v, i, tail);
    PrintItemsStep(json, v, i, tail);
    ValueBack(json, item, after);
    ItemsStep(json, Print(json, item) + after, v.items[..i], item, after);
    PrefixGrows(v.items, i);
    if i + 1 < |v.items| {
      ItemsBack(json, v, i + 1, tail);
    }
  }

  lemma ObjectOpened(json: Json, v: Value, tail: string)
    requires v.Obj? && WellFormed(v)
    ensures ParseValue(json, Print(json, v) + tail) ==
      if v.fields == [] then Ok(v, tail) else ParseFields(json, PrintFields(json, v, 0) + "}" + tail, v.fields[..0])
  {
    if v.fields == [] {
      assert Print(json, v) + tail == "{" + ("}" + tail);
      OpensObject(json, "}" + tail);
    } else {
      var s := PrintFields(json, v, 0) + "}" + tail;
      assert Print(json, v) + tail == "{" + s;
      PrintFieldsSolid(json, v, 0, tail);
      OpensObject(json, s);
    }
  }

  lemma ArrayOpened(json: Json, v: Value, tail: string, printed: string, rest: string)
    requires v.Arr? && printed == Print(json, v) + tail
    requires rest == (if v.items == [] then "" else PrintItems(json, v, 0)) + "]" + tail
    requires Solid(rest) && (rest[0] == ']' <==> v.items == [])
    ensures ParseValue(json, printed) == if v.items == [] then Ok(v, tail) else ParseItems(json, rest, v.items[..0])
  {
    assert printed == "[" + rest;
    OpensArray(json, rest);
  }

  /** A printed value reads back as itself and leaves exactly what follows it. */
  lemma {:induction false} ValueBack(json: Json, v: Value, tail: string)
    requires WellFormed(v) && AtomsRead(json, v) && Closed(tail)
    ensures ParseValue(json, Print(json, v) + tail) == Ok(v, tail)
    decreases v, Width(v) + 1
  {
    match v
    case Str(text) =>
      StringBack(json, text, tail);
    case Scalar(atom) =>
      var raw := json.show(atom);
      ScalarStep(json, raw, atom, tail);
      ScalarFirst(raw, tail);
      ReadsScalar(json, raw + tail);
    case Obj(fields) =>
      if fields != [] {
        FieldsBack(json, v, 0, tail);
      }
      ObjectOpened(json, v, tail);
    case Arr(items) =>
      var rest := (if items == [] then "" else PrintItems(json, v, 0)) + "]" + tail;
      if items != [] {
        PrintItemsSolid(json, v, tail);
        ItemsBack(json, v, 0, tail);
      }
      ArrayOpened(json, v, tail, Print(json, v) + tail, rest);
  }

  // ---- What the parser can return ----

  predicate Good(r: Parsed) {
    r.Ok? ==> WellFormed(r.value)
  }

  /** Whatever the input, a parsed value is well formed. */
  lemma {:induction false} ParsedWellFormed(json: Json, s: string)
    ensures Good(ParseValue(json, s))
    decreases |s|, 2
  {
    var t := SkipSpace(s);
    if StartsWith(t, QUOTE) {
      ParsedUnmarked(t);
    } else if t == "" {
    } else if t[0] == '{' {
      ObjectWellFormed(json, t);
    } else if t[0] == '[' {
      ArrayWellFormed(json, t);
    } else {
      ScalarWellFormed(json, t);
    }
  }

  lemma ScalarWellFormed(json: Json, t: string)
    ensures Good(ParseScalar(json, t))
  {
  }

  lemma {:induction false} ObjectWellFormed(json: Json, t: string)
    requires t != "" && t[0] == '{'
    ensures Good(ParseObject(json, t))
    decreases |t|, 1
  {
    FieldsWellFormed(json, SkipSpace(t[1..]), []);
  }

  lemma {:induction false} ArrayWellFormed(json: Json, t: string)
    requires t != "" && t[0] == '['
    ensures Good(ParseArray(json, t))
    decreases |t|, 1
  {
    ItemsWellFormed(json, SkipSpace(t[1..]), []);
  }

  /** A string stops at the first marker, so it holds none. */
  lemma ParsedUnmarked(t: string)
    requires StartsWith(t, QUOTE)
    ensures Good(ParseString(t))
  {
    var body := t[|QUOTE|..];
    var found := Find(body, QUOTE);
    if found.Some? {
      var text, end := body[..found.value], found.value;
      assert body == text + body[end..];
      forall k | 0 <= k < |text| + 1 ensures !OccursAt(text, QUOTE, k) {
        if k + |QUOTE| <= |text| {
          OccursInPrefix(text, body[end..], QUOTE, k);
        }
      }
      FindIsNone(text, QUOTE);
    }
  }

  lemma {:induction false} FieldWellFormed(json: Json, s: string, fields: seq<Field>)
    requires WellFormed(Obj(fields))
    ensures Good(ParseField(json, s, fields))
    decreases |s|, 3
  {
    if ParseField(json, s, fields).Ok? {
      var end := Find(s, ":").value;
      ParsedWellFormed(json, s[end + 1..]);
      FieldAdded(fields, Field(Trim(s[..end]), ParseValue(json, s[end + 1..]).value));
    }
  }

  lemma {:induction false} FieldsWellFormed(json: Json, s: string, fields: seq<Field>)
    requires WellFormed(Obj(fields))
    ensures Good(ParseFields(json, s, fields))
    decreases |s|, 4
  {
    FieldWellFormed(json, s, fields);
    var p := ParseField(json, s, fields);
    if p.Err? || p.rest == "" || p.rest[0] == '}' {
    } else if p.rest[0] == ',' {
      assert p.value == Obj(p.value.fields);
      FieldsWellFormed(json, SkipSpace(p.rest[1..]), p.value.fields);
    }
  }

  lemma FieldAdded(fields: seq<Field>, f: Field)
    requires WellFormed(Obj(fields)) && WellFormed(f.value) && ValidName(f.key) && !HasKey(fields, f.key)
    ensures WellFormed(Obj(fields + [f]))
  {
    var next := fields + [f];
    forall i, k | 0 <= i < k < |next| ensures next[i].key != next[k].key {
      assert i < |fields| && next[i] == fields[i];
    }
  }

  lemma {:induction false} ItemsWellFormed(json: Json, s: string, items: seq<Value>)
    requires WellFormed(Arr(items))
    ensures Good(ParseItems(json, s, items))
    decreases |s|, 3
  {
    var p := ParseValue(json, s);
    if p.Ok? {
      ParsedWellFormed(json, s);
      assert WellFormed(Arr(items + [p.value]));
      var w := SkipSpace(p.rest);
      if w != "" && w[0] == ',' {
        ItemsWellFormed(json, w[1..], items + [p.value]);
      }
    }
  }

  /** Parsing the canonical print of a value gives the value back exactly when it is well formed. */
  lemma RoundTrip(json: Json, v: Value)
    requires AtomsRead(json, v)
    ensures ParseComplete(json, Print(json, v)) == Success(v) <==> WellFormed(v)
  {
    if WellFormed(v) {
      ValueBack(json, v, "");
      assert Print(json, v) + "" == Print(json, v);
    } else {
      ParsedWellFormed(json, Print(json, v));
    }
  }

  /** Whatever text was accepted, printing its value and parsing again is stable. */
  lemma PrintIsCanonical(json: Json, input: string)
    requires ParseComplete(json, input).Success? && AtomsRead(json, ParseComplete(json, input).value)
    ensures ParseComplete(json, Print(json, ParseComplete(json, input).value)) == ParseComplete(json, input)
  {
    var v := ParseComplete(json, input).value;
    ParsedWellFormed(json, input);
    RoundTrip(json, v);
  }
}
