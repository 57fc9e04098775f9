/** Substring search, as the streaming filters and the argument parser use it. */
module Text {
  import opened Model

  /** `word` stands in `text` at index `i`. */
  predicate OccursAt(text: string, word: string, i: int) {
    0 <= i && i + |word| <= |text| && text[i..i + |word|] == word
  }

  predicate StartsWith(text: string, word: string) {
    |word| <= |text| && text[..|word|] == word
  }

  predicate Avoids(text: string, word: string, i: int, j: int) {
    forall k :: i <= k < j ==> !OccursAt(text, word, k)
  }

  /** The leftmost occurrence at or after `i`. */
  function FindFrom(text: string, word: string, i: nat): (r: Option<nat>)
    requires i <= |text|
    ensures r.Some? ==> i <= r.value && OccursAt(text, word, r.value) && Avoids(text, word, i, r.value)
    ensures r.None? ==> Avoids(text, word, i, |text| + 1)
    decreases |text| - i
  {
    if OccursAt(text, word, i) then Some(i)
    else if i == |text| then None
    else FindFrom(text, word, i + 1)
  }

  function Find(text: string, word: string): (r: Option<nat>)
    ensures r.Some? ==> OccursAt(text, word, r.value) && Avoids(text, word, 0, r.value)
    ensures r.None? ==> Avoids(text, word, 0, |text| + 1)
  {
    FindFrom(text, word, 0)
  }

  /** The leftmost occurrence is the only index with nothing to its left. */
  lemma FindIs(text: string, word: string, i: nat)
    requires OccursAt(text, word, i) && Avoids(text, word, 0, i)
    ensures Find(text, word) == Some(i)
  {
    var r := Find(text, word);
    assert r.None? ==> !OccursAt(text, word, i);
    assert forall j | 0 <= j < i :: r != Some(j);
  }

  lemma FindIsNone(text: string, word: string)
    requires Avoids(text, word, 0, |text| + 1)
    ensures Find(text, word) == None
  {
    var r := Find(text, word);
    assert r.Some? ==> !OccursAt(text, word, r.value);
  }

  /** Where a word stands does not depend on the text that follows it. */
  lemma OccursInPrefix(text: string, more: string, word: string, i: int)
    requires i + |word| <= |text|
    ensures OccursAt(text + more, word, i) <==> OccursAt(text, word, i)
  {
    if 0 <= i {
      assert (text + more)[i..i + |word|] == text[i..i + |word|];
    }
  }

  /** Where a word stands moves with the text in front of it. */
  lemma OccursShifted(before: string, text: string, word: string, i: int)
    requires 0 <= i
    ensures OccursAt(before + text, word, |before| + i) <==> OccursAt(text, word, i)
  {
    if i + |word| <= |text| {
      assert (before + text)[|before| + i..|before| + i + |word|] == text[i..i + |word|];
    }
  }

  /** The first occurrence of a text stays the first when text is appended. */
  lemma FindExtends(text: string, more: string, word: string)
    requires Find(text, word).Some?
    ensures Find(text + more, word) == Find(text, word)
  {
    var i := Find(text, word).value;
    OccursInPrefix(text, more, word, i);
    forall j | 0 <= j < i ensures !OccursAt(text + more, word, j) {
      OccursInPrefix(text, more, word, j);
    }
    FindIs(text + more, word, i);
  }

  /** The text that a sequence of pieces makes. */
  function Joined(pieces: seq<string>): string {
    if pieces == [] then "" else Joined(pieces[..|pieces| - 1]) + pieces[|pieces| - 1]
  }

  /** Unicode White_Space, as `trim` uses it. */
  predicate IsWhitespace(c: char) {
    var u := c as int;
    || 0x09 <= u <= 0x0D || u == 0x20 || u == 0x85 || u == 0xA0 || u == 0x1680
    || 0x2000 <= u <= 0x200A || u == 0x2028 || u == 0x2029 || u == 0x202F || u == 0x205F || u == 0x3000
  }

  function TrimStart(text: string): (r: string)
    ensures |r| <= |text| && text[|text| - |r|..] == r
    ensures r != "" ==> !IsWhitespace(r[0])
  {
    if text != "" && IsWhitespace(text[0]) then TrimStart(text[1..]) else text
  }

  function TrimEnd(text: string): (r: string)
    ensures |r| <= |text| && text[..|r|] == r
    ensures r != "" ==> !IsWhitespace(r[|r| - 1])
  {
    if text != "" && IsWhitespace(text[|text| - 1]) then TrimEnd(text[..|text| - 1]) else text
  }

  function Trim(text: string): string {
    TrimEnd(TrimStart(text))
  }

  lemma {:induction false} TrimStartExtends(text: string, more: string)
    requires TrimStart(text) != ""
    ensures TrimStart(text + more) == TrimStart(text) + more
  {
    assert (text + more)[0] == text[0];
    if IsWhitespace(text[0]) {
      assert (text + more)[1..] == text[1..] + more;
      TrimStartExtends(text[1..], more);
    }
  }

  // ---- Trimming, spelled out ----

  /** Only spaces, tabs, line feeds, form feeds and carriage returns. */
  predicate Blank(w: string) {
    forall i | 0 <= i < |w| :: w[i] == ' ' || w[i] == '\t' || w[i] == '\n' || w[i] == '\U{0C}' || w[i] == '\r'
  }

  /** A visible ASCII character, or any other that is no white space. */
  predicate Shows(c: char) {
    '!' <= c <= '~' || !IsWhitespace(c)
  }

  /** Nothing to trim at either end. */
  predicate Tight(r: string) {
    r == "" || (Shows(r[0]) && Shows(r[|r| - 1]))
  }

  lemma TrimStartOne(text: string, rest: string)
    requires text != "" && Blank(text[..1]) && rest == text[1..]
    ensures TrimStart(text) == TrimStart(rest)
  {
    assert IsWhitespace(text[..1][0]);
  }

  lemma TrimStartNone(c: string)
    requires c == "" || Shows(c[0])
    ensures TrimStart(c) == c
  {
  }

  lemma {:induction false} TrimStartBlank(w: string, c: string)
    requires Blank(w) && (c == "" || Shows(c[0]))
    ensures TrimStart(w + c) == c
    decreases |w|
  {
    var text := w + c;
    if w == "" {
      TrimStartNone(c);
      assert text == c;
    } else {
      var rest := w[1..] + c;
      assert text[..1] == w[..1] && text[1..] == rest;
      TrimStartOne(text, rest);
      TrimStartBlank(w[1..], c);
    }
  }

  lemma {:induction false} TrimEndBlank(c: string, w: string)
    requires Blank(w) && (c == "" || Shows(c[|c| - 1]))
    ensures TrimEnd(c + w) == c
    decreases |w|
  {
    if w == "" {
      assert c + w == c;
    } else {
      assert (c + w)[..|c + w| - 1] == c + w[..|w| - 1];
      TrimEndBlank(c, w[..|w| - 1]);
    }
  }

  lemma TrimBlank(before: string, r: string, after: string, text: string)
    requires Blank(before) && Blank(after) && Tight(r) && text == before + r + after
    ensures Trim(text) == r
  {
    if r == "" {
      TrimStartBlank(before + after, "");
      assert text == before + after + "";
    } else {
      assert text == before + (r + after);
      TrimStartBlank(before, r + after);
      TrimEndBlank(r, after);
    }
  }
}
