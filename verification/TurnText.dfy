/** What the user is shown of a Muse text, spelled out: plain text, a turn addressed to the
    user, and a turn addressed to anyone else. */
module TurnText {
  import opened Model
  import opened Text
  import opened TurnFilter

  /** The first marker behind "to=" and a recipient that does not hold it. */
  lemma MarkerBehind(x: string, b: string, c: string)
    requires Find(x, "<|message|>").None? && c == "to=" + x + "<|message|>" + b
    ensures StartsWith(c, "to=") && Find(c, "<|message|>") == Some(3 + |x|)
    ensures c[3..3 + |x|] == x && c[3 + |x| + 11..] == b
  {
    var word := "<|message|>";
    assert c[3 + |x|..3 + |x| + 11] == word;
    assert c[0] == 't' && c[1] == 'o' && c[2] == '=';
    forall k | 0 <= k < 3 + |x| ensures !OccursAt(c, word, k) {
      NoMarkerInside(x, b, c, k);
    }
    FindIs(c, word, 3 + |x|);
  }

  lemma OccursSays(c: string, word: string, k: nat, j: nat)
    requires OccursAt(c, word, k) && j < |word|
    ensures c[k + j] == word[j]
  {
    assert c[k..k + |word|][j] == c[k + j];
  }

  /** A marker starts with '<' and holds no other, so none overlaps the one behind `x`. */
  lemma NoMarkerInside(x: string, b: string, c: string, k: nat)
    requires Find(x, "<|message|>").None? && c == "to=" + x + "<|message|>" + b && k < 3 + |x|
    ensures !OccursAt(c, "<|message|>", k)
  {
    var word := "<|message|>";
    if k < 3 {
      assert c[k] == "to="[k];
    } else if k + 11 <= 3 + |x| {
      assert c[k..k + 11] == x[k - 3..k - 3 + 11];
      assert !OccursAt(x, word, k - 3);
    } else {
      assert c[3 + |x|] == '<';
      if OccursAt(c, word, k) { OccursSays(c, word, k, 3 + |x| - k); }
    }
  }

  /** A whole header shows its body if it is addressed to the user, and otherwise what stands
      behind the first later turn that is. */
  lemma HeaderShown(w: string, before: string, r: string, after: string, b: string, text: string)
    requires Blank(w) && Blank(before) && Blank(after) && Tight(r)
    requires Find(before + r + after, "<|message|>").None?
    requires text == w + ("to=" + (before + r + after) + "<|message|>" + b)
    ensures Visible(true, text) == if r == "user" then b else AfterNextUser(text)
  {
    var x := before + r + after;
    var c := "to=" + x + "<|message|>" + b;
    MarkerBehind(x, b, c);
    assert c[0] == 't';
    TrimStartBlank(w, c);
    TrimBlank(before, r, after, x);
    assert c != "to=";
  }

  /** Anything else: an unfinished header shows nothing, other text is shown as it is. */
  lemma OtherwiseShown(w: string, c: string, text: string)
    requires Blank(w) && (c == "" || Shows(c[0])) && text == w + c
    requires StartsWith(c, "to=") ==> Find(c, "<|message|>").None?
    ensures Visible(true, text) == if StartsWith(c, "to=") && c != "to=" then "" else text
  {
    TrimStartBlank(w, c);
  }

  /** Every split of a text whose header is whole streams exactly that. */
  lemma HeaderStreamed(pieces: seq<string>, w: string, before: string, r: string, after: string, b: string)
    requires Blank(w) && Blank(before) && Blank(after) && Tight(r)
    requires Find(before + r + after, "<|message|>").None?
    requires Joined(pieces) == w + ("to=" + (before + r + after) + "<|message|>" + b)
    ensures FinishStep(Stream(true, pieces)) == if r == "user" then b else AfterNextUser(Joined(pieces))
  {
    VisibleOutput(true, pieces);
    HeaderShown(w, before, r, after, b, Joined(pieces));
  }
}
