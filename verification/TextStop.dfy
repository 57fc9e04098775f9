/**
 * The filter that keeps string stop sequences out of the streamed text: it
 * holds back every suffix that may still grow into a stop.
 */
module TextStop {
  import opened Model
  import opened Text

  /** Some stop string stands at index `i` of `text`. */
  predicate StopAt(stops: seq<string>, text: string, i: int) {
    exists stop :: stop in stops && OccursAt(text, stop, i)
  }

  ghost predicate StopFree(stops: seq<string>, text: string) {
    forall i :: !StopAt(stops, text, i)
  }

  ghost predicate LeftmostStopAt(stops: seq<string>, text: string, i: int) {
    StopAt(stops, text, i) && forall j :: j < i ==> !StopAt(stops, text, j)
  }

  /** Some stop string begins with `suffix`. */
  predicate Opens(stops: seq<string>, suffix: string) {
    exists stop :: stop in stops && StartsWith(stop, suffix)
  }

  /** No stop string begins with what follows index `i`. */
  predicate DeadAt(stops: seq<string>, text: string, i: nat)
    requires i <= |text|
  {
    !Opens(stops, text[i..])
  }

  /** The last `keep` characters are the longest suffix that may become a stop. */
  predicate LongestHeld(stops: seq<string>, text: string, keep: int) {
    && 0 <= keep <= |text|
    && (keep > 0 ==> Opens(stops, text[|text| - keep..]))
    && forall i :: 0 <= i < |text| - keep ==> DeadAt(stops, text, i)
  }

  function LeftmostStop(stops: seq<string>, text: string): (r: Option<nat>)
    ensures r.Some? ==> LeftmostStopAt(stops, text, r.value)
    ensures r.None? ==> StopFree(stops, text)
  {
    if stops == [] then None
    else
      var here, later := Find(text, stops[0]), LeftmostStop(stops[1..], text);
      assert forall i :: StopAt(stops, text, i) <==> OccursAt(text, stops[0], i) || StopAt(stops[1..], text, i);
      if here.None? || (later.Some? && later.value < here.value) then later else here
  }

  function HoldBack(stops: seq<string>, text: string): (keep: nat)
    ensures LongestHeld(stops, text, keep)
  {
    if text == "" then 0
    else if Opens(stops, text) then assert text[0..] == text; |text|
    else
      var keep := HoldBack(stops, text[1..]);
      assert forall i | 1 <= i <= |text| :: DeadAt(stops, text, i) == DeadAt(stops, text[1..], i - 1) by {
        assert forall i | 1 <= i <= |text| :: text[i..] == text[1..][i - 1..];
      }
      keep
  }

  /** What the caller has been sent, what is held back, and whether to go on. */
  datatype Held = Held(out: string, pending: string, go: bool)

  function Fresh(): Held { Held("", "", true) }

  /** One push with a caller that accepts everything. */
  function PushStep(stops: seq<string>, h: Held, piece: string): Held {
    if stops == [] then h.(out := h.out + piece)
    else
      var text := h.pending + piece;
      match LeftmostStop(stops, text)
      case Some(i) => Held(h.out + text[..i], "", false)
      case None =>
        var cut := |text| - HoldBack(stops, text);
        Held(h.out + text[..cut], text[cut..], true)
  }

  class TextStopFilter {
    const stops: seq<string>
    var pending: string
    var matched: bool

    constructor (stops: seq<string>)
      ensures this.stops == stops && pending == "" && !matched
    {
      this.stops := stops;
      pending := "";
      matched := false;
    }

    /** `accept` is the caller's answer to a piece; `sent` is what it was given.
        A refused piece stays pending. */
    method Push(piece: string, accept: string -> bool) returns (sent: string, go: bool)
      modifies this
      ensures var h := PushStep(stops, Held("", old(pending), true), piece);
        && sent == h.out
        && go == (h.go && ((stops != [] && sent == "") || accept(sent)))
        && matched == (old(matched) || !h.go)
        && pending == if h.go && !go && stops != [] then old(pending) + piece else h.pending
    {
      if stops == [] {
        return piece, accept(piece);
      }
      pending := pending + piece;
      var index := LeftmostStop(stops, pending);
      if index.Some? {
        sent := pending[..index.value];
        pending := "";
        matched := true;
        return sent, false;
      }
      var cut := |pending| - HoldBack(stops, pending);
      sent := pending[..cut];
      if cut == 0 {
        return sent, true;
      }
      if !accept(sent) {
        return sent, false;
      }
      pending := pending[cut..];
      return sent, true;
    }

    method Finish(accept: string -> bool) returns (sent: string, go: bool)
      modifies this`pending
      ensures sent == old(pending) && pending == ""
      ensures go == (sent == "" || accept(sent))
    {
      sent := pending;
      go := sent == "" || accept(sent);
      pending := "";
    }
  }

  /** Pushing the pieces in order, up to the first push that says to stop. */
  function Stream(stops: seq<string>, pieces: seq<string>): Held {
    if pieces == [] then Fresh()
    else
      var h := Stream(stops, pieces[..|pieces| - 1]);
      if h.go then PushStep(stops, h, pieces[|pieces| - 1]) else h
  }

  /** Everything the caller is sent, `Finish` included. */
  function Output(stops: seq<string>, pieces: seq<string>): string {
    var h := Stream(stops, pieces);
    h.out + h.pending
  }

  /** No stop yet: the text is split into what was sent and the longest suffix
      that may still become a stop. */
  ghost predicate Waiting(stops: seq<string>, text: string, h: Held) {
    h.go && h.out + h.pending == text && LongestHeld(stops, text, |h.pending|)
  }

  /** The first stop of `text` was just completed: all before it was sent. */
  ghost predicate Stopped(stops: seq<string>, text: string, h: Held) {
    && !h.go && h.pending == "" && |h.out| <= |text|
    && h.out == text[..|h.out|] && LeftmostStopAt(stops, text, |h.out|)
  }

  /** A stop that runs past the end of the text begins with the text's suffix. */
  lemma StraddlerOpens(text: string, piece: string, stop: string, i: nat)
    requires i <= |text|
    requires StartsWith(stop, text[i..] + piece) || (OccursAt(text + piece, stop, i) && |text| < i + |stop|)
    ensures StartsWith(stop, text[i..])
  {
    if StartsWith(stop, text[i..] + piece) {
      assert stop[..|text| - i] == stop[..|text| - i + |piece|][..|text| - i];
    } else {
      assert stop[..|text| - i] == (text + piece)[i..i + |stop|][..|text| - i];
    }
  }

  lemma StopInPrefix(stops: seq<string>, text: string, more: string, stop: string, i: nat)
    requires stop in stops && OccursAt(text + more, stop, i) && i + |stop| <= |text|
    ensures StopAt(stops, text, i)
  {
    OccursInPrefix(text, more, stop, i);
  }

  /** Nothing sent can belong to a stop, or to the start of one, completed later. */
  lemma SentIsClear(stops: seq<string>, text: string, h: Held, piece: string, i: nat)
    requires Waiting(stops, text, h) && (text != "" ==> StopFree(stops, text))
    requires i < |h.out|
    ensures !StopAt(stops, text + piece, i) && DeadAt(stops, text + piece, i)
  {
    assert DeadAt(stops, text, i);
    assert (text + piece)[i..] == text[i..] + piece;
    forall stop | stop in stops
      ensures !OccursAt(text + piece, stop, i) && !StartsWith(stop, (text + piece)[i..])
    {
      assert !StartsWith(stop, text[i..]);
      if StartsWith(stop, text[i..] + piece) || (OccursAt(text + piece, stop, i) && |text| < i + |stop|) {
        StraddlerOpens(text, piece, stop, i);
      } else if OccursAt(text + piece, stop, i) {
        StopInPrefix(stops, text, piece, stop, i);
      }
    }
  }

  /** Stops past what was sent are stops of the held text. */
  lemma HeldStops(stops: seq<string>, out: string, held: string, i: nat)
    ensures StopAt(stops, out + held, |out| + i) <==> StopAt(stops, held, i)
  {
    forall stop | stop in stops
      ensures OccursAt(out + held, stop, |out| + i) <==> OccursAt(held, stop, i)
    {
      OccursShifted(out, held, stop, i);
    }
  }

  lemma StopIndex(stops: seq<string>, text: string, i: int)
    requires StopAt(stops, text, i)
    ensures 0 <= i <= |text|
  {
  }

  /** The stops of the text are the stops of the held part, moved. */
  lemma StopMoves(stops: seq<string>, text: string, h: Held, piece: string, j: int)
    requires Waiting(stops, text, h) && (text != "" ==> StopFree(stops, text))
    ensures StopAt(stops, text + piece, j) <==> StopAt(stops, h.pending + piece, j - |h.out|)
  {
    if 0 <= j < |h.out| {
      SentIsClear(stops, text, h, piece, j);
    } else if |h.out| <= j {
      assert text + piece == h.out + (h.pending + piece);
      HeldStops(stops, h.out, h.pending + piece, j - |h.out|);
    }
  }

  lemma LeftmostLifts(stops: seq<string>, text: string, h: Held, piece: string, i: nat)
    requires Waiting(stops, text, h) && (text != "" ==> StopFree(stops, text))
    requires LeftmostStopAt(stops, h.pending + piece, i)
    ensures LeftmostStopAt(stops, text + piece, |h.out| + i)
  {
    StopMoves(stops, text, h, piece, |h.out| + i);
    forall j | j < |h.out| + i ensures !StopAt(stops, text + piece, j) {
      StopMoves(stops, text, h, piece, j);
    }
  }

  lemma FreeLifts(stops: seq<string>, text: string, h: Held, piece: string)
    requires Waiting(stops, text, h) && (text != "" ==> StopFree(stops, text))
    requires StopFree(stops, h.pending + piece)
    ensures StopFree(stops, text + piece)
  {
    forall j ensures !StopAt(stops, text + piece, j) {
      StopMoves(stops, text, h, piece, j);
    }
  }

  lemma HoldLifts(stops: seq<string>, text: string, h: Held, piece: string, keep: nat)
    requires Waiting(stops, text, h) && (text != "" ==> StopFree(stops, text))
    requires LongestHeld(stops, h.pending + piece, keep)
    ensures LongestHeld(stops, text + piece, keep)
  {
    var held := h.pending + piece;
    assert text + piece == h.out + held;
    assert (text + piece)[|text + piece| - keep..] == held[|held| - keep..];
    forall i | 0 <= i < |text + piece| - keep ensures DeadAt(stops, text + piece, i) {
      if i < |h.out| {
        SentIsClear(stops, text, h, piece, i);
      } else {
        assert DeadAt(stops, held, i - |h.out|);
        assert (text + piece)[i..] == held[i - |h.out|..];
      }
    }
  }

  lemma CutJoin(text: string, h: Held, piece: string, i: nat)
    requires h.out + h.pending == text && i <= |h.pending + piece|
    ensures var held := h.pending + piece;
      && (text + piece)[..|h.out| + i] == h.out + held[..i]
      && h.out + held[..i] + held[i..] == text + piece
  {
    assert text + piece == h.out + (h.pending + piece);
  }

  lemma PushMatches(stops: seq<string>, text: string, h: Held, piece: string, i: nat)
    requires Waiting(stops, text, h) && (text != "" ==> StopFree(stops, text))
    requires i <= |h.pending + piece| && LeftmostStopAt(stops, h.pending + piece, i)
    ensures Stopped(stops, text + piece, Held(h.out + (h.pending + piece)[..i], "", false))
  {
    LeftmostLifts(stops, text, h, piece, i);
    CutJoin(text, h, piece, i);
  }

  lemma PushWaits(stops: seq<string>, text: string, h: Held, piece: string, keep: nat)
    requires Waiting(stops, text, h) && (text != "" ==> StopFree(stops, text))
    requires LongestHeld(stops, h.pending + piece, keep)
    ensures var held := h.pending + piece;
      Waiting(stops, text + piece, Held(h.out + held[..|held| - keep], held[|held| - keep..], true))
  {
    HoldLifts(stops, text, h, piece, keep);
    CutJoin(text, h, piece, |h.pending + piece| - keep);
  }

  lemma PushPasses(text: string, h: Held, piece: string)
    requires Waiting([], text, h)
    ensures Waiting([], text + piece, PushStep([], h, piece)) && StopFree([], text + piece)
  {
    assert |h.pending| == 0;
  }

  lemma PushKeeps(stops: seq<string>, text: string, h: Held, piece: string)
    requires Waiting(stops, text, h) && (text != "" ==> StopFree(stops, text))
    ensures var next := PushStep(stops, h, piece);
      || (Waiting(stops, text + piece, next) && StopFree(stops, text + piece))
      || Stopped(stops, text + piece, next)
  {
    var held := h.pending + piece;
    if stops == [] {
      PushPasses(text, h, piece);
    } else {
      match LeftmostStop(stops, held)
      case Some(i) =>
        StopIndex(stops, held, i);
        PushMatches(stops, text, h, piece, i);
      case None =>
        FreeLifts(stops, text, h, piece);
        PushWaits(stops, text, h, piece, HoldBack(stops, held));
    }
  }

  /** For every chunking: either no stop has appeared, and sent ++ held is the text
      with the longest possible stop prefix held back; or some push completed the
      first stop, and exactly the text before its leftmost stop was sent. */
  lemma {:induction false} StreamTracks(stops: seq<string>, pieces: seq<string>) returns (n: nat)
    ensures n <= |pieces|
    ensures var h := Stream(stops, pieces);
      if h.go then
        n == |pieces| && Waiting(stops, Joined(pieces), h) && (n > 0 ==> StopFree(stops, Joined(pieces)))
      else
        n > 0 && Stopped(stops, Joined(pieces[..n]), h) && (n > 1 ==> StopFree(stops, Joined(pieces[..n - 1])))
  {
    if pieces == [] {
      return 0;
    }
    var last := |pieces| - 1;
    n := StreamTracks(stops, pieces[..last]);
    var h := Stream(stops, pieces[..last]);
    if h.go {
      PushKeeps(stops, Joined(pieces[..last]), h, pieces[last]);
      assert pieces[..|pieces|] == pieces;
      n := |pieces|;
    } else {
      assert pieces[..last][..n] == pieces[..n];
      assert pieces[..last][..n - 1] == pieces[..n - 1];
    }
  }

  /** With no stop in the text, finishing gives the whole text back. */
  lemma NoStopWholeText(stops: seq<string>, pieces: seq<string>)
    requires StopFree(stops, Joined(pieces))
    ensures Output(stops, pieces) == Joined(pieces)
  {
    var n := StreamTracks(stops, pieces);
    if !Stream(stops, pieces).go {
      StopSurvives(stops, pieces, n, |Stream(stops, pieces).out|);
    }
  }

  lemma {:induction false} JoinedPrefix(pieces: seq<string>, n: nat)
    requires n <= |pieces|
    ensures |Joined(pieces[..n])| <= |Joined(pieces)|
    ensures Joined(pieces)[..|Joined(pieces[..n])|] == Joined(pieces[..n])
  {
    if n == |pieces| {
      assert pieces[..n] == pieces;
    } else {
      JoinedPrefix(pieces[..|pieces| - 1], n);
      assert pieces[..|pieces| - 1][..n] == pieces[..n];
    }
  }

  lemma StopSurvives(stops: seq<string>, pieces: seq<string>, n: nat, i: int)
    requires n <= |pieces| && StopAt(stops, Joined(pieces[..n]), i)
    ensures StopAt(stops, Joined(pieces), i)
  {
    JoinedPrefix(pieces, n);
    var a, t := Joined(pieces[..n]), Joined(pieces);
    assert t == a + t[|a|..];
    var stop :| stop in stops && OccursAt(a, stop, i);
    OccursInPrefix(a, t[|a|..], stop, i);
  }

  /** A proper prefix of a stop holds no stop, or holds one at its very start. */
  ghost predicate CleanPrefix(stops: seq<string>, stop: string, e: nat)
    requires e <= |stop|
  {
    StopFree(stops, stop[..e]) || StopAt(stops, stop[..e], 0)
  }

  /** No stop string hides another one strictly inside a proper prefix. */
  ghost predicate Unambiguous(stops: seq<string>) {
    forall stop, e: nat | stop in stops && e < |stop| :: CleanPrefix(stops, stop, e)
  }

  lemma StreamOne(stops: seq<string>, text: string)
    ensures Stream(stops, [text]) == PushStep(stops, Fresh(), text)
    ensures Joined([text]) == text
  {
    assert [text][..0] == [];
  }

  /** One push of the whole text sends the text before its leftmost stop. */
  lemma OneShot(stops: seq<string>, text: string) returns (cut: nat)
    ensures cut <= |text| && Output(stops, [text]) == text[..cut]
    ensures LeftmostStopAt(stops, text, cut) || (cut == |text| && StopFree(stops, text))
  {
    StreamOne(stops, text);
    PushKeeps(stops, "", Fresh(), text);
    assert "" + text == text;
    var h := PushStep(stops, Fresh(), text);
    cut := |h.out + h.pending|;
  }

  /** A leftmost stop can only move left, and only to a stop that the text so far
      cuts short, when text is appended. */
  lemma LeftmostMoves(stops: seq<string>, text: string, more: string, i: nat, j: nat)
    requires LeftmostStopAt(stops, text, i) && LeftmostStopAt(stops, text + more, j)
    ensures j <= i
    ensures Unambiguous(stops) ==> j == i
  {
    var here :| here in stops && OccursAt(text, here, i);
    OccursInPrefix(text, more, here, i);
    assert StopAt(stops, text + more, i);
    if j < i && Unambiguous(stops) {
      var stop :| stop in stops && OccursAt(text + more, stop, j);
      if |text| < j + |stop| {
        HiddenStop(stops, text, more, stop, i, j);
      } else {
        StopInPrefix(stops, text, more, stop, j);
      }
    }
  }

  lemma HiddenStop(stops: seq<string>, text: string, more: string, stop: string, i: nat, j: nat)
    requires StopAt(stops, text, i) && j < i
    requires stop in stops && OccursAt(text + more, stop, j) && |text| < j + |stop|
    requires Unambiguous(stops)
    ensures StopAt(stops, text, j)
  {
    StopIndex(stops, text, i);
    var before, rest := text[..j], text[j..];
    assert text == before + rest;
    StraddlerOpens(text, more, stop, j);
    assert CleanPrefix(stops, stop, |text| - j);
    HeldStops(stops, before, rest, i - j);
    HeldStops(stops, before, rest, 0);
  }

  /** The output is a prefix of the text, cut where the first completed stop begins. */
  lemma OutputIsCut(stops: seq<string>, pieces: seq<string>) returns (n: nat, cut: nat)
    ensures n <= |pieces| && cut <= |Joined(pieces)| && Output(stops, pieces) == Joined(pieces)[..cut]
    ensures if LeftmostStopAt(stops, Joined(pieces[..n]), cut) then StopAt(stops, Joined(pieces), cut)
            else cut == |Joined(pieces)| && (pieces != [] ==> StopFree(stops, Joined(pieces)))
  {
    n := StreamTracks(stops, pieces);
    var h := Stream(stops, pieces);
    cut := |h.out + h.pending|;
    if !h.go {
      JoinedPrefix(pieces, n);
      StopSurvives(stops, pieces, n, cut);
      assert h.out + h.pending == h.out;
    } else {
      assert pieces[..n] == pieces;
      if pieces == [] && LeftmostStopAt(stops, Joined(pieces[..n]), cut) {
        assert StopAt(stops, Joined(pieces), cut);
      }
    }
  }

  /** Chunked output always extends the one-push output, and equals it when no
      stop hides another. */
  lemma OneShotIsPrefix(stops: seq<string>, pieces: seq<string>)
    ensures Output(stops, [Joined(pieces)]) <= Output(stops, pieces)
    ensures Unambiguous(stops) ==> Output(stops, [Joined(pieces)]) == Output(stops, pieces)
  {
    var text := Joined(pieces);
    var one := OneShot(stops, text);
    var n, cut := OutputIsCut(stops, pieces);
    JoinedPrefix(pieces, n);
    var seen := Joined(pieces[..n]);
    if LeftmostStopAt(stops, seen, cut) {
      assert text == seen + text[|seen|..];
      LeftmostMoves(stops, seen, text[|seen|..], cut, one);
    }
  }

  lemma TwoPieces(stops: seq<string>, a: string, b: string)
    ensures Joined([a, b]) == a + b
    ensures Stream(stops, [a, b]) == var h := PushStep(stops, Fresh(), a);
                                     if h.go then PushStep(stops, h, b) else h
  {
    assert [a, b][..1] == [a];
    StreamOne(stops, a);
  }

  /** Splitting a stop right after a stop hidden in it shows the hidden one's lead. */
  lemma HiddenStopShows(stops: seq<string>, stop: string, e: nat)
    requires stop in stops && e < |stop| && !CleanPrefix(stops, stop, e)
    ensures Output(stops, [stop[..e], stop[e..]]) != Output(stops, [Joined([stop[..e], stop[e..]])])
  {
    var a, b := stop[..e], stop[e..];
    TwoPieces(stops, a, b);
    assert a + b == stop;
    PushKeeps(stops, "", Fresh(), a);
    assert "" + a == a;
    var h := PushStep(stops, Fresh(), a);
    assert Stopped(stops, a, h);
    var cut := OneShot(stops, stop);
    assert OccursAt(stop, stop, 0);
    assert StopAt(stops, stop, 0);
    assert |Output(stops, [a, b])| == |h.out| != 0;
  }

  /** Chunking never matters exactly when no stop hides another one strictly
      inside a proper prefix of itself. */
  lemma ChunkingIndependent(stops: seq<string>)
    ensures (forall pieces :: Output(stops, pieces) == Output(stops, [Joined(pieces)])) <==> Unambiguous(stops)
  {
    if Unambiguous(stops) {
      forall pieces ensures Output(stops, pieces) == Output(stops, [Joined(pieces)]) {
        OneShotIsPrefix(stops, pieces);
      }
    } else {
      var stop, e: nat :| stop in stops && e < |stop| && !CleanPrefix(stops, stop, e);
      HiddenStopShows(stops, stop, e);
    }
  }

  /** With the stops "abc" and "b", the text "abc" sent as "ab", "c" shows an "a"
      that the same text sent at once does not. */
  lemma ChunkingMatters()
    ensures Output(["abc", "b"], ["ab", "c"]) == "a" && Output(["abc", "b"], ["abc"]) == ""
  {
    var stops := ["abc", "b"];
    assert OccursAt("ab", "b", 1) && StopAt(stops, "ab", 1);
    assert !StopAt(stops, "ab", 0) by {
      assert "ab"[0..1] == "a";
    }
    var first := LeftmostStop(stops, "ab");
    assert first == Some(1);
    StreamOne(stops, "ab");
    assert ["ab", "c"][..1] == ["ab"];
    assert "" + "ab" == "ab" && "ab"[..1] == "a";
    var cut := OneShot(stops, "abc");
    assert OccursAt("abc", "abc", 0) && StopAt(stops, "abc", 0);
  }
}
