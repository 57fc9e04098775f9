/**
 * The filter that shows only the user-facing turn of a Muse protocol stream:
 * `to=<recipient><|message|><body>`, turns separated by `<|eom|><|start|>assistant`.
 */
module TurnFilter {
  import opened Model
  import opened Text

  const RECIPIENT := "to="
  const MESSAGE := "<|message|>"
  const NEXT_USER := "<|eom|><|start|>assistant to=user<|message|>"

  datatype Mode = Detecting | MuseProtocol | Passthrough

  /** What was sent, what is kept for later, and the state. */
  datatype Seen = Seen(out: string, pending: string, mode: Mode)

  function Fresh(): Seen { Seen("", "", Detecting) }

  /** A header's first marker never starts inside "to=", so slicing after it is safe. */
  lemma MessageAfterRecipient(candidate: string, m: nat)
    requires StartsWith(candidate, RECIPIENT) && OccursAt(candidate, MESSAGE, m)
    ensures 3 <= m
  {
    assert candidate[m] == MESSAGE[0];
    assert forall i | 0 <= i < 3 :: candidate[i] == RECIPIENT[i];
  }

  function RecipientOf(candidate: string, m: nat): string
    requires StartsWith(candidate, RECIPIENT) && OccursAt(candidate, MESSAGE, m)
  {
    MessageAfterRecipient(candidate, m);
    Trim(candidate[3..m])
  }

  /** Looks for the next turn addressed to the user. */
  function UserTurn(pending: string): Seen {
    match Find(pending, NEXT_USER)
    case None => Seen("", pending, MuseProtocol)
    case Some(u) => Seen(pending[u + |NEXT_USER|..], "", Passthrough)
  }

  function Detect(pending: string): Seen {
    var candidate := TrimStart(pending);
    if StartsWith(RECIPIENT, candidate) then Seen("", pending, Detecting)
    else if !StartsWith(candidate, RECIPIENT) then Seen(pending, "", Passthrough)
    else
      match Find(candidate, MESSAGE)
      case None => Seen("", pending, Detecting)
      case Some(m) =>
        if RecipientOf(candidate, m) == "user" then Seen(candidate[m + |MESSAGE|..], "", Passthrough)
        else UserTurn(pending)
  }

  /** One push with a caller that accepts everything. */
  function PushStep(muse: bool, s: Seen, text: string): Seen {
    if !muse then s.(out := s.out + text)
    else match s.mode
      case Detecting => var d := Detect(s.pending + text); d.(out := s.out + d.out)
      case MuseProtocol => var d := UserTurn(s.pending + text); d.(out := s.out + d.out)
      case Passthrough => s.(out := s.out + text)
  }

  function FinishStep(s: Seen): string {
    if s.mode.Detecting? then
      var candidate := TrimStart(s.pending);
      if StartsWith(candidate, RECIPIENT) && candidate != RECIPIENT then s.out else s.out + s.pending
    else s.out
  }

  class AssistantTurnStreamFilter {
    const museProtocol: bool
    var mode: Mode
    var pending: string

    constructor (museProtocol: bool)
      ensures this.museProtocol == museProtocol && mode == Detecting && pending == ""
    {
      this.museProtocol := museProtocol;
      mode := Detecting;
      pending := "";
    }

    /** `accept` is the caller's answer to the text it is `sent`. */
    method Push(text: string, accept: string -> bool) returns (sent: string, go: bool)
      modifies this
      ensures Seen(sent, pending, mode) == PushStep(museProtocol, Seen("", old(pending), old(mode)), text)
      ensures go == (accept(sent) || (sent == "" && museProtocol && old(mode) != Passthrough))
    {
      if !museProtocol {
        return text, accept(text);
      }
      match mode {
        case Detecting =>
          pending := pending + text;
          sent, go := DetectTurn(accept);
        case MuseProtocol =>
          pending := pending + text;
          sent, go := EmitMuseUserTurn(accept);
        case Passthrough =>
          return text, accept(text);
      }
    }

    method DetectTurn(accept: string -> bool) returns (sent: string, go: bool)
      requires mode == Detecting
      modifies this
      ensures Seen(sent, pending, mode) == Detect(old(pending))
      ensures go == (accept(sent) || sent == "")
    {
      var candidate := TrimStart(pending);
      if StartsWith(RECIPIENT, candidate) {
        return "", true;
      }
      if !StartsWith(candidate, RECIPIENT) {
        mode := Passthrough;
        sent := pending;
        pending := "";
        return sent, accept(sent);
      }
      var start := Find(candidate, MESSAGE);
      if start.None? {
        return "", true;
      }
      if RecipientOf(candidate, start.value) == "user" {
        sent := candidate[start.value + |MESSAGE|..];
        pending := "";
        mode := Passthrough;
        return sent, sent == "" || accept(sent);
      }
      mode := MuseProtocol;
      sent, go := EmitMuseUserTurn(accept);
    }

    method EmitMuseUserTurn(accept: string -> bool) returns (sent: string, go: bool)
      requires mode == MuseProtocol
      modifies this
      ensures Seen(sent, pending, mode) == UserTurn(old(pending))
      ensures go == (accept(sent) || sent == "")
    {
      var start := Find(pending, NEXT_USER);
      if start.None? {
        return "", true;
      }
      sent := pending[start.value + |NEXT_USER|..];
      pending := "";
      mode := Passthrough;
      go := sent == "" || accept(sent);
    }

    method Finish(accept: string -> bool) returns (sent: string, go: bool)
      modifies this
      ensures sent == FinishStep(Seen("", old(pending), old(mode)))
      ensures go == (sent == "" || accept(sent))
      ensures old(mode) != Passthrough ==> pending == ""
      ensures mode == (if old(mode) == MuseProtocol then MuseProtocol else Passthrough)
    {
      match mode {
        case Detecting =>
          var held := pending;
          pending := "";
          mode := Passthrough;
          var candidate := TrimStart(held);
          if StartsWith(candidate, RECIPIENT) && candidate != RECIPIENT {
            return "", true;
          }
          return held, held == "" || accept(held);
        case MuseProtocol =>
          pending := "";
          return "", true;
        case Passthrough =>
          return "", true;
      }
    }
  }

  /** What follows the first later turn addressed to the user. */
  function AfterNextUser(text: string): string {
    var mark := "<|eom|><|start|>assistant to=user<|message|>";
    match Find(text, mark)
    case None => ""
    case Some(u) => text[u + |mark|..]
  }

  /** What the user should see of a whole text, with no streaming in it. */
  function Visible(muse: bool, text: string): string {
    var candidate := TrimStart(text);
    if !muse || !StartsWith(candidate, RECIPIENT) || candidate == RECIPIENT then text
    else
      match Find(candidate, MESSAGE)
      case None => ""
      case Some(m) =>
        if RecipientOf(candidate, m) == "user" then candidate[m + |MESSAGE|..]
        else AfterNextUser(text)
  }

  function Stream(muse: bool, pieces: seq<string>): Seen {
    if pieces == [] then Fresh()
    else PushStep(muse, Stream(muse, pieces[..|pieces| - 1]), pieces[|pieces| - 1])
  }

  /** The text has left the "to=" header behind. */
  predicate Plain(text: string) {
    var candidate := TrimStart(text);
    !StartsWith(RECIPIENT, candidate) && !StartsWith(candidate, RECIPIENT)
  }

  /** The header is still incomplete. */
  predicate Undecided(text: string) {
    var candidate := TrimStart(text);
    StartsWith(RECIPIENT, candidate) || (StartsWith(candidate, RECIPIENT) && Find(candidate, MESSAGE).None?)
  }

  /** A whole header, its marker at index `m` of the trimmed text. */
  predicate Header(text: string, m: nat) {
    StartsWith(TrimStart(text), RECIPIENT) && Find(TrimStart(text), MESSAGE) == Some(m)
  }

  predicate OtherAt(text: string, m: nat) {
    Header(text, m) && RecipientOf(TrimStart(text), m) != "user"
  }

  predicate UserAt(text: string, m: nat, out: string) {
    Header(text, m) && RecipientOf(TrimStart(text), m) == "user" && out == TrimStart(text)[m + |MESSAGE|..]
  }

  /** The header names a recipient other than the user. */
  ghost predicate OtherRecipient(text: string) {
    exists m: nat :: OtherAt(text, m)
  }

  ghost predicate UserHeader(text: string, out: string) {
    exists m: nat :: UserAt(text, m, out)
  }

  /** The three ways in which more text will simply be shown. */
  ghost predicate Decided(text: string, out: string) {
    || (Plain(text) && out == text)
    || UserHeader(text, out)
    || (OtherRecipient(text) && Find(text, NEXT_USER).Some? && out == AfterNextUser(text))
  }

  /** What each state knows about the text so far. */
  ghost predicate Tracks(text: string, s: Seen) {
    match s.mode
    case Detecting => s.out == "" && s.pending == text && Undecided(text)
    case MuseProtocol => s.out == "" && s.pending == text && OtherRecipient(text) && Find(text, NEXT_USER).None?
    case Passthrough => s.pending == "" && Decided(text, s.out)
  }

  /** Once the first visible characters are there, the header can only grow at its end. */
  lemma CandidateExtends(text: string, more: string)
    requires StartsWith(TrimStart(text), RECIPIENT)
    ensures TrimStart(text + more) == TrimStart(text) + more
    ensures StartsWith(TrimStart(text + more), RECIPIENT)
    ensures Find(TrimStart(text), MESSAGE).Some? ==>
      Find(TrimStart(text + more), MESSAGE) == Find(TrimStart(text), MESSAGE)
  {
    TrimStartExtends(text, more);
    if Find(TrimStart(text), MESSAGE).Some? {
      FindExtends(TrimStart(text), more, MESSAGE);
    }
  }

  lemma NotRecipient(c: string, more: string)
    requires !StartsWith(RECIPIENT, c) && !StartsWith(c, RECIPIENT)
    ensures !StartsWith(c + more, RECIPIENT) && !StartsWith(RECIPIENT, c + more)
  {
    if 3 <= |c| {
      assert (c + more)[..3] == c[..3];
    } else {
      assert |more| >= 3 - |c| ==> (c + more)[..3][..|c|] == c;
    }
  }

  lemma HeadExtends(c: string, more: string, m: nat, c': string)
    requires StartsWith(c, RECIPIENT) && OccursAt(c, MESSAGE, m) && c' == c + more
    ensures OccursAt(c', MESSAGE, m) && StartsWith(c', RECIPIENT) && c' != RECIPIENT
    ensures 3 <= m && c'[3..m] == c[3..m] && c'[m + |MESSAGE|..] == c[m + |MESSAGE|..] + more
  {
    OccursInPrefix(c, more, MESSAGE, m);
    MessageAfterRecipient(c, m);
    assert c'[..3] == c[..3];
  }

  lemma PlainExtends(text: string, more: string)
    requires Plain(text)
    ensures Plain(text + more)
  {
    TrimStartExtends(text, more);
    NotRecipient(TrimStart(text), more);
  }

  lemma HeaderExtends(text: string, more: string, m: nat, text': string, c: string, c': string)
    requires Header(text, m) && text' == text + more && c == TrimStart(text) && c' == TrimStart(text')
    ensures Header(text', m) && c' == c + more && RecipientOf(c', m) == RecipientOf(c, m)
  {
    CandidateExtends(text, more);
    HeadExtends(c, more, m, c');
  }

  lemma UserHeaderExtends(text: string, out: string, more: string)
    requires UserHeader(text, out)
    ensures UserHeader(text + more, out + more)
  {
    var m: nat :| UserAt(text, m, out);
    var c, c' := TrimStart(text), TrimStart(text + more);
    HeaderExtends(text, more, m, text + more, c, c');
    HeadExtends(c, more, m, c');
    assert UserAt(text + more, m, out + more);
  }

  lemma OtherExtends(text: string, more: string)
    requires OtherRecipient(text)
    ensures OtherRecipient(text + more)
  {
    var m: nat :| OtherAt(text, m);
    HeaderExtends(text, more, m, text + more, TrimStart(text), TrimStart(text + more));
    assert OtherAt(text + more, m);
  }

  lemma AfterNextUserExtends(text: string, more: string)
    requires Find(text, NEXT_USER).Some?
    ensures Find(text + more, NEXT_USER).Some? && AfterNextUser(text + more) == AfterNextUser(text) + more
  {
    FindExtends(text, more, NEXT_USER);
  }

  lemma DecidedGrows(text: string, out: string, more: string)
    requires Decided(text, out)
    ensures Decided(text + more, out + more)
  {
    if Plain(text) && out == text {
      PlainExtends(text, more);
    } else if UserHeader(text, out) {
      UserHeaderExtends(text, out, more);
    } else {
      OtherExtends(text, more);
      AfterNextUserExtends(text, more);
    }
  }

  lemma UserTurnTracks(text: string)
    requires OtherRecipient(text)
    ensures Tracks(text, UserTurn(text))
  {
  }

  lemma DetectUser(text: string, m: nat, out: string)
    requires UserAt(text, m, out) && !StartsWith(RECIPIENT, TrimStart(text))
    ensures Detect(text) == Seen(out, "", Passthrough) && Tracks(text, Detect(text))
  {
    assert UserHeader(text, out);
  }

  lemma DetectOther(text: string, m: nat)
    requires OtherAt(text, m) && !StartsWith(RECIPIENT, TrimStart(text))
    ensures Detect(text) == UserTurn(text) && Tracks(text, Detect(text))
  {
    assert OtherRecipient(text);
    UserTurnTracks(text);
  }

  /** A whole header decides by its recipient. */
  lemma DetectHeader(text: string, m: nat)
    requires Header(text, m) && !StartsWith(RECIPIENT, TrimStart(text))
    ensures Tracks(text, Detect(text))
  {
    var c := TrimStart(text);
    if RecipientOf(c, m) == "user" {
      DetectUser(text, m, c[m + |MESSAGE|..]);
    } else {
      DetectOther(text, m);
    }
  }

  lemma DetectTracks(text: string, s: Seen)
    requires s == Detect(text)
    ensures Tracks(text, s)
  {
    if !Undecided(text) && !Plain(text) { DetectHeader(text, Find(TrimStart(text), MESSAGE).value); }
  }

  /** Nothing sent so far: a push is a decision on the whole text. */
  lemma PushDecides(text: string, s: Seen, piece: string)
    requires s.out == "" && s.pending == text && s.mode != Passthrough
    ensures PushStep(true, s, piece) == if s.mode.Detecting? then Detect(text + piece) else UserTurn(text + piece)
  {
  }

  lemma PushTracks(text: string, s: Seen, piece: string)
    requires Tracks(text, s)
    ensures Tracks(text + piece, PushStep(true, s, piece))
  {
    match s.mode
    case Detecting =>
      PushDecides(text, s, piece);
      DetectTracks(text + piece, Detect(text + piece));
    case MuseProtocol =>
      PushDecides(text, s, piece);
      OtherExtends(text, piece);
      UserTurnTracks(text + piece);
    case Passthrough =>
      DecidedGrows(text, s.out, piece);
  }

  lemma {:induction false} StreamTracks(pieces: seq<string>)
    ensures Tracks(Joined(pieces), Stream(true, pieces))
  {
    if pieces == [] {
      DetectTracks("", Detect(""));
    } else {
      StreamTracks(pieces[..|pieces| - 1]);
      PushTracks(Joined(pieces[..|pieces| - 1]), Stream(true, pieces[..|pieces| - 1]), pieces[|pieces| - 1]);
    }
  }

  lemma {:induction false} StreamPasses(pieces: seq<string>)
    ensures Stream(false, pieces) == Seen(Joined(pieces), "", Detecting)
  {
    if pieces != [] {
      StreamPasses(pieces[..|pieces| - 1]);
    }
  }

  lemma DecidedVisible(text: string, out: string)
    requires Decided(text, out)
    ensures out == Visible(true, text)
  {
  }

  lemma FinishVisible(text: string, s: Seen)
    requires Tracks(text, s)
    ensures FinishStep(s) == Visible(true, text)
  {
    match s.mode
    case Detecting =>
      assert s.out + s.pending == text;
    case MuseProtocol =>
    case Passthrough =>
      DecidedVisible(text, s.out);
  }

  /** Streaming shows what the whole text shows, however it was split. */
  lemma VisibleOutput(muse: bool, pieces: seq<string>)
    ensures FinishStep(Stream(muse, pieces)) == Visible(muse, Joined(pieces))
  {
    if muse {
      StreamTracks(pieces);
      FinishVisible(Joined(pieces), Stream(true, pieces));
    } else {
      StreamPasses(pieces);
    }
  }

  /** Two splits of one text show the same. */
  lemma ChunkingIndependent(muse: bool, a: seq<string>, b: seq<string>)
    requires Joined(a) == Joined(b)
    ensures FinishStep(Stream(muse, a)) == FinishStep(Stream(muse, b))
  {
    VisibleOutput(muse, a);
    VisibleOutput(muse, b);
  }
}
