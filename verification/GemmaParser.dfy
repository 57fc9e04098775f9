/** The cursor-based parser of Gemma tool-call arguments. */
module GemmaParser {
  import opened Model
  import opened Text
  import opened G = GemmaGrammar

  /** The same answer, and after a success the same input left. */
  predicate Agrees(p: Parsed, r: Outcome, rest: string) {
    match p
    case Err(e) => r == Failure(e)
    case Ok(v, left) => r == Success(v) && rest == left
  }

  /** A cursor over the input; each method advances it as the functions above consume text. */
  class GemmaValueParser {
    const json: Json
    const input: string
    var offset: nat

    ghost predicate Valid() reads this { offset <= |input| }

    function Rest(): string
      requires Valid()
      reads this
    {
      input[offset..]
    }

    constructor (json: Json, input: string)
      ensures this.json == json && this.input == input && Valid() && Rest() == input
    {
      this.json := json;
      this.input := input;
      offset := 0;
    }

    method Advance(n: nat)
      requires Valid() && n <= |Rest()|
      modifies this`offset
      ensures Valid() && offset == old(offset) + n && Rest() == old(Rest())[n..]
    {
      offset := offset + n;
    }

    method SkipWhitespace()
      requires Valid()
      modifies this`offset
      ensures Valid() && offset >= old(offset) && Rest() == SkipSpace(old(Rest()))
    {
      while offset < |input| && AsciiSpace(input[offset])
        invariant Valid() && offset >= old(offset)
        invariant SkipSpace(Rest()) == SkipSpace(old(Rest()))
      {
        assert Rest()[1..] == input[offset + 1..];
        offset := offset + 1;
      }
    }

    method ConsumeByte(c: char) returns (taken: bool)
      requires Valid()
      modifies this`offset
      ensures Valid() && taken == (old(Rest()) != "" && old(Rest())[0] == c)
      ensures Rest() == if taken then old(Rest())[1..] else old(Rest())
    {
      taken := offset < |input| && input[offset] == c;
      if taken {
        Advance(1);
      }
    }

    method ParseComplete() returns (r: Outcome)
      requires Valid() && offset == 0
      modifies this`offset
      ensures r == G.ParseComplete(json, input)
    {
      assert Rest() == input;
      var p := ParseValue();
      if p.Failure? {
        return p;
      }
      SkipWhitespace();
      return if offset != |input| then Failure(UnexpectedSuffix) else p;
    }

    /** The cursor ends in bounds, further on, right after the value. */
    method ParseValue() returns (r: Outcome)
      requires Valid()
      modifies this`offset
      ensures Valid() && offset >= old(offset)
      ensures Agrees(G.ParseValue(json, old(Rest())), r, Rest()) && (r.Success? ==> offset > old(offset))
      decreases |input| - offset, 2
    {
      SkipWhitespace();
      if StartsWith(Rest(), QUOTE) {
        r := ParseString();
      } else if offset == |input| {
        r := Failure(UnexpectedEnd);
      } else if input[offset] == '{' {
        r := ParseObject();
      } else if input[offset] == '[' {
        r := ParseArray();
      } else {
        r := ParseScalar();
      }
    }

    method ParseString() returns (r: Outcome)
      requires Valid() && StartsWith(Rest(), QUOTE)
      modifies this`offset
      ensures Valid() && offset >= old(offset)
      ensures Agrees(G.ParseString(old(Rest())), r, Rest()) && (r.Success? ==> offset > old(offset))
    {
      Advance(|QUOTE|);
      var end := Find(Rest(), QUOTE);
      if end.None? {
        return Failure(UnterminatedString);
      }
      r := Success(Str(Rest()[..end.value]));
      Advance(end.value + |QUOTE|);
    }

    method ParseScalar() returns (r: Outcome)
      requires Valid()
      modifies this`offset
      ensures Valid() && offset >= old(offset)
      ensures Agrees(G.ParseScalar(json, old(Rest())), r, Rest()) && (r.Success? ==> offset > old(offset))
    {
      var end := ScalarEnd(Rest());
      var raw := Trim(Rest()[..end]);
      if raw == "" {
        return Failure(EmptyArgument);
      }
      var atom := json.read(raw);
      if atom.None? {
        return Failure(InvalidScalar(raw));
      }
      Advance(end);
      return Success(Scalar(atom.value));
    }

    method ParseObject() returns (r: Outcome)
      requires Valid() && Rest() != "" && Rest()[0] == '{'
      modifies this`offset
      ensures Valid() && offset >= old(offset)
      ensures Agrees(G.ParseObject(json, old(Rest())), r, Rest()) && (r.Success? ==> offset > old(offset))
      decreases |input| - offset, 1
    {
      Advance(1);
      SkipWhitespace();
      var fields: seq<Field> := [];
      var closed := ConsumeByte('}');
      if closed {
        return Success(Obj(fields));
      }
      ghost var first := Rest();
      while true
        invariant Valid() && offset > old(offset)
        invariant G.ParseFields(json, Rest(), fields) == G.ParseFields(json, first, [])
        decreases |input| - offset
      {
        var f := ParseField(fields);
        if f.Failure? {
          return f;
        }
        fields := f.value.fields;
        closed := ConsumeByte('}');
        if closed {
          return Success(Obj(fields));
        }
        closed := ConsumeByte(',');
        if !closed {
          return Failure(Expected(','));
        }
        SkipWhitespace();
      }
    }

    /** Key, colon and value; the answer is the object so far with the field added. */
    method ParseField(fields: seq<Field>) returns (r: Outcome)
      requires Valid()
      modifies this`offset
      ensures Valid() && offset >= old(offset)
      ensures Agrees(G.ParseField(json, old(Rest()), fields), r, Rest()) && (r.Success? ==> offset > old(offset))
      decreases |input| - offset, 3
    {
      var end := Find(Rest(), ":");
      if end.None? {
        return Failure(MissingColon);
      }
      var key := Trim(Rest()[..end.value]);
      if !ValidName(key) {
        return Failure(InvalidName(key));
      }
      Advance(end.value + 1);
      var value := ParseValue();
      if value.Failure? {
        return value;
      }
      if HasKey(fields, key) {
        return Failure(Duplicate(key));
      }
      SkipWhitespace();
      return Success(Obj(fields + [Field(key, value.value)]));
    }

    method ParseArray() returns (r: Outcome)
      requires Valid() && Rest() != "" && Rest()[0] == '['
      modifies this`offset
      ensures Valid() && offset >= old(offset)
      ensures Agrees(G.ParseArray(json, old(Rest())), r, Rest()) && (r.Success? ==> offset > old(offset))
      decreases |input| - offset, 1
    {
      Advance(1);
      SkipWhitespace();
      var items: seq<Value> := [];
      var closed := ConsumeByte(']');
      if closed {
        return Success(Arr(items));
      }
      ghost var first := Rest();
      while true
        invariant Valid() && offset > old(offset)
        invariant G.ParseItems(json, Rest(), items) == G.ParseItems(json, first, [])
        decreases |input| - offset
      {
        var value := ParseValue();
        if value.Failure? {
          return value;
        }
        items := items + [value.value];
        SkipWhitespace();
        closed := ConsumeByte(']');
        if closed {
          return Success(Arr(items));
        }
        closed := ConsumeByte(',');
        if !closed {
          return Failure(Expected(','));
        }
      }
    }
  }
}
