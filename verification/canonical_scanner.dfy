/** The hand-written scanner: a cursor over the bytes, accepting exactly what the recursive reading accepts. */
module CanonicalScanner {
  import opened Outcomes
  import opened CanonicalJson

  datatype ScanError = Invalid

  class Scanner {
    const bytes: Bytes
    var cursor: nat

    ghost predicate Valid()
      reads this
    {
      cursor <= |bytes|
    }

    constructor (bytes: Bytes)
      ensures this.bytes == bytes && cursor == 0 && Valid()
    {
      this.bytes, cursor := bytes, 0;
    }

    function Peek(): Option<Byte>
      requires Valid()
      reads this
    {
      if cursor < |bytes| then Some(bytes[cursor]) else None
    }

    method Take(c: Byte) returns (taken: bool)
      requires Valid()
      modifies this
      ensures Valid() && taken == At(bytes, old(cursor), c)
      ensures cursor == if taken then old(cursor) + 1 else old(cursor)
    {
      taken := Peek() == Some(c);
      if taken { cursor := cursor + 1; }
    }

    method Expect(c: Byte) returns (r: Result<Unit, ScanError>)
      requires Valid()
      modifies this
      ensures Valid() && (r.Ok? <==> At(bytes, old(cursor), c))
      ensures cursor == if r.Ok? then old(cursor) + 1 else old(cursor)
    {
      var taken := Take(c);
      return if taken then Ok(Unit) else Err(Invalid);
    }

    method ScanLiteral(word: Bytes) returns (r: Result<Unit, ScanError>)
      requires Valid()
      modifies this
      ensures Valid() && (r.Ok? <==> Literal(bytes, old(cursor), word))
      ensures cursor == if r.Ok? then old(cursor) + |word| else old(cursor)
    {
      var end := cursor + |word|;
      if end > |bytes| || bytes[cursor..end] != word { return Err(Invalid); }
      cursor := end;
      return Ok(Unit);
    }

    /** A quoted string without escapes or control characters. */
    method ScanString() returns (r: Result<Bytes, ScanError>)
      requires Valid()
      modifies this
      ensures Valid() && old(cursor) <= cursor
      ensures match ParseText(bytes, old(cursor))
              case None => r.Err?
              case Some(p) => r == Ok(p.value) && cursor == p.end
    {
      var _ :- Expect('"');
      var start := cursor;
      while cursor < |bytes|
        invariant start <= cursor <= |bytes| && start == old(cursor) + 1
        invariant TextEnd(bytes, start) == TextEnd(bytes, cursor)
        decreases |bytes| - cursor
      {
        var c := bytes[cursor];
        if c == '"' {
          var text := bytes[start..cursor];
          cursor := cursor + 1;
          return Ok(text);
        }
        if c == '\\' || c as int < 0x20 { return Err(Invalid); }
        cursor := cursor + 1;
      }
      return Err(Invalid);
    }

    /** Any value: moves past it exactly when one starts here. */
    method ScanValue() returns (r: Result<Unit, ScanError>)
      requires Valid()
      modifies this
      ensures Valid() && old(cursor) <= cursor
      ensures match ParseValue(bytes, old(cursor))
              case None => r.Err?
              case Some(p) => r.Ok? && cursor == p.end
      decreases |bytes| - cursor, 1
    {
      LiteralHeads(bytes, cursor);
      match Peek()
      case None => return Err(Invalid);
      case Some(c) =>
        if c == '{' {
          r := ScanObject();
        } else if c == '"' {
          var _ :- ScanString();
          return Ok(Unit);
        } else if c == 'n' {
          r := ScanLiteral(['n', 'u', 'l', 'l']);
        } else if c == 't' {
          r := ScanLiteral(['t', 'r', 'u', 'e']);
        } else if c == 'f' {
          r := ScanLiteral(['f', 'a', 'l', 's', 'e']);
        } else {
          return Err(Invalid);
        }
    }

    /** An object; a repeated key ends the scan. */
    method ScanObject() returns (r: Result<Unit, ScanError>)
      requires Valid()
      modifies this
      ensures Valid() && old(cursor) <= cursor
      ensures !At(bytes, old(cursor), '{') ==> r.Err?
      ensures At(bytes, old(cursor), '{') ==>
                match ParseValue(bytes, old(cursor))
                case None => r.Err?
                case Some(p) => r.Ok? && cursor == p.end
      decreases |bytes| - cursor, 0
    {
      hide ParseValue, ParseMembers, ParseText;
      if At(bytes, cursor, '{') { ObjectStep(bytes, cursor); }
      var _ :- Expect('{');
      var keys: set<Bytes> := {};
      var empty := Take('}');
      if empty { return Ok(Unit); }
      ghost var start := cursor;
      while true
        invariant old(cursor) < start <= cursor <= |bytes|
        invariant EndOf(ParseMembers(bytes, start, {})) == EndOf(ParseMembers(bytes, cursor, keys))
        decreases |bytes| - cursor
      {
        MembersStep(bytes, cursor, keys);
        var key :- ScanString();
        if key in keys { return Err(Invalid); }
        keys := keys + {key};
        var _ :- Expect(':');
        var _ :- ScanValue();
        var closed := Take('}');
        if closed { return Ok(Unit); }
        var _ :- Expect(',');
      }
    }
  }

  function EndOf(p: Option<Parsed<Members>>): Option<nat> {
    if p.None? then None else Some(p.value.end)
  }

  lemma ObjectStep(b: Bytes, i: nat)
    requires At(b, i, '{')
    ensures if At(b, i + 1, '}') then ParseValue(b, i) == Some(Parsed(Object(End), i + 2))
            else match ParseValue(b, i)
                 case None => ParseMembers(b, i + 1, {}).None?
                 case Some(p) => EndOf(ParseMembers(b, i + 1, {})) == Some(p.end)
  {
  }

  /** Where the members starting here end, in terms of the first of them. */
  lemma MembersStep(b: Bytes, i: nat, seen: set<Bytes>)
    requires i <= |b|
    ensures match ParseText(b, i)
            case None => EndOf(ParseMembers(b, i, seen)) == None
            case Some(k) =>
              if k.value in seen || !At(b, k.end, ':') then EndOf(ParseMembers(b, i, seen)) == None
              else match ParseValue(b, k.end + 1)
                   case None => EndOf(ParseMembers(b, i, seen)) == None
                   case Some(v) =>
                     EndOf(ParseMembers(b, i, seen)) ==
                       if At(b, v.end, '}') then Some(v.end + 1)
                       else if At(b, v.end, ',') then EndOf(ParseMembers(b, v.end + 1, seen + {k.value}))
                       else None
  {
    hide ParseText, ParseValue;
  }

  /** The whole input is one value. */
  method Accepts(bytes: Bytes) returns (r: Result<Unit, ScanError>)
    ensures r.Ok? <==> exists d: Doc :: WellFormed(d) && Render(d) == bytes
  {
    var scanner := new Scanner(bytes);
    AcceptedExactly(bytes);
    var _ :- scanner.ScanValue();
    if scanner.cursor != |bytes| { return Err(Invalid); }
    return Ok(Unit);
  }

  /** The reading covers all of the input exactly when the input is the writing of a well-formed document. */
  lemma AcceptedExactly(bytes: Bytes)
    ensures ParseValue(bytes, 0).Some? && ParseValue(bytes, 0).value.end == |bytes| <==>
              exists d: Doc :: WellFormed(d) && Render(d) == bytes
    ensures forall d: Doc :: WellFormed(d) && Render(d) == bytes ==> ParseValue(bytes, 0) == Some(Parsed(d, |bytes|))
  {
    hide ParseValue, Render, WellFormed;
    assert bytes[0..|bytes|] == bytes;
    forall d: Doc | WellFormed(d) && Render(d) == bytes
      ensures ParseValue(bytes, 0) == Some(Parsed(d, |bytes|))
    {
      ReadsDoc(bytes, 0, d);
    }
    if ParseValue(bytes, 0).Some? && ParseValue(bytes, 0).value.end == |bytes| {
      DocWasWritten(bytes, 0);
      assert Render(ParseValue(bytes, 0).value.value) == bytes;
    }
  }
}
