/**
 The RCJ-1 documents: JSON without whitespace, escapes, numbers, arrays or repeated keys (compare
 sections 2 to 7 of RFC 8259). How they are written, and a recursive reading that inverts it.
 */
module CanonicalJson {
  import opened Outcomes

  datatype Doc = Null | True | False | Text(text: Bytes) | Object(members: Members)
  datatype Members = End | Member(key: Bytes, value: Doc, rest: Members)

  /** A byte that stands for itself inside a string. */
  predicate Plain(c: Byte) {
    c != '"' && c != '\\' && c as int >= 0x20
  }

  predicate PlainText(s: Bytes) {
    forall i :: 0 <= i < |s| ==> Plain(s[i])
  }

  predicate WellFormed(d: Doc) {
    match d
    case Text(s) => PlainText(s)
    case Object(m) => MembersWellFormed(m, {})
    case _ => true
  }

  /** Plain keys, none repeated and none in `seen`; well-formed values. */
  predicate MembersWellFormed(m: Members, seen: set<Bytes>) {
    match m
    case End => true
    case Member(k, v, rest) =>
      PlainText(k) && k !in seen && WellFormed(v) && MembersWellFormed(rest, seen + {k})
  }

  // ---- writing ----------------------------------------------------------------------------------

  function Quote(s: Bytes): (r: Bytes)
    ensures |r| == |s| + 2
  {
    ['"'] + s + ['"']
  }

  function Render(d: Doc): Bytes
    decreases d, 0
  {
    match d
    case Null => ['n', 'u', 'l', 'l']
    case True => ['t', 'r', 'u', 'e']
    case False => ['f', 'a', 'l', 's', 'e']
    case Text(s) => Quote(s)
    case Object(End) => ['{', '}']
    case Object(m) => ['{'] + RenderMembers(m)
  }

  /** Members separated by commas, up to and including the closing brace. */
  function RenderMembers(m: Members): Bytes
    requires m.Member?
    decreases m, 0
  {
    Quote(m.key) + [':'] + Render(m.value) + RenderRest(m.rest)
  }

  function RenderRest(m: Members): Bytes
    decreases m, 1
  {
    if m.End? then ['}'] else [','] + RenderMembers(m)
  }

  // ---- reading ----------------------------------------------------------------------------------

  datatype Parsed<T> = Parsed(value: T, end: nat)

  predicate At(b: Bytes, i: nat, c: Byte) {
    i < |b| && b[i] == c
  }

  /** Position of the quote that closes the string whose characters start at `i`. */
  function TextEnd(b: Bytes, i: nat): (r: Option<nat>)
    requires i <= |b|
    ensures r.Some? ==> i <= r.value < |b| && b[r.value] == '"' && PlainText(b[i..r.value])
    decreases |b| - i
  {
    if i == |b| then None
    else if b[i] == '"' then Some(i)
    else if !Plain(b[i]) then None
    else TextEnd(b, i + 1)
  }

  function ParseText(b: Bytes, i: nat): (r: Option<Parsed<Bytes>>)
    requires i <= |b|
    ensures r.Some? ==> i + 2 <= r.value.end <= |b|
  {
    if !At(b, i, '"') then None
    else match TextEnd(b, i + 1)
         case None => None
         case Some(j) => Some(Parsed(b[i + 1..j], j + 1))
  }

  predicate Literal(b: Bytes, i: nat, word: Bytes) {
    i + |word| <= |b| && b[i..i + |word|] == word
  }

  function ParseValue(b: Bytes, i: nat): (r: Option<Parsed<Doc>>)
    requires i <= |b|
    ensures r.Some? ==> i < r.value.end <= |b|
    decreases |b| - i, 0
  {
    if i == |b| then None
    else if b[i] == '{' then
      if At(b, i + 1, '}') then Some(Parsed(Object(End), i + 2))
      else match ParseMembers(b, i + 1, {})
           case None => None
           case Some(p) => Some(Parsed(Object(p.value), p.end))
    else if b[i] == '"' then
      match ParseText(b, i)
      case None => None
      case Some(p) => Some(Parsed(Text(p.value), p.end))
    else if Literal(b, i, ['n', 'u', 'l', 'l']) then Some(Parsed(Null, i + 4))
    else if Literal(b, i, ['t', 'r', 'u', 'e']) then Some(Parsed(True, i + 4))
    else if Literal(b, i, ['f', 'a', 'l', 's', 'e']) then Some(Parsed(False, i + 5))
    else None
  }

  function ParseMembers(b: Bytes, i: nat, seen: set<Bytes>): (r: Option<Parsed<Members>>)
    requires i <= |b|
    ensures r.Some? ==> i < r.value.end <= |b| && r.value.value.Member?
    decreases |b| - i, 1
  {
    match ParseText(b, i)
    case None => None
    case Some(k) =>
      if k.value in seen || !At(b, k.end, ':') then None
      else match ParseValue(b, k.end + 1)
           case None => None
           case Some(v) =>
             if At(b, v.end, '}') then Some(Parsed(Member(k.value, v.value, End), v.end + 1))
             else if !At(b, v.end, ',') then None
             else match ParseMembers(b, v.end + 1, seen + {k.value})
                  case None => None
                  case Some(rest) => Some(Parsed(Member(k.value, v.value, rest.value), rest.end))
  }

  // ---- reading undoes writing -------------------------------------------------------------------

  predicate Occurs(b: Bytes, i: nat, s: Bytes) {
    i + |s| <= |b| && b[i..i + |s|] == s
  }

  lemma OccursParts(b: Bytes, i: nat, s: Bytes, t: Bytes)
    ensures Occurs(b, i, s + t) <==> Occurs(b, i, s) && Occurs(b, i + |s|, t)
  {
    if i + |s| + |t| <= |b| {
      assert b[i..i + |s + t|] == b[i..i + |s|] + b[i + |s|..i + |s| + |t|];
      assert b[i..i + |s|] == b[i..i + |s + t|][..|s|];
      if Occurs(b, i, s + t) {
        assert (s + t)[..|s|] == s && (s + t)[|s|..] == t;
        assert b[i + |s|..i + |s| + |t|] == b[i..i + |s + t|][|s|..];
      }
    }
  }

  lemma OccursByte(b: Bytes, i: nat, c: Byte)
    ensures Occurs(b, i, [c]) <==> At(b, i, c)
  {
    if i < |b| {
      assert b[i..i + 1] == [b[i]];
    }
  }

  lemma OccursIndex(b: Bytes, i: nat, s: Bytes, k: nat)
    requires Occurs(b, i, s) && k < |s|
    ensures i + k < |b| && b[i + k] == s[k]
  {
    assert b[i..i + |s|][k] == b[i + k];
  }

  lemma {:induction false} TextEndAt(b: Bytes, i: nat, s: Bytes)
    requires i <= |b| && PlainText(s) && Occurs(b, i, s + ['"'])
    ensures TextEnd(b, i) == Some(i + |s|)
    decreases |s|
  {
    OccursIndex(b, i, s + ['"'], 0);
    if |s| > 0 {
      assert s + ['"'] == [s[0]] + (s[1..] + ['"']);
      OccursParts(b, i, [s[0]], s[1..] + ['"']);
      assert (s + ['"'])[0] == s[0];
      TextEndAt(b, i + 1, s[1..]);
    }
  }

  /** A quoted plain text is read back, whatever follows it. */
  lemma ReadsText(b: Bytes, i: nat, s: Bytes)
    requires i <= |b| && PlainText(s) && Occurs(b, i, Quote(s))
    ensures ParseText(b, i) == Some(Parsed(s, i + |s| + 2))
  {
    assert Quote(s) == ['"'] + (s + ['"']);
    OccursParts(b, i, ['"'], s + ['"']);
    OccursByte(b, i, '"');
    TextEndAt(b, i + 1, s);
    OccursParts(b, i + 1, s, ['"']);
    assert b[i + 1..i + 1 + |s|] == s;
  }

  /** Whatever text is read was written there, and is plain. */
  lemma TextWasWritten(b: Bytes, i: nat)
    requires i <= |b| && ParseText(b, i).Some?
    ensures var p := ParseText(b, i).value;
            PlainText(p.value) && p.end == i + |Quote(p.value)| && Occurs(b, i, Quote(p.value))
  {
    var p := ParseText(b, i).value;
    assert b[i..p.end] == Quote(p.value);
  }

  /** Reading inverts writing: every well-formed document is read back, whatever follows it. */
  lemma {:induction false} ReadsDoc(b: Bytes, i: nat, d: Doc)
    requires i <= |b| && WellFormed(d) && Occurs(b, i, Render(d))
    ensures ParseValue(b, i) == Some(Parsed(d, i + |Render(d)|))
    decreases d, 0
  {
    match d
    case Text(s) =>
      OccursIndex(b, i, Quote(s), 0);
      ReadsText(b, i, s);
    case Object(m) => ReadsObject(b, i, m);
    case _ => ReadsWord(b, i, d);
  }

  lemma ReadsWord(b: Bytes, i: nat, d: Doc)
    requires i <= |b| && (d.Null? || d.True? || d.False?) && Occurs(b, i, Render(d))
    ensures ParseValue(b, i) == Some(Parsed(d, i + |Render(d)|))
  {
    OccursIndex(b, i, Render(d), 0);
    LiteralHeads(b, i);
  }

  lemma LiteralHeads(b: Bytes, i: nat)
    ensures Literal(b, i, ['n', 'u', 'l', 'l']) ==> At(b, i, 'n')
    ensures Literal(b, i, ['t', 'r', 'u', 'e']) ==> At(b, i, 't')
    ensures Literal(b, i, ['f', 'a', 'l', 's', 'e']) ==> At(b, i, 'f')
  {
    if Literal(b, i, ['n', 'u', 'l', 'l']) {
      OccursIndex(b, i, ['n', 'u', 'l', 'l'], 0);
    }
    if Literal(b, i, ['t', 'r', 'u', 'e']) {
      OccursIndex(b, i, ['t', 'r', 'u', 'e'], 0);
    }
    if Literal(b, i, ['f', 'a', 'l', 's', 'e']) {
      OccursIndex(b, i, ['f', 'a', 'l', 's', 'e'], 0);
    }
  }

  lemma {:induction false} ReadsObject(b: Bytes, i: nat, m: Members)
    requires i <= |b| && MembersWellFormed(m, {}) && Occurs(b, i, Render(Object(m)))
    ensures ParseValue(b, i) == Some(Parsed(Object(m), i + |Render(Object(m))|))
    decreases m, 2
  {
    hide ParseMembers, RenderMembers, MembersWellFormed;
    if m.End? {
      OccursIndex(b, i, ['{', '}'], 0);
      OccursIndex(b, i, ['{', '}'], 1);
    } else {
      OccursParts(b, i, ['{'], RenderMembers(m));
      OccursByte(b, i, '{');
      MemberLayout(b, i + 1, m);
      OccursIndex(b, i + 1, Quote(m.key), 0);
      ReadsMembers(b, i + 1, m, {});
    }
  }

  /** A member occurs exactly where its key, colon, value and remainder do, one after the other. */
  lemma MemberLayout(b: Bytes, i: nat, m: Members)
    requires m.Member?
    ensures var j := i + |Quote(m.key)|;
            var e := j + 1 + |Render(m.value)|;
            |RenderMembers(m)| == e + |RenderRest(m.rest)| - i
            && (Occurs(b, i, RenderMembers(m)) <==>
                  Occurs(b, i, Quote(m.key)) && At(b, j, ':') && Occurs(b, j + 1, Render(m.value))
                  && Occurs(b, e, RenderRest(m.rest)))
  {
    hide Occurs, At, Render, RenderRest, Quote;
    var k, v, tail := Quote(m.key), Render(m.value), RenderRest(m.rest);
    assert RenderMembers(m) == k + ([':'] + (v + tail));
    OccursParts(b, i, k, [':'] + (v + tail));
    OccursParts(b, i + |k|, [':'], v + tail);
    OccursByte(b, i + |k|, ':');
    OccursParts(b, i + |k| + 1, v, tail);
  }

  lemma RestLayout(b: Bytes, i: nat, m: Members)
    ensures |RenderRest(m)| == if m.End? then 1 else 1 + |RenderMembers(m)|
    ensures Occurs(b, i, RenderRest(m)) <==>
              if m.End? then At(b, i, '}') else At(b, i, ',') && Occurs(b, i + 1, RenderMembers(m))
  {
    hide Occurs, At, RenderMembers;
    if m.End? {
      OccursByte(b, i, '}');
    } else {
      OccursParts(b, i, [','], RenderMembers(m));
      OccursByte(b, i, ',');
    }
  }

  lemma {:induction false} ReadsMembers(b: Bytes, i: nat, m: Members, seen: set<Bytes>)
    requires i <= |b| && m.Member? && MembersWellFormed(m, seen) && Occurs(b, i, RenderMembers(m))
    ensures ParseMembers(b, i, seen) == Some(Parsed(m, i + |RenderMembers(m)|))
    decreases m, 1
  {
    hide Occurs, Render, RenderMembers, RenderRest, ParseText, ParseValue, WellFormed, PlainText;
    var j := i + |Quote(m.key)|;
    var e := j + 1 + |Render(m.value)|;
    MemberLayout(b, i, m);
    ReadsText(b, i, m.key);
    ReadsDoc(b, j + 1, m.value);
    RestLayout(b, e, m.rest);
    if !m.rest.End? {
      ReadsMembers(b, e + 1, m.rest, seen + {m.key});
    }
  }

  /** Whatever is read was written there, and is well formed. */
  lemma {:induction false} DocWasWritten(b: Bytes, i: nat)
    requires i <= |b| && ParseValue(b, i).Some?
    ensures var p := ParseValue(b, i).value;
            WellFormed(p.value) && p.end == i + |Render(p.value)| && Occurs(b, i, Render(p.value))
    decreases |b| - i, 0
  {
    if b[i] == '{' {
      if At(b, i + 1, '}') {
        assert b[i..i + 2] == ['{', '}'];
      } else {
        MembersWereWritten(b, i + 1, {});
        var m := ParseMembers(b, i + 1, {}).value.value;
        assert b[i..i + 1] == ['{'];
        OccursParts(b, i, ['{'], RenderMembers(m));
      }
    } else if b[i] == '"' {
      TextWasWritten(b, i);
    }
  }

  lemma {:induction false} MembersWereWritten(b: Bytes, i: nat, seen: set<Bytes>)
    requires i <= |b| && ParseMembers(b, i, seen).Some?
    ensures var p := ParseMembers(b, i, seen).value;
            p.value.Member? && MembersWellFormed(p.value, seen) && p.end == i + |RenderMembers(p.value)|
            && Occurs(b, i, RenderMembers(p.value))
    decreases |b| - i, 1
  {
    hide Occurs, Render, RenderMembers, RenderRest, ParseText, ParseValue, WellFormed, PlainText;
    TextWasWritten(b, i);
    var k := ParseText(b, i).value;
    DocWasWritten(b, k.end + 1);
    var d := ParseValue(b, k.end + 1).value;
    var m := ParseMembers(b, i, seen).value.value;
    if !m.rest.End? {
      MembersWereWritten(b, d.end + 1, seen + {k.value});
    }
    MemberLayout(b, i, m);
    RestLayout(b, d.end, m.rest);
  }

  /** No two well-formed documents are written alike. */
  lemma RenderIsInjective(d: Doc, e: Doc)
    requires WellFormed(d) && WellFormed(e) && Render(d) == Render(e)
    ensures d == e
  {
    var b := Render(d);
    assert b[0..0 + |b|] == b;
    ReadsDoc(b, 0, d);
    ReadsDoc(b, 0, e);
  }
}
