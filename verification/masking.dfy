/**
 Byte-preserving masking of Rust source text: comments are always blanked, string and character
 literals on request, and every byte keeps its index.
 */
module Masking {
  import opened Outcomes

  predicate Is(t: Bytes, i: nat, c: Byte) {
    i < |t| && t[i] == c
  }

  // ---- where tokens end -------------------------------------------------------------------------

  function LineEnd(t: Bytes, i: nat): (e: nat)
    requires i <= |t|
    ensures i <= e <= |t| && (e < |t| ==> t[e] == '\n') && forall k :: i <= k < e ==> t[k] != '\n'
    decreases |t| - i
  {
    if i == |t| || t[i] == '\n' then i else LineEnd(t, i + 1)
  }

  /** End of a block comment body at nesting depth `level`. */
  function BlockEnd(t: Bytes, i: nat, level: nat): (e: nat)
    requires i <= |t|
    ensures i <= e <= |t|
    ensures level > 0 ==> e == |t| || (i < e && t[e - 1] == '/')
    decreases |t| - i
  {
    if i == |t| || level == 0 then i
    else if t[i] == '/' && Is(t, i + 1, '*') then BlockEnd(t, i + 2, level + 1)
    else if t[i] == '*' && Is(t, i + 1, '/') then BlockEnd(t, i + 2, level - 1)
    else BlockEnd(t, i + 1, level)
  }

  /** End of a string whose characters start at `i`: its closing quote, the end of line, or the end of text. */
  function StringEnd(t: Bytes, i: nat): (e: nat)
    requires i <= |t|
    ensures i <= e <= |t|
    ensures e == |t| || t[e] == '\n' || (i < e && t[e - 1] == '"')
    decreases |t| - i
  {
    if i == |t| then i
    else if t[i] == '\\' && i + 1 < |t| then StringEnd(t, i + 2)
    else if t[i] == '"' then i + 1
    else if t[i] == '\n' then i
    else StringEnd(t, i + 1)
  }

  /** First closing quote in `i..limit`, or `none`; with `line` set a newline ends the search. */
  function QuoteBefore(t: Bytes, i: nat, limit: nat, line: bool, none: nat): (e: nat)
    requires limit <= |t|
    ensures e == none || (i <= e < limit && t[e] == '\'')
    ensures i <= e < limit && t[e] == '\'' && e != none ==>
              forall k :: i <= k < e ==> t[k] != '\'' && (line ==> t[k] != '\n')
    ensures e == none && !(i <= none < limit) ==>
              forall q :: i <= q < limit && t[q] == '\'' ==>
                exists k :: i <= k < q && (t[k] == '\'' || (line && t[k] == '\n'))
    decreases limit - i
  {
    if i >= limit then none
    else if t[i] == '\'' then i
    else if line && t[i] == '\n' then none
    else QuoteBefore(t, i + 1, limit, line, none)
  }

  function AtMost(a: nat, b: nat): nat {
    if a < b then a else b
  }

  /** The quote closing a character literal, or its opening quote if it is a lifetime. */
  function CharEnd(t: Bytes, start: nat): (e: nat)
    requires Is(t, start, '\'')
    ensures start <= e < |t| && t[e] == '\''
  {
    if Is(t, start + 1, '\\') then QuoteBefore(t, start + 2, AtMost(start + 13, |t|), false, start)
    else if start + 1 < |t| && t[start + 1] != '\'' && t[start + 1] != '\n'
    then QuoteBefore(t, start + 2, AtMost(start + 6, |t|), true, start)
    else start
  }

  function HashEnd(t: Bytes, i: nat): (e: nat)
    requires i <= |t|
    ensures i <= e <= |t| && !Is(t, e, '#') && forall k :: i <= k < e ==> t[k] == '#'
    decreases |t| - i
  {
    if Is(t, i, '#') then HashEnd(t, i + 1) else i
  }

  predicate Hashes(t: Bytes, i: nat, n: nat) {
    i + n <= |t| && forall k :: i <= k < i + n ==> t[k] == '#'
  }

  /** One past the closing quote and hashes of a raw string body. */
  function RawClose(t: Bytes, i: nat, hashes: nat): (e: Option<nat>)
    requires i <= |t|
    ensures e.Some? ==> i < e.value <= |t| && (t[e.value - 1] == '"' || t[e.value - 1] == '#')
    decreases |t| - i
  {
    if i == |t| then None
    else if t[i] == '"' && Hashes(t, i + 1, hashes) then Some(i + 1 + hashes)
    else RawClose(t, i + 1, hashes)
  }

  function RawEnd(t: Bytes, start: nat): (e: Option<nat>)
    requires start <= |t|
    ensures e.Some? ==> Is(t, start, 'r') && start < e.value <= |t| && (t[e.value - 1] == '"' || t[e.value - 1] == '#')
    ensures e.Some? ==> exists q :: start < q < |t| && t[q] == '"'
  {
    if !Is(t, start, 'r') then None
    else
      var open := HashEnd(t, start + 1);
      if Is(t, open, '"') then RawClose(t, open + 1, open - (start + 1)) else None
  }

  datatype Kind = Comment | Literal | Code

  datatype Token = Token(end: nat, kind: Kind)

  /** The token that starts at `i`. */
  function TokenAt(t: Bytes, i: nat): (r: Token)
    requires i < |t|
    ensures i < r.end <= |t| && (r.kind.Code? ==> r.end == i + 1)
  {
    if t[i] == '/' && Is(t, i + 1, '/') then
      assert LineEnd(t, i) > i;
      Token(LineEnd(t, i), Comment)
    else if t[i] == '/' && Is(t, i + 1, '*') then Token(BlockEnd(t, i + 2, 1), Comment)
    else if t[i] == '"' then Token(StringEnd(t, i + 1), Literal)
    else if t[i] == '\'' then Token(CharEnd(t, i) + 1, Literal)
    else match RawEnd(t, i)
         case Some(e) => Token(e, Literal)
         case None => Token(i + 1, Code)
  }

  // ---- the same tokens, by what they are rather than by scanning ------------------------------------

  /** How many backslashes stand in a row just before `k`, none of them before `a`. */
  function Backslashes(t: Bytes, a: nat, k: nat): nat
    requires a <= k <= |t|
    decreases k
  {
    if a < k && t[k - 1] == '\\' then 1 + Backslashes(t, a, k - 1) else 0
  }

  /** A quote or newline of a string body that is not escaped. */
  predicate Stops(t: Bytes, a: nat, k: nat) {
    a <= k < |t| && (t[k] == '"' || t[k] == '\n') && Backslashes(t, a, k) % 2 == 0
  }

  /** A string body from `a` ends after its first unescaped quote, before its first unescaped newline, or with the text. */
  ghost predicate StringSpan(t: Bytes, a: nat, e: nat) {
    a <= e <= |t|
    && if forall k :: a <= k < |t| ==> !Stops(t, a, k) then e == |t|
       else exists k: nat :: Stops(t, a, k) && (forall j :: a <= j < k ==> !Stops(t, a, j))
                        && e == if t[k] == '"' then k + 1 else k
  }

  lemma {:induction false} StringEndIsSpan(t: Bytes, a: nat, i: nat)
    requires a <= i <= |t| && (i == |t| || Backslashes(t, a, i) % 2 == 0)
    requires forall k :: a <= k < i ==> !Stops(t, a, k)
    ensures StringSpan(t, a, StringEnd(t, i))
    decreases |t| - i
  {
    if i < |t| {
      if t[i] == '\\' && i + 1 < |t| {
        assert Backslashes(t, a, i + 1) == 1 + Backslashes(t, a, i);
        StringEndIsSpan(t, a, i + 2);
      } else if t[i] == '"' || t[i] == '\n' {
        assert Stops(t, a, i);
      } else {
        StringEndIsSpan(t, a, i + 1);
      }
    }
  }

  predicate OpensBlock(t: Bytes, p: nat) {
    Is(t, p, '/') && Is(t, p + 1, '*')
  }

  predicate ClosesBlock(t: Bytes, p: nat) {
    Is(t, p, '*') && Is(t, p + 1, '/')
  }

  /** The text from `a` read left to right: each mark is two bytes, everything else one. */
  ghost predicate Marks(t: Bytes, a: nat, cuts: seq<nat>) {
    cuts != [] && cuts[0] == a && (forall j :: 0 <= j < |cuts| ==> cuts[j] <= |t|)
    && forall j :: 0 <= j < |cuts| - 1 ==>
         cuts[j + 1] == cuts[j] + if OpensBlock(t, cuts[j]) || ClosesBlock(t, cuts[j]) then 2 else 1
  }

  /** Openings minus closings among the first `n` marks, counting the one that opened the comment. */
  ghost function Depth(t: Bytes, cuts: seq<nat>, n: nat): int
    requires n <= |cuts|
  {
    if n == 0 then 1
    else Depth(t, cuts, n - 1)
         + if OpensBlock(t, cuts[n - 1]) then 1 else if ClosesBlock(t, cuts[n - 1]) then -1 else 0
  }

  /** A block comment ends at the first point where openings and closings balance, or with the text. */
  ghost predicate Balances(t: Bytes, a: nat, e: nat, cuts: seq<nat>) {
    Marks(t, a, cuts) && cuts[|cuts| - 1] == e
    && (forall j :: 0 <= j < |cuts| - 1 ==> Depth(t, cuts, j) > 0)
    && (Depth(t, cuts, |cuts| - 1) == 0 || (e == |t| && Depth(t, cuts, |cuts| - 1) > 0))
  }

  ghost predicate BlockSpan(t: Bytes, a: nat, e: nat) {
    exists cuts :: Balances(t, a, e, cuts)
  }

  lemma {:induction false} DepthOfPrefix(t: Bytes, cuts: seq<nat>, p: nat, n: nat)
    requires n <= |cuts|
    ensures Depth(t, cuts + [p], n) == Depth(t, cuts, n)
  {
    if n > 0 {
      DepthOfPrefix(t, cuts, p, n - 1);
    }
  }

  lemma {:induction false} BlockEndIsSpan(t: Bytes, a: nat, cuts: seq<nat>)
    requires Marks(t, a, cuts) && forall j :: 0 <= j < |cuts| ==> Depth(t, cuts, j) > 0
    ensures BlockSpan(t, a, BlockEnd(t, cuts[|cuts| - 1], Depth(t, cuts, |cuts| - 1)))
    decreases |t| - cuts[|cuts| - 1]
  {
    var n := |cuts| - 1;
    var i := cuts[n];
    if i == |t| {
      assert Balances(t, a, i, cuts);
    } else {
      var next := i + if OpensBlock(t, i) || ClosesBlock(t, i) then 2 else 1;
      var longer := cuts + [next];
      forall j | 0 <= j <= n + 1
        ensures Depth(t, longer, j) == Depth(t, cuts, j)
      {
        DepthOfPrefix(t, cuts, next, j);
      }
      if Depth(t, longer, n + 1) > 0 {
        BlockEndIsSpan(t, a, longer);
      } else {
        assert Balances(t, a, next, longer);
      }
    }
  }

  lemma {:induction false} SpanIsBlockEnd(t: Bytes, a: nat, e: nat, cuts: seq<nat>, j: nat)
    requires Balances(t, a, e, cuts) && j < |cuts|
    ensures Depth(t, cuts, j) >= 0 && BlockEnd(t, cuts[j], Depth(t, cuts, j)) == e
    decreases |cuts| - j
  {
    if j < |cuts| - 1 {
      SpanIsBlockEnd(t, a, e, cuts, j + 1);
    }
  }

  /** The quote that closes a character literal opened at `start`: near enough, and on the same line unless escaped. */
  predicate ClosesChar(t: Bytes, start: nat, q: nat) {
    start + 2 <= q < |t| && t[q] == '\'' && (forall k :: start + 2 <= k < q ==> t[k] != '\'')
    && if t[start + 1] == '\\' then q < start + 13
       else t[start + 1] != '\'' && t[start + 1] != '\n' && q <= start + 5
            && forall k :: start + 2 <= k < q ==> t[k] != '\n'
  }

  /** A character literal ends with its closing quote; without one the quote stands alone, as in a lifetime. */
  ghost predicate CharSpan(t: Bytes, start: nat, e: nat) {
    ClosesChar(t, start, e) || (e == start && forall q :: start < q < |t| ==> !ClosesChar(t, start, q))
  }

  lemma CharEndIsSpan(t: Bytes, start: nat, e: nat)
    requires Is(t, start, '\'')
    ensures CharSpan(t, start, e) <==> e == CharEnd(t, start)
  {
    var c := CharEnd(t, start);
    if c != start {
      assert ClosesChar(t, start, c);
    } else {
      forall q | start < q < |t|
        ensures !ClosesChar(t, start, q)
      {
      }
    }
  }

  /** A quote followed by enough hashes. */
  predicate Closes(t: Bytes, q: nat, hashes: nat) {
    Is(t, q, '"') && Hashes(t, q + 1, hashes)
  }

  lemma {:induction false} RawCloseIsFirst(t: Bytes, i: nat, hashes: nat)
    requires i <= |t|
    ensures match RawClose(t, i, hashes)
            case Some(end) => i + 1 + hashes <= end && Closes(t, end - 1 - hashes, hashes)
                              && forall q :: i <= q < end - 1 - hashes ==> !Closes(t, q, hashes)
            case None => forall q :: i <= q < |t| ==> !Closes(t, q, hashes)
    decreases |t| - i
  {
    hide Hashes;
    if i < |t| && !Closes(t, i, hashes) {
      RawCloseIsFirst(t, i + 1, hashes);
    }
  }

  /** A raw string opened at `start` with so many hashes ends after its first quote followed by as many. */
  ghost predicate RawSpan(t: Bytes, start: nat, hashes: nat, e: nat) {
    Is(t, start, 'r') && Hashes(t, start + 1, hashes) && Is(t, start + 1 + hashes, '"')
    && start + 2 + hashes <= e - 1 - hashes && Closes(t, e - 1 - hashes, hashes)
    && forall q :: start + 2 + hashes <= q < e - 1 - hashes ==> !Closes(t, q, hashes)
  }

  lemma RawEndIsSpan(t: Bytes, start: nat, hashes: nat, e: nat)
    requires start <= |t|
    ensures RawSpan(t, start, hashes, e) ==> RawEnd(t, start) == Some(e)
    ensures RawEnd(t, start) == Some(e) ==> RawSpan(t, start, HashEnd(t, start + 1) - (start + 1), e)
  {
    hide RawSpan;
    if RawSpan(t, start, hashes, e) {
      SpanIsRawEnd(t, start, hashes, e);
    }
    if RawEnd(t, start) == Some(e) {
      RawEndSpans(t, start, e);
    }
  }

  lemma RawEndSpans(t: Bytes, start: nat, e: nat)
    requires start <= |t| && RawEnd(t, start) == Some(e)
    ensures RawSpan(t, start, HashEnd(t, start + 1) - (start + 1), e)
  {
    var open := HashEnd(t, start + 1);
    RawCloseIsFirst(t, open + 1, open - (start + 1));
    hide RawClose;
  }

  lemma SpanIsRawEnd(t: Bytes, start: nat, hashes: nat, e: nat)
    requires start <= |t| && RawSpan(t, start, hashes, e)
    ensures RawEnd(t, start) == Some(e)
  {
    var open := HashEnd(t, start + 1);
    assert open == start + 1 + hashes;
    RawCloseIsFirst(t, open + 1, hashes);
    hide RawClose;
    var r := RawClose(t, open + 1, hashes);
    assert r.Some?;
    assert Closes(t, r.value - 1 - hashes, hashes);
  }

  /** The token at `i`, by its first bytes: where it ends and what it is. */
  ghost predicate Spans(t: Bytes, i: nat, e: nat, kind: Kind)
    requires i < |t|
  {
    if t[i] == '/' && Is(t, i + 1, '/')
    then kind == Comment && i < e <= |t| && (e < |t| ==> t[e] == '\n') && forall k :: i <= k < e ==> t[k] != '\n'
    else if t[i] == '/' && Is(t, i + 1, '*') then kind == Comment && BlockSpan(t, i + 2, e)
    else if t[i] == '"' then kind == Literal && StringSpan(t, i + 1, e)
    else if t[i] == '\'' then kind == Literal && e > i && CharSpan(t, i, e - 1)
    else if exists n, end :: RawSpan(t, i, n, end) then kind == Literal && exists n :: RawSpan(t, i, n, e)
    else kind == Code && e == i + 1
  }

  /** The scanned token is exactly the one described. */
  lemma TokenIsTheSpan(t: Bytes, i: nat, e: nat, kind: Kind)
    requires i < |t|
    ensures Spans(t, i, e, kind) <==> TokenAt(t, i) == Token(e, kind)
  {
    hide LineEnd, BlockEnd, StringEnd, CharEnd, RawEnd, BlockSpan, StringSpan, CharSpan, RawSpan;
    if t[i] == '/' && Is(t, i + 1, '/') {
    } else if t[i] == '/' && Is(t, i + 1, '*') {
      BlockIsSpan(t, i + 2, e);
    } else if t[i] == '"' {
      StringIsSpan(t, i + 1, e);
    } else if t[i] == '\'' {
      if e > i { CharEndIsSpan(t, i, e - 1); }
    } else {
      RawIsSpan(t, i, e);
    }
  }

  lemma BlockIsSpan(t: Bytes, a: nat, e: nat)
    requires a <= |t|
    ensures BlockSpan(t, a, e) <==> e == BlockEnd(t, a, 1)
  {
    BlockEndIsSpan(t, a, [a]);
    if BlockSpan(t, a, e) {
      var cuts :| Balances(t, a, e, cuts);
      SpanIsBlockEnd(t, a, e, cuts, 0);
    }
  }

  lemma StringIsSpan(t: Bytes, a: nat, e: nat)
    requires a <= |t|
    ensures StringSpan(t, a, e) <==> e == StringEnd(t, a)
  {
    StringEndIsSpan(t, a, a);
    if StringSpan(t, a, e) && exists k :: a <= k < |t| && Stops(t, a, k) {
      var j: nat :| Stops(t, a, j) && (forall k :: a <= k < j ==> !Stops(t, a, k)) && e == if t[j] == '"' then j + 1 else j;
    }
  }

  lemma RawIsSpan(t: Bytes, i: nat, e: nat)
    requires i <= |t|
    ensures (exists n :: RawSpan(t, i, n, e)) <==> RawEnd(t, i) == Some(e)
    ensures (exists n, end :: RawSpan(t, i, n, end)) <==> RawEnd(t, i).Some?
  {
    hide RawSpan, RawEnd;
    RawEndIsSpan(t, i, 0, e);
    forall n: nat, end: nat | RawSpan(t, i, n, end)
      ensures RawEnd(t, i) == Some(end)
    {
      RawEndIsSpan(t, i, n, end);
    }
    if RawEnd(t, i).Some? {
      RawEndIsSpan(t, i, 0, RawEnd(t, i).value);
    }
  }

  // ---- masking ----------------------------------------------------------------------------------

  function Blank(c: Byte): Byte {
    if c == '\n' then '\n' else ' '
  }

  function Blanked(s: Bytes): (r: Bytes)
    ensures |r| == |s| && forall k :: 0 <= k < |s| ==> r[k] == Blank(s[k])
  {
    seq(|s|, k requires 0 <= k < |s| => Blank(s[k]))
  }

  predicate Hidden(kind: Kind, blankStrings: bool) {
    kind.Comment? || (kind.Literal? && blankStrings)
  }

  /** The masked text from a token start on. */
  function Masked(t: Bytes, i: nat, blankStrings: bool): (r: Bytes)
    requires i <= |t|
    ensures |r| == |t| - i
    decreases |t| - i
  {
    if i == |t| then []
    else
      var token := TokenAt(t, i);
      (if Hidden(token.kind, blankStrings) then Blanked(t[i..token.end]) else t[i..token.end])
      + Masked(t, token.end, blankStrings)
  }

  /** Same length; each byte unchanged or, if it is no newline, a space; newlines stay in place. */
  lemma {:induction false} MaskingKeepsPositions(t: Bytes, i: nat, b: bool, k: nat)
    requires i <= |t| && k < |t| - i
    ensures Masked(t, i, b)[k] == t[i + k] || Masked(t, i, b)[k] == ' '
    ensures Masked(t, i, b)[k] == '\n' <==> t[i + k] == '\n'
    decreases |t| - i
  {
    var e := TokenAt(t, i).end;
    if k >= e - i {
      MaskingKeepsPositions(t, e, b, k - (e - i));
      assert Masked(t, i, b)[k] == Masked(t, e, b)[k - (e - i)];
    }
  }

  /** What kind of token covers byte `i + k`, counting tokens from the token start `i`. */
  function KindAt(t: Bytes, i: nat, k: nat): Kind
    requires i <= |t| && k < |t| - i
    decreases |t| - i
  {
    var token := TokenAt(t, i);
    if k < token.end - i then token.kind else KindAt(t, token.end, k - (token.end - i))
  }

  /**
   Both modes, byte by byte: a comment is blanked in both, code is kept in both, and a literal is kept
   by the comment mode and blanked by the other. So indices into one align with the other.
   */
  lemma {:induction false} ModesAlign(t: Bytes, i: nat, k: nat)
    requires i <= |t| && k < |t| - i
    ensures Masked(t, i, false)[k] == if KindAt(t, i, k).Comment? then Blank(t[i + k]) else t[i + k]
    ensures Masked(t, i, true)[k] == if KindAt(t, i, k).Code? then t[i + k] else Blank(t[i + k])
    decreases |t| - i
  {
    var e := TokenAt(t, i).end;
    if k >= e - i {
      ModesAlign(t, e, k - (e - i));
      assert Masked(t, i, true)[k] == Masked(t, e, true)[k - (e - i)];
      assert Masked(t, i, false)[k] == Masked(t, e, false)[k - (e - i)];
    }
  }

  /** The whole text read as tokens: where each ends, and what it is. */
  ghost predicate Reading(t: Bytes, from: nat, cuts: seq<nat>, kinds: seq<Kind>) {
    |cuts| == |kinds| + 1 && cuts[0] == from && cuts[|kinds|] == |t|
    && (forall j :: 0 <= j < |cuts| ==> cuts[j] <= |t|)
    && forall j :: 0 <= j < |kinds| ==> cuts[j] < cuts[j + 1] && Spans(t, cuts[j], cuts[j + 1], kinds[j])
  }

  /** Comments are blanked, literals on request, and newlines and all other bytes kept. */
  ghost predicate Blanks(t: Bytes, r: Bytes, from: nat, cuts: seq<nat>, kinds: seq<Kind>, blankStrings: bool)
    requires |cuts| == |kinds| + 1
  {
    |r| == |t| - from
    && forall j, k :: 0 <= j < |kinds| && from <= cuts[j] <= k < cuts[j + 1] <= |t| ==>
         r[k - from] == if (kinds[j].Comment? || (kinds[j].Literal? && blankStrings)) && t[k] != '\n' then ' ' else t[k]
  }

  /** Masking reads the text as tokens and blanks exactly the bytes of the hidden ones. */
  lemma {:induction false} MaskedByReading(t: Bytes, i: nat, b: bool) returns (cuts: seq<nat>, kinds: seq<Kind>)
    requires i <= |t|
    ensures Reading(t, i, cuts, kinds) && Blanks(t, Masked(t, i, b), i, cuts, kinds, b)
    decreases |t| - i
  {
    hide Spans, TokenAt, Blank;
    if i == |t| {
      cuts, kinds := [i], [];
    } else {
      var token := TokenAt(t, i);
      TokenIsTheSpan(t, i, token.end, token.kind);
      var later, rest := MaskedByReading(t, token.end, b);
      cuts, kinds := [i] + later, [token.kind] + rest;
      PrependReading(t, i, token.end, token.kind, later, rest);
      hide Reading, Blanks;
      PrependBlanks(t, Masked(t, i, b), Masked(t, token.end, b), i, token, later, rest, b);
    }
  }

  lemma PrependReading(t: Bytes, i: nat, e: nat, kind: Kind, cuts: seq<nat>, kinds: seq<Kind>)
    requires i < e <= |t| && Spans(t, i, e, kind) && Reading(t, e, cuts, kinds)
    ensures Reading(t, i, [i] + cuts, [kind] + kinds)
  {
    hide Spans;
    var longer, more := [i] + cuts, [kind] + kinds;
    forall j | 0 <= j < |more|
      ensures longer[j] < longer[j + 1] && Spans(t, longer[j], longer[j + 1], more[j])
    {
      if j > 0 {
        assert longer[j] == cuts[j - 1] && longer[j + 1] == cuts[j] && more[j] == kinds[j - 1];
      }
    }
  }

  lemma PrependBlanks(t: Bytes, r: Bytes, rest: Bytes, i: nat, token: Token, cuts: seq<nat>, kinds: seq<Kind>, b: bool)
    requires i < token.end <= |t| && Reading(t, token.end, cuts, kinds) && Blanks(t, rest, token.end, cuts, kinds, b)
    requires r == (if Hidden(token.kind, b) then Blanked(t[i..token.end]) else t[i..token.end]) + rest
    ensures Blanks(t, r, i, [i] + cuts, [token.kind] + kinds, b)
  {
    var longer, more := [i] + cuts, [token.kind] + kinds;
    forall j, k | 0 <= j < |more| && i <= longer[j] <= k < longer[j + 1] <= |t|
      ensures r[k - i] == if (more[j].Comment? || (more[j].Literal? && b)) && t[k] != '\n' then ' ' else t[k]
    {
      if j > 0 {
        assert longer[j] == cuts[j - 1] && longer[j + 1] == cuts[j] && more[j] == kinds[j - 1];
        CutsRise(t, token.end, cuts, kinds, j - 1);
        assert r[k - i] == rest[k - token.end];
      }
    }
  }

  lemma {:induction false} CutsRise(t: Bytes, from: nat, cuts: seq<nat>, kinds: seq<Kind>, j: nat)
    requires Reading(t, from, cuts, kinds) && j < |cuts|
    ensures from <= cuts[j]
  {
    hide Spans;
    if j > 0 {
      CutsRise(t, from, cuts, kinds, j - 1);
    }
  }

  // ---- idempotence ------------------------------------------------------------------------------

  /** What survives string blanking, other than white space, is a code byte standing where it stood. */
  lemma {:induction false} SurvivorsAreCode(t: Bytes, i: nat, k: nat)
    requires i <= |t| && k < |t| - i && Masked(t, i, true)[k] != ' ' && Masked(t, i, true)[k] != '\n'
    ensures Masked(t, i, true)[k] == t[i + k] && TokenAt(t, i + k).kind.Code?
    decreases |t| - i
  {
    var e := TokenAt(t, i).end;
    if k >= e - i {
      SurvivorsAreCode(t, e, k - (e - i));
      assert Masked(t, i, true)[k] == Masked(t, e, true)[k - (e - i)];
    }
  }

  /** No quote, and no slash that opens a comment. */
  predicate Unmarked(s: Bytes) {
    forall k :: 0 <= k < |s| ==> s[k] != '"' && s[k] != '\'' && !(s[k] == '/' && (Is(s, k + 1, '/') || Is(s, k + 1, '*')))
  }

  lemma MaskedIsUnmarked(t: Bytes)
    ensures Unmarked(Masked(t, 0, true))
  {
    var s := Masked(t, 0, true);
    forall k | 0 <= k < |s|
      ensures s[k] != '"' && s[k] != '\'' && !(s[k] == '/' && (Is(s, k + 1, '/') || Is(s, k + 1, '*')))
    {
      if s[k] != ' ' && s[k] != '\n' {
        SurvivorsAreCode(t, 0, k);
        if s[k] == '/' && (Is(s, k + 1, '/') || Is(s, k + 1, '*')) {
          SurvivorsAreCode(t, 0, k + 1);
        }
      }
    }
  }

  lemma {:induction false} UnmarkedIsKept(s: Bytes, i: nat, b: bool)
    requires Unmarked(s) && i <= |s|
    ensures Masked(s, i, b) == s[i..]
    decreases |s| - i
  {
    if i < |s| {
      assert TokenAt(s, i) == Token(i + 1, Code);
      UnmarkedIsKept(s, i + 1, b);
    }
  }

  /** Blanking strings is idempotent. */
  lemma MaskingIsIdempotent(t: Bytes)
    ensures Masked(Masked(t, 0, true), 0, true) == Masked(t, 0, true)
  {
    MaskedIsUnmarked(t);
    UnmarkedIsKept(Masked(t, 0, true), 0, true);
  }

  // ---- UTF-8 (section 4 of RFC 3629) ---------------------------------------------------------------

  /** Between characters; inside one, with the range of the next byte and how many are missing; broken. */
  datatype Decoder = Between | Inside(missing: nat, low: int, high: int) | Broken

  function Feed(d: Decoder, c: Byte): Decoder {
    var b := c as int;
    match d
    case Broken => Broken
    case Inside(n, low, high) =>
      if !(low <= b <= high) then Broken else if n <= 1 then Between else Inside(n - 1, 0x80, 0xBF)
    case Between =>
      if b < 0x80 then Between
      else if 0xC2 <= b <= 0xDF then Inside(1, 0x80, 0xBF)
      else if b == 0xE0 then Inside(2, 0xA0, 0xBF)
      else if b == 0xED then Inside(2, 0x80, 0x9F)
      else if 0xE1 <= b <= 0xEF then Inside(2, 0x80, 0xBF)
      else if b == 0xF0 then Inside(3, 0x90, 0xBF)
      else if 0xF1 <= b <= 0xF3 then Inside(3, 0x80, 0xBF)
      else if b == 0xF4 then Inside(3, 0x80, 0x8F)
      else Broken
  }

  function Decode(d: Decoder, s: Bytes): Decoder
    decreases |s|
  {
    if s == [] then d else Decode(Feed(d, s[0]), s[1..])
  }

  predicate Utf8(s: Bytes) {
    Decode(Between, s).Between?
  }

  /** Inside a character only bytes from 0x80 on can follow. */
  predicate Proper(d: Decoder) {
    d.Inside? ==> d.low >= 0x80
  }

  lemma {:induction false} DecodeAppend(d: Decoder, a: Bytes, b: Bytes)
    ensures Decode(d, a + b) == Decode(Decode(d, a), b)
    decreases |a|
  {
    if a == [] {
      assert a + b == b;
    } else {
      assert (a + b)[1..] == a[1..] + b;
      DecodeAppend(Feed(d, a[0]), a[1..], b);
    }
  }

  lemma {:induction false} DecodeIsProper(d: Decoder, s: Bytes)
    requires Proper(d)
    ensures Proper(Decode(d, s))
    decreases |s|
  {
    if s != [] {
      DecodeIsProper(Feed(d, s[0]), s[1..]);
    }
  }

  lemma {:induction false} BrokenStays(s: Bytes)
    ensures Decode(Broken, s).Broken?
  {
    if s != [] {
      BrokenStays(s[1..]);
    }
  }

  predicate Ascii(s: Bytes) {
    forall k :: 0 <= k < |s| ==> s[k] as int < 0x80
  }

  lemma {:induction false} AsciiStaysBetween(s: Bytes)
    requires Ascii(s)
    ensures Decode(Between, s).Between?
  {
    if s != [] {
      AsciiStaysBetween(s[1..]);
    }
  }

  /** In valid text an ASCII byte starts a character. */
  lemma AsciiStartsCharacter(t: Bytes, i: nat)
    requires Utf8(t) && i <= |t| && (i < |t| ==> t[i] as int < 0x80)
    ensures Decode(Between, t[..i]).Between?
  {
    DecodeIsProper(Between, t[..i]);
    assert t == t[..i] + t[i..];
    DecodeAppend(Between, t[..i], t[i..]);
    if i < |t| && !Decode(Between, t[..i]).Between? {
      BrokenStays(t[i..][1..]);
    }
  }

  /** In valid text an ASCII byte also ends one. */
  lemma AsciiEndsCharacter(t: Bytes, i: nat)
    requires Utf8(t) && i < |t| && t[i] as int < 0x80
    ensures Decode(Between, t[..i + 1]).Between?
  {
    AsciiStartsCharacter(t, i);
    assert t[..i + 1] == t[..i] + [t[i]];
    DecodeAppend(Between, t[..i], [t[i]]);
    assert [t[i]][1..] == [];
  }

  /** A masked token begins and ends between characters. */
  lemma TokenBoundaries(t: Bytes, i: nat)
    requires Utf8(t) && i < |t| && !TokenAt(t, i).kind.Code?
    ensures Decode(Between, t[..i]).Between? && Decode(Between, t[..TokenAt(t, i).end]).Between?
  {
    var e := TokenAt(t, i).end;
    AsciiStartsCharacter(t, i);
    if e == |t| || t[e] == '\n' {
      AsciiStartsCharacter(t, e);
    } else {
      AsciiEndsCharacter(t, e - 1);
    }
  }

  /** The masked text is in step with the original at every token boundary, so valid text stays valid. */
  lemma {:induction false} MaskingStaysInStep(t: Bytes, i: nat, b: bool)
    requires Utf8(t) && i <= |t|
    ensures Decode(Decode(Between, t[..i]), Masked(t, i, b)).Between?
    decreases |t| - i
  {
    if i == |t| {
      assert t[..i] == t;
    } else {
      var token := TokenAt(t, i);
      var e := token.end;
      var here := t[i..e];
      var shown := if Hidden(token.kind, b) then Blanked(here) else here;
      MaskingStaysInStep(t, e, b);
      assert t[..e] == t[..i] + here;
      DecodeAppend(Between, t[..i], here);
      DecodeAppend(Decode(Between, t[..i]), shown, Masked(t, e, b));
      if Hidden(token.kind, b) {
        TokenBoundaries(t, i);
        AsciiStaysBetween(shown);
      }
    }
  }

  /** Masking valid UTF-8 gives valid UTF-8: the fallback to the empty text is never taken. */
  lemma MaskedIsUtf8(t: Bytes, b: bool)
    requires Utf8(t)
    ensures Utf8(Masked(t, 0, b))
  {
    MaskingStaysInStep(t, 0, b);
    assert t[..0] == [];
  }

  // ---- the scanning loops ---------------------------------------------------------------------------

  /** A run of bytes as written out: blanked or not. */
  function Shown(s: Bytes, blank: bool): (r: Bytes)
    ensures |r| == |s|
  {
    if blank then Blanked(s) else s
  }

  lemma ShownGrows(t: Bytes, a: nat, i: nat, j: nat, blank: bool)
    requires a <= i <= j <= |t|
    ensures Shown(t[a..j], blank) == Shown(t[a..i], blank) + Shown(t[i..j], blank)
  {
    assert t[a..j] == t[a..i] + t[i..j];
    BlankedTogether(t[a..i], t[i..j]);
  }

  lemma BlankedTogether(x: Bytes, y: Bytes)
    ensures Blanked(x + y) == Blanked(x) + Blanked(y)
  {
    hide Blank;
  }

  function MaskByte(c: Byte, blank: bool): Byte {
    if blank && c != '\n' then ' ' else c
  }

  lemma Extend(t: Bytes, a: nat, i: nat, blank: bool, before: Bytes)
    requires a <= i < |t|
    ensures before + Shown(t[a..i + 1], blank) == before + Shown(t[a..i], blank) + [MaskByte(t[i], blank)]
  {
    ShownGrows(t, a, i, i + 1, blank);
    assert Shown(t[i..i + 1], blank) == [MaskByte(t[i], blank)];
  }

  lemma ExtendTwo(t: Bytes, a: nat, i: nat, blank: bool, before: Bytes)
    requires a <= i && i + 1 < |t|
    ensures before + Shown(t[a..i + 2], blank)
            == before + Shown(t[a..i], blank) + [MaskByte(t[i], blank), MaskByte(t[i + 1], blank)]
  {
    Extend(t, a, i, blank, before);
    Extend(t, a, i + 1, blank, before);
  }

  lemma ShownNothing(t: Bytes, a: nat, blank: bool, before: Bytes)
    requires a <= |t|
    ensures before + Shown(t[a..a], blank) == before
  {
  }

  /** Write out bytes one by one. */
  method Emit(t: Bytes, start: nat, end: nat, blank: bool, before: Bytes) returns (out: Bytes)
    requires start <= end <= |t|
    ensures out == before + Shown(t[start..end], blank)
  {
    hide Shown;
    out := before;
    ShownNothing(t, start, blank, before);
    for i := start to end
      invariant out == before + Shown(t[start..i], blank)
    {
      Extend(t, start, i, blank, before);
      out := out + [MaskByte(t[i], blank)];
    }
  }

  method BlankLine(t: Bytes, start: nat, before: Bytes) returns (out: Bytes, index: nat)
    requires start <= |t|
    ensures index == LineEnd(t, start) && out == before + Shown(t[start..index], true)
  {
    hide Shown;
    out, index := before, start;
    ShownNothing(t, start, true, before);
    while index < |t| && t[index] != '\n'
      invariant start <= index <= |t| && LineEnd(t, index) == LineEnd(t, start)
      invariant out == before + Shown(t[start..index], true)
      decreases |t| - index
    {
      Extend(t, start, index, true, before);
      out, index := out + [' '], index + 1;
    }
  }

  method BlankBlock(t: Bytes, start: nat, before: Bytes) returns (out: Bytes, index: nat)
    requires Is(t, start, '/') && Is(t, start + 1, '*')
    ensures index == BlockEnd(t, start + 2, 1) && out == before + Shown(t[start..index], true)
    ensures BlockSpan(t, start + 2, index)
  {
    hide Shown, BlockEnd, BlockSpan;
    out, index := ScanBlock(t, start, before);
    BlockIsSpan(t, start + 2, index);
  }

  method ScanBlock(t: Bytes, start: nat, before: Bytes) returns (out: Bytes, index: nat)
    requires Is(t, start, '/') && Is(t, start + 1, '*')
    ensures index == BlockEnd(t, start + 2, 1) && out == before + Shown(t[start..index], true)
  {
    hide Shown, Blank;
    var level := 1;
    ShownNothing(t, start, true, before);
    ExtendTwo(t, start, start, true, before);
    out, index := before + [' ', ' '], start + 2;
    while index < |t| && level > 0
      invariant start + 2 <= index <= |t| && BlockEnd(t, index, level) == BlockEnd(t, start + 2, 1)
      invariant out == before + Shown(t[start..index], true)
      decreases |t| - index
    {
      if t[index] == '/' && Is(t, index + 1, '*') {
        ExtendTwo(t, start, index, true, before);
        level, out, index := level + 1, out + [' ', ' '], index + 2;
      } else if t[index] == '*' && Is(t, index + 1, '/') {
        ExtendTwo(t, start, index, true, before);
        level, out, index := level - 1, out + [' ', ' '], index + 2;
      } else {
        Extend(t, start, index, true, before);
        out, index := out + [if t[index] == '\n' then '\n' else ' '], index + 1;
      }
    }
  }

  method MaskString(t: Bytes, start: nat, blank: bool, before: Bytes) returns (out: Bytes, index: nat)
    requires Is(t, start, '"')
    ensures index == StringEnd(t, start + 1) && out == before + Shown(t[start..index], blank)
    ensures StringSpan(t, start + 1, index)
  {
    hide Shown, StringEnd, StringSpan;
    out, index := ScanString(t, start, blank, before);
    StringIsSpan(t, start + 1, index);
  }

  method ScanString(t: Bytes, start: nat, blank: bool, before: Bytes) returns (out: Bytes, index: nat)
    requires Is(t, start, '"')
    ensures index == StringEnd(t, start + 1) && out == before + Shown(t[start..index], blank)
  {
    hide Shown;
    ShownNothing(t, start, blank, before);
    Extend(t, start, start, blank, before);
    out, index := before + [MaskByte('"', blank)], start + 1;
    while index < |t|
      invariant start < index <= |t| && StringEnd(t, index) == StringEnd(t, start + 1)
      invariant out == before + Shown(t[start..index], blank)
      decreases |t| - index
    {
      if t[index] == '\\' && index + 1 < |t| {
        ExtendTwo(t, start, index, blank, before);
        out, index := out + [MaskByte(t[index], blank), MaskByte(t[index + 1], blank)], index + 2;
      } else if t[index] == '"' {
        Extend(t, start, index, blank, before);
        out, index := out + [MaskByte(t[index], blank)], index + 1;
        return;
      } else if t[index] == '\n' {
        return;
      } else {
        Extend(t, start, index, blank, before);
        out, index := out + [MaskByte(t[index], blank)], index + 1;
      }
    }
  }

  method CharLiteralEnd(t: Bytes, start: nat) returns (e: nat)
    requires Is(t, start, '\'')
    ensures e == CharEnd(t, start) && CharSpan(t, start, e)
  {
    CharEndIsSpan(t, start, CharEnd(t, start));
    hide ClosesChar, CharSpan;
    if Is(t, start + 1, '\\') {
      var index := start + 2;
      while index < |t| && index < start + 13
        invariant start + 2 <= index && (index <= |t| || index == start + 2)
        invariant QuoteBefore(t, index, AtMost(start + 13, |t|), false, start) == CharEnd(t, start)
        decreases |t| - index
      {
        if t[index] == '\'' { return index; }
        index := index + 1;
      }
      return start;
    }
    if start + 1 < |t| && t[start + 1] != '\'' && t[start + 1] != '\n' {
      var limit := AtMost(start + 5, |t| - 1);
      var cursor := start + 2;
      while cursor <= limit
        invariant start + 2 <= cursor && QuoteBefore(t, cursor, AtMost(start + 6, |t|), true, start) == CharEnd(t, start)
        decreases limit - cursor
      {
        if t[cursor] == '\'' { return cursor; }
        if t[cursor] == '\n' { break; }
        cursor := cursor + 1;
      }
    }
    return start;
  }

  method RawString(t: Bytes, start: nat) returns (r: Option<(nat, nat)>)
    requires start <= |t|
    ensures match RawEnd(t, start)
            case None => r.None?
            case Some(e) => r.Some? && r.value.1 == e
    ensures r.Some? ==> RawSpan(t, start, r.value.0, r.value.1)
    ensures r.None? ==> forall n: nat, e: nat :: !RawSpan(t, start, n, e)
  {
    hide RawSpan, RawEnd;
    r := ScanRaw(t, start);
    if r.Some? {
      RawEndIsSpan(t, start, r.value.0, r.value.1);
    } else {
      RawIsSpan(t, start, 0);
    }
  }

  method ScanRaw(t: Bytes, start: nat) returns (r: Option<(nat, nat)>)
    requires start <= |t|
    ensures match RawEnd(t, start)
            case None => r.None?
            case Some(e) => r.Some? && r.value.1 == e && r.value.0 == HashEnd(t, start + 1) - (start + 1)
  {
    hide Hashes;
    if !Is(t, start, 'r') { return None; }
    var index, hashes := start + 1, 0;
    while Is(t, index, '#')
      invariant start + 1 <= index <= |t| && hashes == index - (start + 1) && HashEnd(t, index) == HashEnd(t, start + 1)
      decreases |t| - index
    {
      hashes, index := hashes + 1, index + 1;
    }
    if !Is(t, index, '"') { return None; }
    index := index + 1;
    while index < |t|
      invariant index <= |t| && RawClose(t, index, hashes) == RawEnd(t, start)
      decreases |t| - index
    {
      if t[index] == '"' && Hashes(t, index + 1, hashes) { return Some((hashes, index + 1 + hashes)); }
      index := index + 1;
    }
    return None;
  }

  /** One token, written out. */
  method MaskToken(t: Bytes, start: nat, blankStrings: bool, before: Bytes) returns (out: Bytes, index: nat)
    requires start < |t|
    ensures index == TokenAt(t, start).end
    ensures out == before + Shown(t[start..index], Hidden(TokenAt(t, start).kind, blankStrings))
  {
    hide LineEnd, BlockEnd, StringEnd, CharEnd, RawEnd;
    if t[start] == '/' && Is(t, start + 1, '/') {
      out, index := BlankLine(t, start, before);
    } else if t[start] == '/' && Is(t, start + 1, '*') {
      out, index := BlankBlock(t, start, before);
    } else if t[start] == '"' {
      out, index := MaskString(t, start, blankStrings, before);
    } else if t[start] == '\'' {
      var end := CharLiteralEnd(t, start);
      out := Emit(t, start, end + 1, blankStrings, before);
      index := end + 1;
    } else {
      var raw := RawString(t, start);
      if raw.Some? {
        out := Emit(t, start, raw.value.1, blankStrings, before);
        index := raw.value.1;
      } else {
        out, index := before + [t[start]], start + 1;
      }
    }
  }

  /** Mask a whole text. Decoding the result never fails, so it is the masked text itself. */
  method Strip(text: Bytes, blankStrings: bool) returns (r: Bytes)
    requires Utf8(text)
    ensures r == Masked(text, 0, blankStrings) && Utf8(r) && |r| == |text|
    ensures exists cuts, kinds :: Reading(text, 0, cuts, kinds) && Blanks(text, r, 0, cuts, kinds, blankStrings)
  {
    hide TokenAt, Masked, Shown, Hidden, Utf8;
    var out: Bytes, index := [], 0;
    while index < |text|
      invariant index <= |text| && out + Masked(text, index, blankStrings) == Masked(text, 0, blankStrings)
      decreases |text| - index
    {
      MaskedStep(text, index, blankStrings, out);
      out, index := MaskToken(text, index, blankStrings, out);
    }
    MaskedEnd(text, blankStrings, out);
    MaskedIsUtf8(text, blankStrings);
    ghost var cuts, kinds := MaskedByReading(text, 0, blankStrings);
    r := if Utf8(out) then out else [];
  }

  lemma MaskedStep(t: Bytes, i: nat, b: bool, before: Bytes)
    requires i < |t|
    ensures var token := TokenAt(t, i);
            before + Masked(t, i, b) == before + Shown(t[i..token.end], Hidden(token.kind, b)) + Masked(t, token.end, b)
  {
    hide TokenAt, Hidden;
  }

  lemma MaskedEnd(t: Bytes, b: bool, before: Bytes)
    ensures before + Masked(t, |t|, b) == before
  {
  }
}
