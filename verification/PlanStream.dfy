/** The intermediate plan: operations written one after another and scanned back
    (operator/info.go, compiler/plan.go). */
module PlanStream {
  import opened Base

  type Bytes = seq<byte>

  const NL: byte := 10
  const CR: byte := 13
  const DASH: byte := 45

  /** The line that ends an operation, and that line with the newline before it. */
  const MARK: Bytes := [DASH, DASH, DASH, NL]
  const SEPARATOR: Bytes := [NL, DASH, DASH, DASH, NL]

  // ---- splitOp ---------------------------------------------------------------------------------

  predicate SeparatorAt(data: Bytes, i: int) {
    && 0 <= i && i + 5 <= |data|
    && data[i] == NL && data[i + 1] == DASH && data[i + 2] == DASH && data[i + 3] == DASH && data[i + 4] == NL
  }

  /** bytes.Index(data, "\n---\n"). */
  function Index(data: Bytes): (i: Option<nat>)
    ensures i.Some? ==> SeparatorAt(data, i.value) && forall j :: 0 <= j < i.value ==> !SeparatorAt(data, j)
    ensures i.None? ==> forall j :: !SeparatorAt(data, j)
  {
    if |data| < 5 then None
    else if SeparatorAt(data, 0) then Some(0)
    else
      var rest := Index(data[1..]);
      assert forall j :: 0 < j ==> (SeparatorAt(data, j) <==> SeparatorAt(data[1..], j - 1));
      match rest case None => None case Some(k) => Some(k + 1)
  }

  function DropCR(data: Bytes): Bytes {
    if |data| > 0 && data[|data| - 1] == CR then data[..|data| - 1] else data
  }

  /** How far to advance and the token, if any. Before the end of the input a call either advances
      and gives a token, or asks for more data. */
  function SplitOp(data: Bytes, atEOF: bool): (r: (nat, Option<Bytes>))
    ensures r.0 <= |data|
    ensures r.1.Some? <==> r.0 > 0
    ensures atEOF && data != [] ==> r.1.Some?
  {
    if atEOF && |data| == 0 then (0, None)
    else
      match Index(data)
      case Some(i) => (i + 1, Some(DropCR(data[..i])))
      case None => if atEOF then (|data|, Some(DropCR(data))) else (0, None)
  }

  /** The tokens of an input that is read in one piece. */
  function Tokens(data: Bytes): seq<Bytes>
    decreases |data|
  {
    if data == [] then []
    else
      var (advance, token) := SplitOp(data, true);
      [token.value] + Tokens(data[advance..])
  }

  /** One carriage return at the very end is not part of a line. */
  lemma DropCRExactly(data: Bytes)
    ensures DropCR(data + [13]) == data
    ensures data == [] || data[|data| - 1] != 13 ==> DropCR(data) == data
  {
    assert (data + [13])[..|data|] == data;
  }

  /** The tokens, by the separator lines: each ends before the newline of the first one, and the rest
      begins with the dashes; without one there is one token. */
  lemma TokensExactly(data: Bytes, i: nat)
    ensures data == [] ==> Tokens(data) == []
    ensures data != [] && (forall j :: !SeparatorAt(data, j)) ==> Tokens(data) == [DropCR(data)]
    ensures SeparatorAt(data, i) && (forall j :: 0 <= j < i ==> !SeparatorAt(data, j)) ==>
              Tokens(data) == [DropCR(data[..i])] + Tokens(data[i + 1..])
  {
    if data != [] { assert Tokens(data[|data|..]) == []; }
  }

  /** A separator that has been seen is where it was when more input arrives. */
  lemma IndexStable(data: Bytes, more: Bytes)
    requires Index(data).Some?
    ensures Index(data + more) == Index(data)
  {
    var i := Index(data).value;
    assert SeparatorAt(data + more, i);
    assert forall j :: 0 <= j < i ==> (SeparatorAt(data + more, j) <==> SeparatorAt(data, j));
  }

  /** A token found in part of the input is the first token of the whole, and the rest of the tokens
      are those of the rest of the input. */
  lemma PartIsPrefix(buf: Bytes, more: Bytes, atEOF: bool)
    requires SplitOp(buf, atEOF).1.Some? && (atEOF ==> more == [])
    ensures var (advance, token) := SplitOp(buf, atEOF);
            Tokens(buf + more) == [token.value] + Tokens(buf[advance..] + more)
  {
    var (advance, token) := SplitOp(buf, atEOF);
    var all := buf + more;
    assert all[advance..] == buf[advance..] + more;
    if Index(buf).Some? {
      IndexStable(buf, more);
      assert all[..Index(buf).value] == buf[..Index(buf).value];
    } else {
      assert all == buf;
    }
  }

  // ---- bufio.Scanner with splitOp --------------------------------------------------------------

  function Concat(chunks: seq<Bytes>): Bytes {
    if chunks == [] then [] else chunks[0] + Concat(chunks[1..])
  }

  /** The scanner's unread buffer, and the pieces in which the rest of the input will arrive. */
  class Scanner {
    var buf: Bytes
    var chunks: seq<Bytes>
    var eof: bool

    constructor (input: seq<Bytes>)
      ensures Valid() && Unread() == Concat(input)
    {
      buf, chunks, eof := [], input, false;
    }

    ghost predicate Valid()
      reads this
    {
      eof ==> chunks == []
    }

    ghost function Unread(): Bytes
      reads this
    {
      buf + Concat(chunks)
    }

    /** However the input is cut, Scan gives the first token of what is left of it. */
    method Scan() returns (token: Option<Bytes>)
      requires Valid()
      modifies this
      ensures Valid()
      ensures token.None? <==> Tokens(old(Unread())) == []
      ensures token.None? ==> Tokens(Unread()) == []
      ensures token.Some? ==> Tokens(old(Unread())) == [token.value] + Tokens(Unread())
      ensures token.Some? ==> |Unread()| < old(|Unread()|)
    {
      while true
        invariant Valid() && Unread() == old(Unread())
        decreases |chunks|, !eof
      {
        if buf != [] || eof {
          var (advance, tok) := SplitOp(buf, eof);
          if tok.Some? {
            PartIsPrefix(buf, Concat(chunks), eof);
            buf := buf[advance..];
            return tok;
          }
        }
        if eof {
          return None;
        }
        if chunks == [] {
          eof := true;
        } else {
          assert buf + (chunks[0] + Concat(chunks[1..])) == (buf + chunks[0]) + Concat(chunks[1..]);
          buf, chunks := buf + chunks[0], chunks[1..];
        }
      }
    }
  }

  // ---- readOnePlan -----------------------------------------------------------------------------

  predicate IsSpace(b: byte) {
    b == 32 || 9 <= b <= 13
  }

  /** bytes.TrimSpace, for ASCII. */
  function TrimSpace(b: Bytes): Bytes {
    if b == [] then b
    else if IsSpace(b[0]) then TrimSpace(b[1..])
    else if IsSpace(b[|b| - 1]) then TrimSpace(b[..|b| - 1])
    else b
  }

  /** A token that holds nothing but the end of the previous operation. */
  predicate OnlyMark(token: Bytes) {
    TrimSpace(token) == [DASH, DASH, DASH]
  }

  /** The operations in a list of tokens, or an error if one does not parse. */
  function Parsed<Op>(tokens: seq<Bytes>, parse: Bytes -> Result<Op>): Result<seq<Op>> {
    if tokens == [] then Ok([])
    else if OnlyMark(tokens[0]) then Parsed(tokens[1..], parse)
    else
      match parse(tokens[0])
      case Err => Err
      case Ok(op) =>
        match Parsed(tokens[1..], parse)
        case Err => Err
        case Ok(ops) => Ok([op] + ops)
  }

  function Prepend<Op>(ops: seq<Op>, r: Result<seq<Op>>): Result<seq<Op>> {
    match r case Err => Err case Ok(more) => Ok(ops + more)
  }

  lemma PrependOne<Op>(ops: seq<Op>, op: Op, r: Result<seq<Op>>)
    ensures Prepend(ops, Prepend([op], r)) == Prepend(ops + [op], r) && Prepend([], r) == r
  {
    if r.Ok? {
      assert ops + ([op] + r.value) == (ops + [op]) + r.value;
      assert [] + r.value == r.value;
    }
  }

  /** The operations read so far and the tokens still to come give the result. */
  ghost predicate Reading<Op>(whole: Result<seq<Op>>, ops: seq<Op>, left: seq<Bytes>, parse: Bytes -> Result<Op>) {
    whole == Prepend(ops, Parsed(left, parse))
  }

  lemma ReadingStart<Op>(left: seq<Bytes>, parse: Bytes -> Result<Op>)
    ensures Reading(Parsed(left, parse), [], left, parse)
  {
    var r := Parsed(left, parse);
    if r.Ok? { assert [] + r.value == r.value; }
  }

  lemma ReadingEnd<Op>(whole: Result<seq<Op>>, ops: seq<Op>, parse: Bytes -> Result<Op>)
    requires Reading(whole, ops, [], parse)
    ensures whole == Ok(ops)
  {
    assert ops + [] == ops;
  }

  lemma ReadingNext<Op>(whole: Result<seq<Op>>, ops: seq<Op>, token: Bytes, rest: seq<Bytes>, parse: Bytes -> Result<Op>)
    requires Reading(whole, ops, [token] + rest, parse)
    ensures OnlyMark(token) ==> Reading(whole, ops, rest, parse)
    ensures !OnlyMark(token) && parse(token).Err? ==> whole == Err
    ensures !OnlyMark(token) && parse(token).Ok? ==> Reading(whole, ops + [parse(token).value], rest, parse)
  {
    assert ([token] + rest)[1..] == rest;
    if parse(token).Ok? { PrependOne(ops, parse(token).value, Parsed(rest, parse)); }
  }

  /** readOnePlan gives the same operations for every way of cutting the input into reads. */
  method ReadOnePlan<Op>(chunks: seq<Bytes>, parse: Bytes -> Result<Op>) returns (r: Result<seq<Op>>)
    ensures r == Parsed(Tokens(Concat(chunks)), parse)
  {
    var sc := new Scanner(chunks);
    var ops: seq<Op> := [];
    ghost var left := Tokens(Concat(chunks));
    ghost var whole := Parsed(left, parse);
    ReadingStart(left, parse);
    var token := sc.Scan();
    while token.Some?
      invariant sc.Valid()
      invariant left == if token.Some? then [token.value] + Tokens(sc.Unread()) else []
      invariant Reading(whole, ops, left, parse)
      decreases token.Some?, |sc.Unread()|
    {
      left := Tokens(sc.Unread());
      ReadingNext(whole, ops, token.value, left, parse);
      if !OnlyMark(token.value) {
        match parse(token.value) {
          case Err => return Err;
          case Ok(op) => ops := ops + [op];
        }
      }
      token := sc.Scan();
    }
    ReadingEnd(whole, ops, parse);
    return Ok(ops);
  }

  // ---- InfoData.Encode -------------------------------------------------------------------------

  /** An output stream. */
  class Writer {
    var data: Bytes

    constructor ()
      ensures data == []
    {
      data := [];
    }

    method Write(b: Bytes)
      modifies this
      ensures data == old(data) + b
    {
      data := data + b;
    }

    /** Encode writes the marshalled operation and then the line that ends it. */
    method Encode(body: Bytes)
      modifies this
      ensures data == old(data) + body + MARK
    {
      Write(body);
      Write(MARK);
    }
  }

  /** What a number of Encode calls leave on a stream. */
  function Framed(bodies: seq<Bytes>): Bytes {
    if bodies == [] then [] else bodies[0] + MARK + Framed(bodies[1..])
  }

  function Chomp(b: Bytes): Bytes {
    if b == [] then [] else b[..|b| - 1]
  }

  /** The body ends in a newline, no line of it is the mark (when `head`, what is left of the previous
      operation, stands before it), and it has no carriage return before the final newline. */
  predicate WellFramed(head: Bytes, b: Bytes) {
    && b != [] && b[|b| - 1] == NL
    && Index(head + b).None?
    && (|b| >= 2 ==> b[|b| - 2] != CR)
  }

  /** Where the first token ends when the body is well framed. */
  lemma IndexAtEnd(head: Bytes, b: Bytes, rest: Bytes)
    requires (head == [] || head == MARK) && WellFramed(head, b)
    ensures Index(head + b + MARK + rest) == Some(|head| + |b| - 1)
  {
    var data, p := head + b + MARK + rest, |head| + |b| - 1;
    assert SeparatorAt(data, p);
    forall j | 0 <= j < p ensures !SeparatorAt(data, j) {
      if j + 5 <= |head + b| {
        assert SeparatorAt(data, j) ==> SeparatorAt(head + b, j);
      } else {
        assert data[p] == NL && (p == j + 1 || p == j + 2 || p == j + 3);
      }
    }
  }

  lemma FirstTokenFits(head: Bytes, b: Bytes, rest: Bytes)
    requires (head == [] || head == MARK) && WellFramed(head, b)
    ensures var data := head + b + MARK + rest;
            SplitOp(data, true) == (|head| + |b|, Some(head + Chomp(b)))
            && Tokens(data) == [head + Chomp(b)] + Tokens(MARK + rest)
  {
    var data := head + b + MARK + rest;
    IndexAtEnd(head, b, rest);
    assert data == (head + b) + (MARK + rest);
    assert data[..|head| + |b| - 1] == head + Chomp(b);
    assert data[|head| + |b|..] == MARK + rest;
  }

  /** A first token that is the body ends where the body does, and lost nothing before that. */
  lemma TokenEnds(data: Bytes, n: nat)
    requires 0 < n < |data| && data[n] == DASH && |Tokens(data)[0]| == n - 1
    ensures Index(data) == Some(n - 1) && (n >= 2 ==> data[n - 2] != CR)
  {
    assert |DropCR(data)| >= |data| - 1 >= n;
    match Index(data) {
      case None =>
      case Some(i) =>
        assert |DropCR(data[..i])| == n - 1;
        assert i == n - 1 || i == n;
        assert i == n - 1;
    }
  }

  lemma NothingInside(a: Bytes, rest: Bytes)
    requires a != [] && Index(a + rest) == Some(|a| - 1)
    ensures a[|a| - 1] == NL && Index(a).None?
  {
    var data := a + rest;
    assert data[|a| - 1] == a[|a| - 1];
    forall j ensures !SeparatorAt(a, j) {
      if SeparatorAt(a, j) { assert SeparatorAt(data, j); }
    }
  }

  lemma TokenFraming(head: Bytes, b: Bytes, rest: Bytes)
    requires b != [] && rest != [] && rest[0] == DASH
    requires Tokens((head + b) + rest)[0] == head + Chomp(b)
    ensures WellFramed(head, b)
  {
    var a := head + b;
    assert (a + rest)[|a|] == DASH;
    assert |head + Chomp(b)| == |a| - 1;
    TokenEnds(a + rest, |a|);
    NothingInside(a, rest);
    LastTwo(head, b, rest);
  }

  lemma LastTwo(head: Bytes, b: Bytes, rest: Bytes)
    requires b != []
    ensures var a := head + b; a[|a| - 1] == b[|b| - 1] && (|b| >= 2 ==> (a + rest)[|a| - 2] == b[|b| - 2])
  {
  }

  /** The scanner's first token is exactly the body, after what is left of the previous operation, if
      and only if the body is well framed. */
  lemma FirstTokenExactly(head: Bytes, b: Bytes, rest: Bytes)
    requires (head == [] || head == MARK) && b != []
    ensures Tokens(head + b + MARK + rest)[0] == head + Chomp(b) <==> WellFramed(head, b)
  {
    if WellFramed(head, b) {
      FirstTokenFits(head, b, rest);
    } else {
      assert head + b + MARK + rest == (head + b) + (MARK + rest);
      if Tokens(head + b + MARK + rest)[0] == head + Chomp(b) { TokenFraming(head, b, MARK + rest); }
    }
  }

  // ---- Round trip ------------------------------------------------------------------------------

  /** The tokens of a stream of well-framed bodies. */
  function Expected(head: Bytes, bodies: seq<Bytes>): seq<Bytes>
    decreases |bodies|
  {
    if bodies == [] then (if head == [] then [] else [head])
    else [head + Chomp(bodies[0])] + Expected(MARK, bodies[1..])
  }

  lemma HeadlessFramed(b: Bytes)
    requires WellFramed(MARK, b)
    ensures WellFramed([], b)
  {
    assert [] + b == b;
    forall j ensures !SeparatorAt(b, j) { SeparatorLater(MARK, b, j); }
  }

  lemma SeparatorLater(a: Bytes, b: Bytes, j: int)
    ensures SeparatorAt(b, j) ==> SeparatorAt(a + b, |a| + j)
  {
  }

  lemma {:induction false} FramedTokens(head: Bytes, bodies: seq<Bytes>)
    requires head == [] || head == MARK
    requires forall b :: b in bodies ==> WellFramed(MARK, b)
    ensures Tokens(head + Framed(bodies)) == Expected(head, bodies)
    decreases |bodies|
  {
    if bodies == [] {
      assert head + [] == head;
      assert Tokens(MARK[4..]) == [];
    } else {
      var b, rest := bodies[0], Framed(bodies[1..]);
      assert head + Framed(bodies) == head + b + MARK + rest;
      if head == [] { HeadlessFramed(b); }
      FirstTokenFits(head, b, rest);
      FramedTokens(MARK, bodies[1..]);
    }
  }

  function Solid(b: Bytes): nat {
    if b == [] then 0 else (if IsSpace(b[0]) then 0 else 1) + Solid(b[1..])
  }

  lemma {:induction false} SolidAppend(a: Bytes, b: Bytes)
    ensures Solid(a + b) == Solid(a) + Solid(b)
  {
    if a == [] {
      assert a + b == b;
    } else {
      assert (a + b)[1..] == a[1..] + b;
      SolidAppend(a[1..], b);
    }
  }

  lemma {:induction false} TrimKeepsSolid(b: Bytes)
    ensures Solid(TrimSpace(b)) == Solid(b)
    decreases |b|
  {
    if b != [] {
      if IsSpace(b[0]) {
        TrimKeepsSolid(b[1..]);
      } else if IsSpace(b[|b| - 1]) {
        TrimKeepsSolid(b[..|b| - 1]);
        assert b == b[..|b| - 1] + [b[|b| - 1]];
        SolidAppend(b[..|b| - 1], [b[|b| - 1]]);
        assert [b[|b| - 1]][1..] == [];
      }
    }
  }

  lemma {:induction false} TrimBlankTail(x: Bytes)
    requires Solid(x) == 0
    ensures TrimSpace([DASH, DASH, DASH] + x) == [DASH, DASH, DASH]
    decreases |x|
  {
    var b := [DASH, DASH, DASH] + x;
    if x == [] {
      assert b == [DASH, DASH, DASH];
    } else {
      var m := |x| - 1;
      assert x == x[..m] + [x[m]];
      SolidAppend(x[..m], [x[m]]);
      assert [x[m]][1..] == [];
      assert b[..|b| - 1] == [DASH, DASH, DASH] + x[..m];
      TrimBlankTail(x[..m]);
    }
  }

  /** The reader takes a token after the first for a lone mark if and only if its body is blank. A body
      that Encode writes is the YAML of a plan entry with its name, so it is not. */
  lemma DroppedExactly(x: Bytes)
    ensures OnlyMark(MARK + x) <==> Solid(x) == 0
  {
    SolidAppend(MARK, x);
    SolidAppend([DASH, DASH, DASH], [NL]);
    assert MARK == [DASH, DASH, DASH] + [NL];
    assert [NL][1..] == [] && [DASH][1..] == [] && [DASH, DASH][1..] == [DASH] && [DASH, DASH, DASH][1..] == [DASH, DASH];
    assert Solid([DASH]) == 1 && Solid([DASH, DASH]) == 2 && Solid([DASH, DASH, DASH]) == 3 && Solid([NL]) == 0;
    TrimKeepsSolid(MARK + x);
    if Solid(x) == 0 {
      assert MARK + x == [DASH, DASH, DASH] + ([NL] + x);
      SolidAppend([NL], x);
      TrimBlankTail([NL] + x);
    }
  }

  ghost predicate Blank(b: Bytes) {
    forall i :: 0 <= i < |b| ==> b[i] == 32 || 9 <= b[i] <= 13
  }

  /** Trimming takes white space off both ends and nothing else. */
  lemma {:induction false} TrimExactly(b: Bytes) returns (left: Bytes, right: Bytes)
    ensures b == left + TrimSpace(b) + right && Blank(left) && Blank(right)
    ensures var t := TrimSpace(b); t != [] ==> !Blank([t[0]]) && !Blank([t[|t| - 1]])
    decreases |b|
  {
    left, right := [], [];
    if b == [] {
    } else if IsSpace(b[0]) {
      left, right := TrimExactly(b[1..]);
      AroundLeft(b, left, TrimSpace(b[1..]), right);
      left := [b[0]] + left;
    } else if IsSpace(b[|b| - 1]) {
      left, right := TrimExactly(b[..|b| - 1]);
      AroundRight(b, left, TrimSpace(b[..|b| - 1]), right);
      right := right + [b[|b| - 1]];
    } else {
      assert [b[0]][0] == b[0] && [b[|b| - 1]][0] == b[|b| - 1];
    }
  }

  lemma AroundLeft(b: Bytes, left: Bytes, t: Bytes, right: Bytes)
    requires b != [] && b[1..] == left + t + right
    ensures b == [b[0]] + left + t + right
  {
    assert b == [b[0]] + b[1..];
  }

  lemma AroundRight(b: Bytes, left: Bytes, t: Bytes, right: Bytes)
    requires b != [] && b[..|b| - 1] == left + t + right
    ensures b == left + t + (right + [b[|b| - 1]])
  {
    assert b == b[..|b| - 1] + [b[|b| - 1]];
  }

  lemma {:induction false} TrimAround(left: Bytes, t: Bytes, right: Bytes)
    requires Blank(left) && Blank(right) && t != [] && !IsSpace(t[0]) && !IsSpace(t[|t| - 1])
    ensures TrimSpace(left + t + right) == t
    decreases |left| + |right|
  {
    var b := left + t + right;
    if left != [] {
      assert b[0] == left[0] && b[1..] == left[1..] + t + right;
      TrimAround(left[1..], t, right);
    } else if right != [] {
      var n := |right| - 1;
      assert b[0] == t[0] && b[|b| - 1] == right[n] && b[..|b| - 1] == left + t + right[..n];
      TrimAround(left, t, right[..n]);
    } else {
      assert b == t;
    }
  }

  /** A token is left out exactly when it is three dashes with white space around them. */
  lemma OnlyMarkExactly(token: Bytes)
    ensures OnlyMark(token) <==> exists left, right :: Blank(left) && Blank(right) && token == left + [45, 45, 45] + right
  {
    var left, right := TrimExactly(token);
    assert [DASH, DASH, DASH] == [45, 45, 45];
    if left', right' :| Blank(left') && Blank(right') && token == left' + [45, 45, 45] + right' {
      TrimAround(left', [45, 45, 45], right');
    }
  }

  // ---- What is read ----------------------------------------------------------------------------

  /** The tokens that are not left out. */
  function Marked(tokens: seq<Bytes>): (kept: seq<Bytes>)
    ensures forall t :: t in kept <==> t in tokens && !OnlyMark(t)
  {
    if tokens == [] then [] else (if OnlyMark(tokens[0]) then [] else [tokens[0]]) + Marked(tokens[1..])
  }

  lemma {:induction false} MarkedJoin(a: seq<Bytes>, b: seq<Bytes>)
    ensures Marked(a + b) == Marked(a) + Marked(b)
  {
    if a == [] {
      assert a + b == b;
    } else {
      assert (a + b)[1..] == a[1..] + b;
      MarkedJoin(a[1..], b);
    }
  }

  /** Reading fails exactly when some token that is not left out does not parse; otherwise it gives the
      operation of each such token, in order. */
  lemma {:induction false} ParsedExactly<Op>(tokens: seq<Bytes>, parse: Bytes -> Result<Op>)
    ensures var r := Parsed(tokens, parse);
            && (r.Err? <==> exists t :: t in tokens && !OnlyMark(t) && parse(t).Err?)
            && (r.Ok? ==> |r.value| == |Marked(tokens)| && forall i :: 0 <= i < |r.value| ==> parse(Marked(tokens)[i]) == Ok(r.value[i]))
  {
    if tokens != [] {
      assert tokens == [tokens[0]] + tokens[1..];
      ParsedExactly(tokens[1..], parse);
    }
  }

  /** What the marshaller must guarantee for one operation: a well-framed body that is not blank and
      not just a mark, and that parses back, also below a document start line. */
  ghost predicate Survives<Op>(op: Op, encode: Op -> Bytes, parse: Bytes -> Result<Op>) {
    var b := encode(op);
    && WellFramed(MARK, b) && Solid(Chomp(b)) > 0 && !OnlyMark(Chomp(b))
    && parse(Chomp(b)) == Ok(op) && parse(MARK + Chomp(b)) == Ok(op)
  }

  function Encoded<Op>(ops: seq<Op>, encode: Op -> Bytes): (bodies: seq<Bytes>)
    ensures |bodies| == |ops| && forall i :: 0 <= i < |ops| ==> bodies[i] == encode(ops[i])
  {
    seq(|ops|, i requires 0 <= i < |ops| => encode(ops[i]))
  }

  lemma {:induction false} ExpectedParsed<Op>(head: Bytes, ops: seq<Op>, encode: Op -> Bytes, parse: Bytes -> Result<Op>)
    requires head == [] || head == MARK
    requires forall i :: 0 <= i < |ops| ==> Survives(ops[i], encode, parse)
    ensures Parsed(Expected(head, Encoded(ops, encode)), parse) == Ok(ops)
    decreases |ops|
  {
    var bodies := Encoded(ops, encode);
    if ops == [] {
      DroppedExactly([]);
      assert MARK + [] == MARK;
      assert [MARK][1..] == [];
    } else {
      assert Survives(ops[0], encode, parse);
      assert bodies[1..] == Encoded(ops[1..], encode);
      ExpectedParsed(MARK, ops[1..], encode, parse);
      var token, rest := head + Chomp(bodies[0]), Expected(MARK, bodies[1..]);
      assert ([token] + rest)[1..] == rest;
      DroppedExactly(Chomp(bodies[0]));
      assert [] + Chomp(bodies[0]) == Chomp(bodies[0]);
      assert [ops[0]] + ops[1..] == ops;
    }
  }

  /** Operations written one after another with Encode are read back in order, however the bytes are
      cut into reads. */
  lemma RoundTrip<Op>(ops: seq<Op>, encode: Op -> Bytes, parse: Bytes -> Result<Op>, chunks: seq<Bytes>)
    requires forall i :: 0 <= i < |ops| ==> Survives(ops[i], encode, parse)
    requires Concat(chunks) == Framed(Encoded(ops, encode))
    ensures Parsed(Tokens(Concat(chunks)), parse) == Ok(ops)
  {
    var bodies := Encoded(ops, encode);
    forall b | b in bodies ensures WellFramed(MARK, b) {
      var i :| 0 <= i < |ops| && b == encode(ops[i]);
      assert Survives(ops[i], encode, parse);
    }
    FramedTokens([], bodies);
    assert [] + Framed(bodies) == Framed(bodies);
    ExpectedParsed([], ops, encode, parse);
  }

  lemma {:induction false} FramedNext(bodies: seq<Bytes>, b: Bytes)
    ensures Framed(bodies + [b]) == Framed(bodies) + b + MARK
  {
    if bodies == [] {
      assert [] + [b] == [b] && [b][1..] == [];
      assert Framed([b]) == b + MARK + [];
      assert [] + b == b && b + MARK + [] == b + MARK;
    } else {
      assert (bodies + [b])[1..] == bodies[1..] + [b];
      FramedNext(bodies[1..], b);
      Regrouped(bodies[0] + MARK, Framed(bodies[1..]), b, MARK);
    }
  }

  lemma Regrouped(a: Bytes, b: Bytes, c: Bytes, d: Bytes)
    ensures a + (b + c + d) == a + b + c + d
  {
  }

  lemma EncodedNext<Op>(ops: seq<Op>, encode: Op -> Bytes, i: nat)
    requires i < |ops|
    ensures Encoded(ops[..i + 1], encode) == Encoded(ops[..i], encode) + [encode(ops[i])]
  {
  }

  /** Encoding operations one by one and reading the stream gives the operations back, when what is
      written arrives cut in any way. */
  method EncodeAndRead<Op>(ops: seq<Op>, encode: Op -> Bytes, parse: Bytes -> Result<Op>, cut: Bytes -> seq<Bytes>) returns (r: Result<seq<Op>>)
    requires forall op :: op in ops ==> Survives(op, encode, parse)
    requires forall b :: Concat(cut(b)) == b
    ensures r == Ok(ops)
  {
    var out := new Writer();
    for i := 0 to |ops|
      invariant out.data == Framed(Encoded(ops[..i], encode))
    {
      out.Encode(encode(ops[i]));
      EncodedNext(ops, encode, i);
      FramedNext(Encoded(ops[..i], encode), encode(ops[i]));
    }
    assert ops[..|ops|] == ops;
    RoundTrip(ops, encode, parse, cut(out.data));
    r := ReadOnePlan(cut(out.data), parse);
  }
}
