/** internal/datasource/query_predicate.go: moving a compiled predicate's placeholders. */
module Rebase {
  import opened Base
  import opened Tokens
  import opened Lexing
  import opened Scanning
  import opened Cql2Grammar
  import opened SqlText
  import opened Emission
  import opened SqlLexing
  import opened Placeholders

  const MAX_INT: nat := 0x7FFF_FFFF_FFFF_FFFF   // the largest value strconv.Atoi accepts

  // ---------------------------------------------------------------- specification

  /** The length of a quoted region's remainder, from just after its opening quote; an
      unterminated region runs to the end. */
  function QuotedTail(s: string, q: char): (k: nat)
    ensures k <= |s|
  {
    if s == "" then 0
    else if s[0] != q then 1 + QuotedTail(s[1..], q)
    else if |s| > 1 && s[1] == q then 2 + QuotedTail(s[2..], q)
    else 1
  }

  predicate StartsHole(s: string) { |s| > 1 && s[0] == '$' && IsDigit(s[1]) }

  predicate StartsQuote(s: string) { s != "" && (s[0] == '\'' || s[0] == '"') }

  /** The length of the first piece of s: a quoted region, a placeholder, or one byte. */
  function PieceLen(s: string): (k: nat)
    requires s != ""
    ensures 0 < k <= |s|
  {
    if StartsQuote(s) then 1 + QuotedTail(s[1..], s[0])
    else if StartsHole(s) then RunEnd(s, 1, IsDigit)
    else 1
  }

  /** What the first piece becomes; None when it is a placeholder outside [from, from + count). */
  function PieceTo(s: string, from: int, to: nat, count: nat): Option<string>
    requires s != ""
  {
    if StartsHole(s) && !StartsQuote(s) then
      var n := Atoi(s[1..RunEnd(s, 1, IsDigit)]);
      if n > MAX_INT || n < from || n - from >= count then None else Some("$" + Itoa(to + n - from))
    else Some(s[..PieceLen(s)])
  }

  function Prepend(a: string, r: Option<string>): Option<string> {
    match r case None => None case Some(b) => Some(a + b)
  }

  function Rebased(s: string, from: int, to: nat, count: nat): Option<string>
    decreases |s|
  {
    if s == "" then Some("")
    else match PieceTo(s, from, to, count)
      case None => None
      case Some(piece) => Prepend(piece, Rebased(s[PieceLen(s)..], from, to, count))
  }

  function From(from: int): int { if from <= 0 then 1 else from }

  // ---------------------------------------------------------------- the scanning loop

  /** rebaseParameters */
  method RebaseParameters(sql: string, from: int, to: nat, count: nat) returns (r: Option<string>)
    ensures r == Rebased(sql, From(from), to, count)
  {
    var start := if from <= 0 then 1 else from;
    var out := "";
    var i := 0;
    assert sql[0..] == sql;
    PrependEmpty(Rebased(sql, start, to, count));
    while i < |sql|
      invariant i <= |sql|
      invariant Prepend(out, Rebased(sql[i..], start, to, count)) == Rebased(sql, start, to, count)
    {
      hide PieceLen, PieceTo;
      var piece, end := NextPiece(sql, i, start, to, count);
      if piece.None? {
        return None;
      }
      assert sql[i..][PieceLen(sql[i..])..] == sql[end..];
      PrependTwice(out, piece.value, Rebased(sql[end..], start, to, count));
      out := out + piece.value;
      i := end;
    }
    assert out + "" == out;
    return Some(out);
  }

  /** One turn of the scan: what the piece at i becomes, and where the next one starts. */
  method NextPiece(sql: string, i: nat, from: int, to: nat, count: nat) returns (piece: Option<string>, end: nat)
    requires i < |sql|
    ensures i < end <= |sql| && end == i + PieceLen(sql[i..])
    ensures piece == PieceTo(sql[i..], from, to, count)
  {
    hide QuotedTail, Itoa, Atoi;
    var ch := sql[i];
    ghost var here := sql[i..];
    assert here[0] == ch;
    if ch == '\'' || ch == '"' {
      end := SkipQuoted(sql, i);
      assert here[1..] == sql[i + 1..];
      assert here[..end - i] == sql[i..end];
      return Some(sql[i..end]), end;
    }
    assert i + 1 < |sql| ==> here[1] == sql[i + 1];
    if ch == '$' && i + 1 < |sql| && IsDigit(sql[i + 1]) {
      end := SkipDigits(sql, i + 1);
      assert here[1..end - i] == sql[i + 1..end];
      DigitsOf(here);
      var number := Atoi(sql[i + 1..end]);
      if number > MAX_INT || number < from || number - from >= count {
        return None, end;
      }
      return Some("$" + Itoa(to + number - from)), end;
    }
    assert here[..1] == [ch];
    return Some([ch]), i + 1;
  }

  lemma DigitsOf(s: string)
    requires |s| > 0
    ensures AllDigits(s[1..RunEnd(s, 1, IsDigit)])
  {
  }

  lemma {:induction false} PrependEmpty(r: Option<string>)
    ensures Prepend("", r) == r
  {
    if r.Some? {
      assert "" + r.value == r.value;
    }
  }

  method SkipQuoted(sql: string, start: nat) returns (i: nat)
    requires start < |sql|
    ensures start < i <= |sql|
    ensures i == start + 1 + QuotedTail(sql[start + 1..], sql[start])
  {
    var ch := sql[start];
    i := start + 1;
    while i < |sql|
      invariant start < i <= |sql|
      invariant i + QuotedTail(sql[i..], ch) == start + 1 + QuotedTail(sql[start + 1..], ch)
    {
      assert sql[i..][1..] == sql[i + 1..];
      if sql[i] != ch {
        i := i + 1;
        continue;
      }
      i := i + 1;
      if i < |sql| && sql[i] == ch {
        assert sql[i - 1..][2..] == sql[i + 1..];
        i := i + 1;
        continue;
      }
      return;
    }
  }

  method SkipDigits(sql: string, start: nat) returns (end: nat)
    requires 0 < start <= |sql|
    ensures start <= end <= |sql| && end - (start - 1) == RunEnd(sql[start - 1..], 1, IsDigit)
  {
    end := start;
    while end < |sql| && IsDigit(sql[end])
      invariant start <= end <= |sql|
      invariant forall k :: start <= k < end ==> IsDigit(sql[k])
    {
      end := end + 1;
    }
    ghost var tail := sql[start - 1..];
    assert forall k :: 1 <= k < end - (start - 1) ==> tail[k] == sql[start - 1 + k];
    RunStops(tail, 1, end - (start - 1), IsDigit);
  }

  lemma {:induction false} PrependTwice(a: string, b: string, r: Option<string>)
    ensures Prepend(a, Prepend(b, r)) == Prepend(a + b, r)
  {
    if r.Some? {
      assert a + (b + r.value) == (a + b) + r.value;
    }
  }

  // ---------------------------------------------------------------- composition, for all texts

  /** A rebased text starts with the byte the original starts with. */
  lemma {:induction false} FirstByteKept(s: string, from: int, to: nat, count: nat)
    requires s != "" && Rebased(s, from, to, count).Some?
    ensures Rebased(s, from, to, count).value != "" && Rebased(s, from, to, count).value[0] == s[0]
  {
    var piece := PieceTo(s, from, to, count).value;
    assert piece != "" && piece[0] == s[0];
  }

  lemma {:induction false} QuotedTailStable(x: string, y: string, z: string, q: char)
    requires QuotedTail(x + y, q) == |x|
    requires (y == "") == (z == "") && (y != "" ==> y[0] == z[0])
    requires y == "" || |x| > 0
    ensures QuotedTail(x + z, q) == |x|
    decreases |x|
  {
    if x == "" {
      assert y == "" && z == "";
    } else {
      var k := if x[0] != q then 1 else if |x| > 1 && x[1] == q then 2 else 1;
      if x[0] == q && |x| == 1 {
        assert y != "" ==> (x + y)[1] == y[0];
        assert z != "" ==> (x + z)[1] == z[0];
      } else {
        assert (x + y)[0] == x[0] == (x + z)[0];
        assert |x| > 1 ==> (x + y)[1] == x[1] == (x + z)[1];
        assert (x + y)[k..] == x[k..] + y && (x + z)[k..] == x[k..] + z;
        if x[0] != q || k == 2 {
          assert QuotedTail(x + y, q) == k + QuotedTail(x[k..] + y, q);
          if x[k..] == "" && y != "" {
            TailPositive(y, q);
          }
          QuotedTailStable(x[k..], y, z, q);
        }
      }
    }
  }

  lemma {:induction false} TailPositive(y: string, q: char)
    requires y != ""
    ensures QuotedTail(y, q) > 0
  {
  }

  /** Moving from a to b and on to c is moving from a to c, for every text. */
  lemma {:induction false} RebaseComposes(s: string, a: int, b: nat, c: nat, count: nat)
    requires b >= 1 && b + count <= MAX_INT + 1
    ensures match Rebased(s, a, b, count)
            case None => Rebased(s, a, c, count) == None
            case Some(moved) => Rebased(moved, b, c, count) == Rebased(s, a, c, count)
    decreases |s|
  {
    if s != "" {
      var k := PieceLen(s);
      var rest := s[k..];
      RebaseComposes(rest, a, b, c, count);
      if PieceTo(s, a, b, count).Some? && Rebased(rest, a, b, count).Some? {
        var piece, tail := PieceTo(s, a, b, count).value, Rebased(rest, a, b, count).value;
        if rest != "" {
          FirstByteKept(rest, a, b, count);
        }
        PieceMovesAgain(s, tail, a, b, c, count);
        assert (piece + tail)[|piece|..] == tail;
      }
    }
  }

  /** The moved first piece is again the first piece, whatever follows keeps its first byte. */
  lemma {:induction false} PieceMovesAgain(s: string, tail: string, a: int, b: nat, c: nat, count: nat)
    requires s != "" && PieceTo(s, a, b, count).Some? && b >= 1 && b + count <= MAX_INT + 1
    requires var rest := s[PieceLen(s)..]; (rest == "") == (tail == "") && (rest != "" ==> rest[0] == tail[0])
    ensures var piece := PieceTo(s, a, b, count).value;
            PieceLen(piece + tail) == |piece| && PieceTo(piece + tail, b, c, count) == PieceTo(s, a, c, count)
  {
    hide Itoa, QuotedTail;
    var piece := PieceTo(s, a, b, count).value;
    var moved := piece + tail;
    var k := PieceLen(s);
    if StartsQuote(s) {
      var q, body := s[0], s[1..k];
      assert s[1..] == body + s[k..] && moved[1..] == body + tail;
      if s[k..] != "" && body == "" {
        TailPositive(s[1..], q);
      }
      QuotedTailStable(body, s[k..], tail, q);
      assert moved[..k] == piece;
    } else if StartsHole(s) {
      var n := Atoi(s[1..k]);
      var m := b + n - a;
      NumeralFirst("$", m, tail) by {
        assert tail != "" ==> !IsDigit(tail[0]);
      }
      assert moved == "$" + Itoa(m) + tail;
      assert moved[1..|piece|] == Itoa(m);
      assert IsDigit(moved[1]);
    } else {
      assert s[..1] == piece;
      assert moved[0] == s[0];
      if |moved| > 1 {
        assert moved[1] == tail[0] == s[1..][0];
      }
      assert moved[..1] == piece;
    }
  }

  // ---------------------------------------------------------------- clean text

  /** Every placeholder moved by d. */
  function Move(ls: seq<Lexeme>, d: int): (r: seq<Lexeme>)
    ensures |r| == |ls|
  {
    seq(|ls|, i requires 0 <= i < |ls| => MoveOne(ls[i], d))
  }

  function MoveOne(l: Lexeme, d: int): Lexeme {
    if l.Param? && l.index + d >= 0 then Param(l.index + d) else l
  }

  predicate Within(ls: seq<Lexeme>, from: nat, count: nat) {
    forall i :: 0 <= i < |ls| && ls[i].Param? ==> from <= ls[i].index < from + count
  }

  /** On clean text only the placeholders change; identifiers and literals stay byte-identical. */
  lemma {:induction false} RebaseMoves(ls: seq<Lexeme>, from: nat, to: nat, count: nat)
    requires Clean(ls) && Within(ls, from, count) && from + count <= MAX_INT + 1
    ensures Rebased(SqlText.Text(ls), from, to, count) == Some(SqlText.Text(Move(ls, to - from)))
    decreases |ls|
  {
    hide Rebased, LexemeText, Detached, WellFormed, Apart;
    if |ls| == 0 {
      NothingToRebase(from, to, count);
    } else {
      var l, rest := ls[0], SqlText.Text(ls[1..]);
      assert Clean(ls[1..]);
      RebaseMoves(ls[1..], from, to, count);
      assert Move(ls, to - from)[1..] == Move(ls[1..], to - from);
      DetachedRest(ls);
      LexemeRebases(l, rest, from, to, count);
    }
  }

  lemma {:induction false} DetachedRest(ls: seq<Lexeme>)
    requires Clean(ls) && |ls| > 0
    ensures WellFormed(ls[0]) && Detached(ls[0], SqlText.Text(ls[1..]))
  {
    hide LexemeText, WellFormed, Apart;
    if |ls| > 1 {
      ApartDetached(ls[0], ls[1], SqlText.Text(ls[1..][1..]));
    }
  }

  lemma {:induction false} NothingToRebase(from: int, to: nat, count: nat)
    ensures Rebased("", from, to, count) == Some("")
  {
  }

  lemma {:induction false} LexemeRebases(l: Lexeme, rest: string, from: nat, to: nat, count: nat)
    requires WellFormed(l) && Detached(l, rest) && from + count <= MAX_INT + 1
    requires l.Param? ==> from <= l.index < from + count
    ensures Rebased(LexemeText(l) + rest, from, to, count) ==
            Prepend(LexemeText(MoveOne(l, to - from)), Rebased(rest, from, to, count))
  {
    hide Rebased, Itoa;
    match l {
      case Quoted(name) => QuotedRebases(name, '"', rest, from, to, count);
      case Str(text) => QuotedRebases(text, '\'', rest, from, to, count);
      case Param(n) => HoleRebases(n, rest, from, to, count);
      case Word(w) => BytesRebase(w, rest, from, to, count);
      case Int(n) => BytesRebase(Itoa(n), rest, from, to, count);
      case Op(op) => OpBytes(op); BytesRebase(op, rest, from, to, count);
      case _ => BytesRebase(LexemeText(l), rest, from, to, count);
    }
  }

  lemma {:induction false} OpBytes(op: string)
    requires WellFormed(Op(op))
    ensures forall i :: 0 <= i < |op| ==> PlainByte(op[i])
  {
  }

  lemma {:induction false} HoleRebases(n: nat, rest: string, from: nat, to: nat, count: nat)
    requires (rest == "" || !IsDigit(rest[0])) && from <= n < from + count && from + count <= MAX_INT + 1
    ensures Rebased("$" + Itoa(n) + rest, from, to, count) ==
            Prepend("$" + Itoa(to + n - from), Rebased(rest, from, to, count))
  {
    hide QuotedTail;
    var s := "$" + Itoa(n) + rest;
    NumeralFirst("$", n, rest);
    assert IsDigit(s[1]);
    assert s[1 + |Itoa(n)|..] == rest;
    assert PieceTo(s, from, to, count) == Some("$" + Itoa(to + n - from));
  }

  predicate PlainByte(c: char) { c != '$' && c != '"' && c != '\'' }

  lemma {:induction false} BytesRebase(w: string, rest: string, from: nat, to: nat, count: nat)
    requires forall i :: 0 <= i < |w| ==> PlainByte(w[i])
    ensures Rebased(w + rest, from, to, count) == Prepend(w, Rebased(rest, from, to, count))
    decreases |w|
  {
    hide Rebased, Prepend;
    if w == "" {
      assert w + rest == rest;
      PrependEmpty(Rebased(rest, from, to, count));
    } else {
      BytesRebase(w[1..], rest, from, to, count);
      ByteRebases(w[0], w[1..] + rest, from, to, count);
      assert w + rest == [w[0]] + (w[1..] + rest) && [w[0]] + w[1..] == w;
      PrependTwice([w[0]], w[1..], Rebased(rest, from, to, count));
    }
  }

  lemma {:induction false} ByteRebases(c: char, rest: string, from: nat, to: nat, count: nat)
    requires PlainByte(c)
    ensures Rebased([c] + rest, from, to, count) == Prepend([c], Rebased(rest, from, to, count))
  {
    var s := [c] + rest;
    assert s[1..] == rest && s[..1] == [c];
  }

  /** A quoted region is copied whatever it contains. */
  lemma {:induction false} QuotedRebases(text: string, q: char, rest: string, from: int, to: nat, count: nat)
    requires (q == '"' || q == '\'') && (rest == "" || rest[0] != q)
    ensures Rebased(Quote(text, q) + rest, from, to, count) == Prepend(Quote(text, q), Rebased(rest, from, to, count))
  {
    var s := Quote(text, q) + rest;
    QuotedTailDoubled(text, q, rest);
    assert s[1..] == Doubled(text, q) + [q] + rest;
    assert s[..|Quote(text, q)|] == Quote(text, q);
    assert s[|Quote(text, q)|..] == rest;
  }

  lemma {:induction false} QuotedTailDoubled(text: string, q: char, rest: string)
    requires rest == "" || rest[0] != q
    ensures QuotedTail(Doubled(text, q) + [q] + rest, q) == |Doubled(text, q)| + 1
    decreases |text|
  {
    var s := Doubled(text, q) + [q] + rest;
    if text == "" {
      assert |s| > 1 ==> s[1] == rest[0];
    } else {
      QuotedTailDoubled(text[1..], q, rest);
      var k := if text[0] == q then 2 else 1;
      assert s[k..] == Doubled(text[1..], q) + [q] + rest;
    }
  }

  // ---------------------------------------------------------------- rebasing is recompiling

  lemma {:induction false} ScalarMoves(t: Target, s: Scalar, n: nat, d: int)
    requires n + d >= 0
    ensures Move(EmitScalar(t, s, n), d) == EmitScalar(t, s, n + d)
    decreases s
  {
    hide Fixed, EmitInstant;
    match s {
      case Group(inner) =>
        ScalarMoves(t, inner, n, d);
        MoveConcat([LP], EmitScalar(t, inner, n), d);
        MoveConcat([LP] + EmitScalar(t, inner, n), [RP], d);
        assert Move([LP], d) == [LP] && Move([RP], d) == [RP];
      case Arith(l, op, r) =>
        ScalarMoves(t, l, n, d);
        ScalarMoves(t, r, n + |ArgsScalar(t.opt, l)|, d);
        MoveInfix(EmitScalar(t, l, n), Op(Fixed(op).raw), EmitScalar(t, r, n + |ArgsScalar(t.opt, l)|), d);
      case _ => LeafMoves(t, s, n, d);
    }
  }

  lemma {:induction false} LeafMoves(t: Target, s: Scalar, n: nat, d: int)
    requires n + d >= 0 && !s.Group? && !s.Arith?
    ensures Move(EmitScalar(t, s, n), d) == EmitScalar(t, s, n + d)
  {
    hide PostgisZoned, DuckdbZoned;
  }

  lemma {:induction false} MoveConcat(a: seq<Lexeme>, b: seq<Lexeme>, d: int)
    ensures Move(a + b, d) == Move(a, d) + Move(b, d)
  {
  }

  lemma {:induction false} MoveInfix(a: seq<Lexeme>, op: Lexeme, b: seq<Lexeme>, d: int)
    requires !op.Param?
    ensures Move([LP] + a + [Sp, op, Sp] + b + [RP], d) == [LP] + Move(a, d) + [Sp, op, Sp] + Move(b, d) + [RP]
  {
  }

  lemma {:induction false} GeomMoves(t: Target, g: Geom, n: nat, d: int)
    requires PlainGeometry(t) && n + d >= 0
    ensures Move(EmitGeom(t, g, n), d) == EmitGeom(t, g, n + d)
  {
    if g.GeomProp? {
    } else if t.dialect.PostGIS? {
      assert Move(EmitGeomLiteral(t, n), d) == EmitGeomLiteral(t, n + d);
    } else {
      assert Move(EmitGeomLiteral(t, n), d) == EmitGeomLiteral(t, n + d);
    }
  }

  lemma {:induction false} ItemsMove(dialect: Dialect, items: Stream, n: nat, d: int)
    requires n + d >= 0
    ensures Move(EmitItems(dialect, items, n), d) == EmitItems(dialect, items, n + d)
    decreases items
  {
    if items.Cons? {
      ItemsMove(dialect, items.tail, n + 1, d);
    }
  }

  lemma {:induction false} PredMoves(t: Target, p: Pred, n: nat, d: int)
    requires PlainGeometry(t) && n + d >= 0
    ensures Move(EmitPred(t, p, n), d) == EmitPred(t, p, n + d)
  {
    match p {
      case Spatial(_, _, _) => SpatialMoves(t, p, n, d);
      case DWithin(_, _, _) => SpatialMoves(t, p, n, d);
      case InList(_, _, _, items) => ItemsMove(t.dialect, items, n, d);
      case Compare(_, _, _) => ComparisonMoves(t, p, n, d);
      case Between(_, _, _, _, _, _) => ComparisonMoves(t, p, n, d);
      case _ =>
    }
  }

  lemma {:induction false} SpatialMoves(t: Target, p: Pred, n: nat, d: int)
    requires PlainGeometry(t) && n + d >= 0 && (p.Spatial? || p.DWithin?)
    ensures Move(EmitPred(t, p, n), d) == EmitPred(t, p, n + d)
  {
    hide EmitGeom, StFunction, ArgsGeom;
    var g1, g2 := if p.Spatial? then p.g1 else p.d1, if p.Spatial? then p.g2 else p.d2;
    var m := n + |ArgsGeom(t, g1)|;
    GeomMoves(t, g1, n, d);
    GeomMoves(t, g2, m, d);
    var a, b := EmitGeom(t, g1, n), EmitGeom(t, g2, m);
    var a', b' := EmitGeom(t, g1, n + d), EmitGeom(t, g2, m + d);
    var pre := [Word(if p.Spatial? then StFunction(p.fn) else "ST_DWithin"), LP];
    MoveThree(pre + a, Sep(t.dialect), b, d);
    MoveConcat(pre, a, d);
    var ab := pre + a + Sep(t.dialect) + b;
    assert Move(ab, d) == pre + a' + Sep(t.dialect) + b';
    if p.Spatial? {
      MoveConcat(ab, [RP], d);
    } else {
      MoveThree(ab, Sep(t.dialect), [Param(m + |ArgsGeom(t, g2)|), RP], d);
    }
  }

  lemma {:induction false} MoveThree(a: seq<Lexeme>, mid: seq<Lexeme>, b: seq<Lexeme>, d: int)
    requires Plain(mid)
    ensures Move(a + mid + b, d) == Move(a, d) + mid + Move(b, d)
  {
  }

  lemma {:induction false} ComparisonMoves(t: Target, p: Pred, n: nat, d: int)
    requires n + d >= 0 && (p.Compare? || p.Between?)
    ensures Move(EmitPred(t, p, n), d) == EmitPred(t, p, n + d)
  {
    hide EmitScalar, ArgsScalar, Move, Fixed;
    var j := |ArgsScalar(t.opt, p.left)|;
    var l := EmitScalar(t, p.left, n);
    ScalarMoves(t, p.left, n, d);
    if p.Compare? {
      ScalarMoves(t, p.right, n + j, d);
      MoveThree(l, [Sp, Op(Fixed(p.op).raw), Sp], EmitScalar(t, p.right, n + j), d);
    } else {
      var k := |ArgsScalar(t.opt, p.low)|;
      var a, b := EmitScalar(t, p.low, n + j), EmitScalar(t, p.high, n + j + k);
      ScalarMoves(t, p.low, n + j, d);
      ScalarMoves(t, p.high, n + j + k, d);
      var kw := [Sp] + Keyword(p.neg) + [Word("BETWEEN"), Sp];
      MoveThree(l, kw, a, d);
      MoveThree(l + kw + a, [Sp, Word("AND"), Sp], b, d);
      assert l + kw + a + [Sp, Word("AND"), Sp] + b == EmitPred(t, p, n);
      var l', a', b' :=
        EmitScalar(t, p.left, n + d), EmitScalar(t, p.low, n + d + j), EmitScalar(t, p.high, n + d + j + k);
      assert l' + kw + a' + [Sp, Word("AND"), Sp] + b' == EmitPred(t, p, n + d);
    }
  }

  lemma {:induction false} EmitMoves(t: Target, e: Expr, n: nat, d: int)
    requires PlainGeometry(t) && n + d >= 0
    ensures Move(Emit(t, e, n), d) == Emit(t, e, n + d)
    decreases e
  {
    hide EmitPred, ArgsPred;
    match e {
      case Atom(p) => PredMoves(t, p, n, d);
      case Paren(inner) => EmitMoves(t, inner, n, d);
      case Not(_, arg) => EmitMoves(t, arg, n, d);
      case And(l, _, r) =>
        EmitMoves(t, l, n, d);
        EmitMoves(t, r, n + |Args(t, l)|, d);
        MoveInfix(Emit(t, l, n), Word("AND"), Emit(t, r, n + |Args(t, l)|), d);
      case Or(l, _, r) =>
        EmitMoves(t, l, n, d);
        EmitMoves(t, r, n + |Args(t, l)|, d);
        MoveInfix(Emit(t, l, n), Word("OR"), Emit(t, r, n + |Args(t, l)|), d);
    }
  }
}
