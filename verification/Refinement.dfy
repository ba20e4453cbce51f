/** What it means for one method of a stateful compiler to carry out one step of the reference
    parser: it succeeds in the same cases, leaves the same tokens, writes the SQL of the tree and
    appends exactly the tree's arguments. */
module Refinement {
  import opened Base
  import opened Tokens
  import opened Lexing
  import opened Cql2Grammar
  import opened Cql2Parser
  import opened SqlText
  import opened Emission

  /** What the compiler has read and bound so far. */
  datatype Cursor = Cursor(rest: Stream, args: seq<Arg>, next: nat)

  predicate Advanced(c: Cursor, c': Cursor, rest: Stream, more: seq<Arg>) {
    c' == Cursor(rest, c.args + more, c.next + |more|)
  }

  predicate ScalarStep(t: Target, r: Parsed<Scalar>, c: Cursor, c': Cursor, ok: bool, out: seq<Lexeme>) {
    && ok == r.Done?
    && (ok ==> out == EmitScalar(t, r.val, c.next) && Advanced(c, c', r.rest, ArgsScalar(t.opt, r.val)))
  }

  predicate GeomStep(t: Target, r: Parsed<Geom>, c: Cursor, c': Cursor, ok: bool, out: seq<Lexeme>) {
    && ok == r.Done?
    && (ok ==> out == EmitGeom(t, r.val, c.next) && Advanced(c, c', r.rest, ArgsGeom(t, r.val)))
  }

  predicate PredStep(t: Target, r: Parsed<Pred>, c: Cursor, c': Cursor, ok: bool, out: seq<Lexeme>) {
    && ok == r.Done?
    && (ok ==> out == EmitPred(t, r.val, c.next) && Advanced(c, c', r.rest, ArgsPred(t, r.val)))
  }

  predicate ExprStep(t: Target, r: Parsed<Expr>, c: Cursor, c': Cursor, ok: bool, out: seq<Lexeme>) {
    && ok == r.Done?
    && (ok ==> out == Emit(t, r.val, c.next) && Advanced(c, c', r.rest, Args(t, r.val)))
  }

  /** The WKT text of a geometry literal, before it is bound. */
  predicate WktStep(o: Options, r: Parsed<Geom>, c: Cursor, c': Cursor, ok: bool, wkt: string) {
    && ok == (r.Done? && !r.val.GeomProp?)
    && (ok ==> wkt == WktText(o, r.val) && c' == Cursor(r.rest, c.args, c.next))
  }

  /** The specification of Compile and CompileForDuckDB. */
  function CompileFilter(t: Target, start: nat, cql: string): Compiled {
    if IsBlank(cql) then Accepted([], [], start)
    else match ParseFilter(t.opt, Lex(cql, 0))
      case None => Rejected
      case Some(e) => Accepted(Emit(t, e, start), Args(t, e), start + |Args(t, e)|)
  }

  lemma {:induction false} TwoAdvances(c0: Cursor, c1: Cursor, c2: Cursor, a: seq<Arg>, b: seq<Arg>)
    requires Advanced(c0, c1, c1.rest, a) && Advanced(c1, c2, c2.rest, b)
    ensures Advanced(c0, c2, c2.rest, a + b)
  {
    assert (c0.args + a) + b == c0.args + (a + b);
  }

  lemma {:induction false} ScalarStart(o: Options, min: nat, ts: Stream)
    ensures match ParseScalarPrimary(o, ts)
            case Fail => ParseScalar(o, min, ts) == Fail
            case Done(l, rest) => ParseScalar(o, min, ts) == ScalarTail(o, min, l, rest) && Size(rest) < Size(ts)
  {
    hide ParseScalarPrimary, ScalarTail;
  }

  /** One turn of the operator loop in parseScalarExpr. */
  lemma {:induction false} ScalarTailStep(o: Options, min: nat, l: Scalar, ts: Stream)
    ensures var op := Head(ts).typ;
            if !IsArith(op) || Precedence(op) < min then ScalarTail(o, min, l, ts) == Done(l, ts)
            else match ParseScalar(o, Precedence(op) + 1, ts.tail)
              case Fail => ScalarTail(o, min, l, ts) == Fail
              case Done(r, rest) => ScalarTail(o, min, l, ts) == ScalarTail(o, min, Arith(l, op, r), rest)
  {
    hide ParseScalar, ParseScalarPrimary;
  }

  /** The result of reading a list whose first tokens are already read. */
  function Continued(read: Stream, r: Parsed<Stream>): Parsed<Stream> {
    match r case Fail => Fail case Done(more, rest) => Done(Append(read, more), rest)
  }

  lemma {:induction false} AppendAssoc(a: Stream, b: Stream, c: Stream)
    ensures Append(Append(a, b), c) == Append(a, Append(b, c))
    decreases a
  {
    if a.Cons? {
      AppendAssoc(a.tail, b, c);
    }
  }

  /** Reading one more item moves it from the unread to the read part. */
  lemma {:induction false} ItemsAfterSnoc(o: Options, read: Stream, ts: Stream)
    requires ts.Cons? && ValidItem(o, ts.head)
    ensures var read' := Append(read, Cons(ts.head, End));
            if Peek(ts).typ == TComma
            then Continued(read, ParseItems(o, ts)) == Continued(read', ParseItems(o, ts.tail.tail))
            else Continued(read, ParseItems(o, ts)) == Done(read', ts.tail)
  {
    if Peek(ts).typ == TComma && ParseItems(o, ts.tail.tail).Done? {
      AppendAssoc(read, Cons(ts.head, End), ParseItems(o, ts.tail.tail).val);
    }
  }

  lemma {:induction false} BodyAfterSnoc(read: Stream, ts: Stream, depth: int)
    requires ts.Cons?
    ensures var read' := Append(read, Cons(ts.head, End));
            Continued(read, ScanBody(depth - Nesting(ts.head.typ), ts)) ==
            if depth == 0 then Done(read', ts.tail)
            else if ts.tail.End? then Fail
            else Continued(read', ScanBody(depth, ts.tail))
  {
    if depth != 0 && ts.tail.Cons? && ScanBody(depth, ts.tail).Done? {
      AppendAssoc(read, Cons(ts.head, End), ScanBody(depth, ts.tail).val);
    }
  }

  /** A comparison, once its right side is compiled. */
  lemma {:induction false} CompareStep(t: Target, s: Scalar, ts: Stream, start: Cursor,
                                       c1: Cursor, c2: Cursor, ok: bool, left: seq<Lexeme>, right: seq<Lexeme>)
    requires ts.Cons? && IsComparison(ts.head.typ) && ts.head.raw == Fixed(ts.head.typ).raw
    requires left == EmitScalar(t, s, start.next) && Advanced(start, c1, ts.tail, ArgsScalar(t.opt, s))
    requires ScalarStep(t, ParseScalar(t.opt, 0, ts.tail), c1, c2, ok, right)
    ensures PredStep(t, ComparisonTail(t.opt, s, ts), start, c2, ok,
                     if ok then left + [Sp, Op(ts.head.raw), Sp] + right else [])
  {
    hide EmitScalar, ArgsScalar, ParseScalar, Fixed, Size;
    if ok {
      TwoAdvances(start, c1, c2, ArgsScalar(t.opt, s), ArgsScalar(t.opt, ParseScalar(t.opt, 0, ts.tail).val));
    }
  }

  /** BETWEEN, once both bounds are compiled. */
  lemma {:induction false} BetweenStep(t: Target, s: Scalar, neg: Option<string>, ts: Stream, start: Cursor,
                                       c1: Cursor, d1: Cursor, c2: Cursor, d2: Cursor, ok: bool,
                                       left: seq<Lexeme>, a: seq<Lexeme>, b: seq<Lexeme>)
    requires ts.Cons? && ts.head.typ == TBetween
    requires left == EmitScalar(t, s, start.next) && Advanced(start, c1, ts.tail, ArgsScalar(t.opt, s))
    requires ScalarStep(t, ParseScalar(t.opt, 0, ts.tail), c1, d1, true, a)
    requires d1.rest.Cons? && d1.rest.head.typ == TAnd && c2 == d1.(rest := d1.rest.tail)
    requires ScalarStep(t, ParseScalar(t.opt, 0, c2.rest), c2, d2, ok, b)
    ensures PredStep(t, BetweenTail(t.opt, s, neg, ts), start, d2, ok,
                     if ok then left + [Sp] + Keyword(neg) + [Word("BETWEEN"), Sp] + a + [Sp, Word("AND"), Sp] + b
                     else [])
  {
    hide EmitScalar, ArgsScalar, ParseScalar, Size, Keyword;
    if ok {
      var low, high := ParseScalar(t.opt, 0, ts.tail).val, ParseScalar(t.opt, 0, c2.rest).val;
      TwoAdvances(start, c1, d1, ArgsScalar(t.opt, s), ArgsScalar(t.opt, low));
      TwoAdvances(start, c2, d2, ArgsScalar(t.opt, s) + ArgsScalar(t.opt, low), ArgsScalar(t.opt, high));
    }
  }

  /** A distance predicate, once both geometries are compiled and the distance is bound. */
  lemma {:induction false} DWithinStep(t: Target, ts: Stream, g1: Geom, g2: Geom, start: Cursor, c1: Cursor, c2: Cursor)
    requires ts.Cons? && ts.head.typ == TDWithin && TwoGeoms(t.opt, ts.tail).Done?
             && TwoGeoms(t.opt, ts.tail).val == (g1, g2)
    requires Expect(TComma, TwoGeoms(t.opt, ts.tail).rest).Done? && c1.rest == TwoGeoms(t.opt, ts.tail).rest.tail
    requires Advanced(start, c1, c1.rest, ArgsGeom(t, g1) + ArgsGeom(t, g2))
    requires Expect(TNumber, c1.rest).Done? && ValidNumber(t.opt, c1.rest.head.raw)
             && Expect(TRParen, c1.rest.tail).Done?
    requires Advanced(c1, c2, c1.rest.tail.tail, [NumberArg(t.opt, c1.rest.head.raw)])
    ensures var n := start.next + |ArgsGeom(t, g1)|;
            PredStep(t, ParsePred(t.opt, ts), start, c2, true,
                     [Word("ST_DWithin"), LP] + EmitGeom(t, g1, start.next) + Sep(t.dialect) +
                       EmitGeom(t, g2, n) + Sep(t.dialect) +
                     [Param(c1.next), RP])
  {
    hide EmitGeom, ArgsGeom, TwoGeoms, ParseComparison, Size, Sep, NumberArg;
    TwoAdvances(start, c1, c2, ArgsGeom(t, g1) + ArgsGeom(t, g2), [NumberArg(t.opt, c1.rest.head.raw)]);
  }

  lemma {:induction false} BadItem(o: Options, ts: Stream)
    requires !(ts.Cons? && ValidItem(o, ts.head))
    ensures ParseItems(o, ts) == Fail
  {
  }

  lemma {:induction false} NoItems(t: Target, n: nat, r: Parsed<Stream>)
    ensures EmitItems(t.dialect, End, n) == [] && ArgsItems(t.opt, End) == [] && Continued(End, r) == r
  {
  }

  lemma {:induction false} NothingRead(r: Parsed<Stream>)
    ensures WktBody(End, false) == "" && Continued(End, r) == r
  {
  }

  /** One more operator of an arithmetic expression. */
  lemma {:induction false} ArithStep(t: Target, left: Scalar, typ: Typ, r: Scalar, c0: Cursor, c1: Cursor, c2: Cursor,
                                     out: seq<Lexeme>, right: seq<Lexeme>)
    requires out == EmitScalar(t, left, c0.next) && Advanced(c0, c1, c1.rest, ArgsScalar(t.opt, left))
    requires right == EmitScalar(t, r, c1.next) && Advanced(c1, c2, c2.rest, ArgsScalar(t.opt, r))
    ensures [LP] + out + [Sp, Op(Fixed(typ).raw), Sp] + right + [RP] == EmitScalar(t, Arith(left, typ, r), c0.next)
    ensures Advanced(c0, c2, c2.rest, ArgsScalar(t.opt, Arith(left, typ, r)))
  {
    TwoAdvances(c0, c1, c2, ArgsScalar(t.opt, left), ArgsScalar(t.opt, r));
  }

  /** A geometry literal, once its text is bound. */
  lemma {:induction false} LiteralStep(t: Target, r: Parsed<Geom>, c0: Cursor, c1: Cursor, c2: Cursor, wkt: string)
    requires WktStep(t.opt, r, c0, c1, true, wkt) && Advanced(c1, c2, c1.rest, [GeomArg(t, wkt)])
    ensures GeomStep(t, r, c0, c2, true, EmitGeomLiteral(t, c0.next))
  {
    hide EmitGeomLiteral, WktText, GeomArg;
  }

  predicate LastIsNumber(ts: Stream) {
    ts.Cons? && if ts.tail.End? then ts.head.typ == TNumber else LastIsNumber(ts.tail)
  }

  lemma {:induction false} WktSnoc(read: Stream, tok: Token)
    ensures WktBody(Append(read, Cons(tok, End)), false) ==
            WktBody(read, false) + (if LastIsNumber(read) && tok.typ == TNumber then " " else "") + tok.raw
    ensures LastIsNumber(Append(read, Cons(tok, End))) == (tok.typ == TNumber)
  {
    WktSnocFrom(read, tok, false);
  }

  lemma {:induction false} Regroup(a: string, b: string, c: string, d: string, e: string)
    ensures a + b + (c + d + e) == (a + b + c) + d + e
  {
  }

  lemma {:induction false} WktSnocFrom(read: Stream, tok: Token, afterNumber: bool)
    ensures WktBody(Append(read, Cons(tok, End)), afterNumber) ==
            WktBody(read, afterNumber) +
            (if tok.typ == TNumber && (if read.End? then afterNumber else LastIsNumber(read)) then " " else "") +
            tok.raw
    ensures LastIsNumber(Append(read, Cons(tok, End))) == (tok.typ == TNumber)
    decreases read
  {
    if read.Cons? {
      WktSnocFrom(read.tail, tok, read.head.typ == TNumber);
      var sep := if afterNumber && read.head.typ == TNumber then " " else "";
      var gap := if LastIsNumber(read) && tok.typ == TNumber then " " else "";
      Regroup(sep, read.head.raw, WktBody(read.tail, read.head.typ == TNumber), gap, tok.raw);
    } else {
      assert WktBody(End, tok.typ == TNumber) == "";
    }
  }

  /** strings.Join(phs, ...) for placeholders collected left to right. */
  lemma {:induction false} ItemsSnoc(d: Dialect, o: Options, items: Stream, tok: Token, n: nat)
    requires items.Cons?
    ensures EmitItems(d, Append(items, Cons(tok, End)), n) ==
            EmitItems(d, items, n) + Sep(d) + [Param(n + |ArgsItems(o, items)|)]
    ensures ArgsItems(o, Append(items, Cons(tok, End))) == ArgsItems(o, items) + [ItemArg(o, tok)]
    decreases items
  {
    if items.tail.Cons? {
      ItemsSnoc(d, o, items.tail, tok, n + 1);
    }
  }

  lemma {:induction false} ItemsSnoc'(t: Target, read: Stream, tok: Token, n: nat)
    ensures var all := EmitItems(t.dialect, Append(read, Cons(tok, End)), n);
            var ph := [Param(n + |ArgsItems(t.opt, read)|)];
            all == (if read.End? then ph else EmitItems(t.dialect, read, n) + Sep(t.dialect) + ph) && all != []
    ensures ArgsItems(t.opt, Append(read, Cons(tok, End))) == ArgsItems(t.opt, read) + [ItemArg(t.opt, tok)]
  {
    if read.Cons? {
      ItemsSnoc(t.dialect, t.opt, read, tok, n);
    }
  }
}
