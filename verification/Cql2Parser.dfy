/** The reference recursive descent over token sequences. */
module Cql2Parser {
  import opened Base
  import opened Tokens
  import opened Cql2Grammar

  /** A parse result: failure, or a value with the tokens left over. */
  datatype Parsed<+T> = Fail | Done(val: T, rest: Stream) {
    predicate IsFailure() { Fail? }
    function PropagateFailure<U>(): Parsed<U> requires Fail? { Fail }
    function Extract(): (T, Stream) requires Done? { (val, rest) }
  }

  function Expect(t: Typ, ts: Stream): (r: Parsed<string>)
    ensures r.Done? ==> ts == Cons(Token(t, r.val), r.rest) && Size(r.rest) < Size(ts)
  {
    if ts.Cons? && ts.head.typ == t then Done(ts.head.raw, ts.tail) else Fail
  }

  // ---------------------------------------------------------------- scalars

  function ParseScalar(o: Options, min: nat, ts: Stream): (r: Parsed<Scalar>)
    ensures r.Done? ==> Size(r.rest) < Size(ts)
    decreases Size(ts), 2
  {
    var (l, rest) :- ParseScalarPrimary(o, ts);
    ScalarTail(o, min, l, rest)
  }

  function ScalarTail(o: Options, min: nat, l: Scalar, ts: Stream): (r: Parsed<Scalar>)
    ensures r.Done? ==> Size(r.rest) <= Size(ts)
    decreases Size(ts), 1
  {
    var op := Head(ts).typ;
    if !IsArith(op) || Precedence(op) < min then Done(l, ts)
    else
      var (r, rest) :- ParseScalar(o, Precedence(op) + 1, ts.tail);
      ScalarTail(o, min, Arith(l, op, r), rest)
  }

  function ParseScalarPrimary(o: Options, ts: Stream): (r: Parsed<Scalar>)
    ensures r.Done? ==> Size(r.rest) < Size(ts)
    decreases Size(ts), 0
  {
    if ts.End? then Fail
    else match ts.head.typ
      case TLParen =>
        var (inner, r1) :- ParseScalar(o, 0, ts.tail);
        var (_, r2) :- Expect(TRParen, r1);
        Done(Group(inner), r2)
      case TIdent => if ts.head.raw in o.allowed then Done(Prop(ts.head.raw), ts.tail) else Fail
      case TString => Done(Text(ts.head.raw), ts.tail)
      case TNumber => if ValidNumber(o, ts.head.raw) then Done(Number(ts.head.raw), ts.tail) else Fail
      case TBool => Done(Boolean(ts.head.raw), ts.tail)
      case TTemporal =>
        if IsNow(ts.head.raw) && Peek(ts).typ == TLParen then
          assert Size(ts) == 2 + Size(ts.tail.tail);
          var (_, r1) :- Expect(TRParen, ts.tail.tail);
          Done(Now, r1)
        else Done(Instant(ts.head.raw), ts.tail)
      case _ => Fail
  }

  // ---------------------------------------------------------------- geometries

  function ScanBody(depth: int, ts: Stream): (r: Parsed<Stream>)
    requires ts.Cons?
    ensures r.Done? ==> Size(r.rest) < Size(ts)
    decreases Size(ts)
  {
    var d := depth + Nesting(ts.head.typ);
    if d == 0 then Done(Cons(ts.head, End), ts.tail)
    else if ts.tail.End? then Fail
    else
      var (body, rest) :- ScanBody(d, ts.tail);
      Done(Cons(ts.head, body), rest)
  }

  function ParseEnvelope(o: Options, ts: Stream): (r: Parsed<Geom>)
    ensures r.Done? ==> Size(r.rest) < Size(ts) && r.val.Envelope?
  {
    var (_, r0) :- Expect(TLParen, ts);
    var (a, r1) :- Expect(TNumber, r0);
    var (_, r2) :- Expect(TComma, r1);
    var (b, r3) :- Expect(TNumber, r2);
    var (_, r4) :- Expect(TComma, r3);
    var (c, r5) :- Expect(TNumber, r4);
    var (_, r6) :- Expect(TComma, r5);
    var (d, r7) :- Expect(TNumber, r6);
    var (_, r8) :- Expect(TRParen, r7);
    if ValidNumber(o, a) && ValidNumber(o, c) then Done(Envelope(a, b, c, d), r8) else Fail
  }

  function ParseGeom(o: Options, ts: Stream): (r: Parsed<Geom>)
    ensures r.Done? ==> Size(r.rest) < Size(ts)
  {
    if ts.End? then Fail
    else if ts.head.typ == TIdent then
      if ts.head.raw == o.geometry then Done(GeomProp(ts.head.raw), ts.tail) else Fail
    else if ts.head.typ == TEnvelope then ParseEnvelope(o, ts.tail)
    else if IsWktKind(ts.head.typ) && Peek(ts).typ == TLParen then
      var (body, rest) :- ScanBody(0, ts.tail);
      Done(Wkt(ts.head.typ, body), rest)
    else Fail
  }

  // ---------------------------------------------------------------- predicates

  function ParseItems(o: Options, ts: Stream): (r: Parsed<Stream>)
    ensures r.Done? ==> Size(r.rest) < Size(ts) && r.val.Cons?
  {
    if ts.End? || !ValidItem(o, ts.head) then Fail
    else if Peek(ts).typ == TComma then
      var (items, rest) :- ParseItems(o, ts.tail.tail);
      Done(Cons(ts.head, items), rest)
    else Done(Cons(ts.head, End), ts.tail)
  }

  /** What follows the left side: [NOT] BETWEEN or a comparison operator. */
  function ComparisonTail(o: Options, l: Scalar, ts: Stream): (r: Parsed<Pred>)
    ensures r.Done? ==> Size(r.rest) < Size(ts)
  {
    if Head(ts).typ == TNot && Peek(ts).typ == TBetween then
      BetweenTail(o, l, Some(ts.head.raw), ts.tail)
    else if Head(ts).typ == TBetween then
      BetweenTail(o, l, None, ts)
    else if IsComparison(Head(ts).typ) then
      var (r, rest) :- ParseScalar(o, 0, ts.tail);
      Done(Compare(l, ts.head.typ, r), rest)
    else Fail
  }

  function BetweenTail(o: Options, l: Scalar, neg: Option<string>, ts: Stream): (r: Parsed<Pred>)
    requires ts.Cons?
    ensures r.Done? ==> Size(r.rest) < Size(ts)
  {
    var (a, r1) :- ParseScalar(o, 0, ts.tail);
    var (andKw, r2) :- Expect(TAnd, r1);
    var (b, r3) :- ParseScalar(o, 0, r2);
    Done(Between(l, neg, ts.head.raw, a, andKw, b), r3)
  }

  /** After a property and an optional NOT: LIKE, ILIKE or IN. */
  function KeywordTail(o: Options, prop: string, neg: Option<string>, ts: Stream): (r: Parsed<Pred>)
    requires Head(ts).typ in {TLike, TILike, TIn}
    ensures r.Done? ==> Size(r.rest) < Size(ts)
  {
    if ts.head.typ == TIn then
      var (_, r1) :- Expect(TLParen, ts.tail);
      var (items, r2) :- ParseItems(o, r1);
      var (_, r3) :- Expect(TRParen, r2);
      Done(InList(prop, neg, ts.head.raw, items), r3)
    else
      var (pattern, r1) :- Expect(TString, ts.tail);
      Done(Like(prop, neg, ts.head.typ == TILike, ts.head.raw, pattern), r1)
  }

  function IsNullTail(prop: string, ts: Stream): (r: Parsed<Pred>)
    requires Head(ts).typ == TIs
    ensures r.Done? ==> Size(r.rest) < Size(ts)
  {
    assert Size(ts.tail) < Size(ts);
    var neg := if Peek(ts).typ == TNot then Some(ts.tail.head.raw) else None;
    var (nullKw, rest) :- Expect(TNull, if neg.Some? then ts.tail.tail else ts.tail);
    Done(IsNull(prop, ts.head.raw, neg, nullKw), rest)
  }

  function ParseComparison(o: Options, ts: Stream): (r: Parsed<Pred>)
    ensures r.Done? ==> Size(r.rest) < Size(ts)
  {
    if Head(ts).typ == TIdent then
      var prop, rest := ts.head.raw, ts.tail;
      if prop !in o.allowed then Fail
      else if Head(rest).typ == TNot && Peek(rest).typ in {TLike, TILike, TIn} then
        KeywordTail(o, prop, Some(rest.head.raw), rest.tail)
      else if Head(rest).typ in {TLike, TILike, TIn} then KeywordTail(o, prop, None, rest)
      else if Head(rest).typ == TIs then IsNullTail(prop, rest)
      else ComparisonTail(o, Prop(prop), rest)
    else
      var (l, rest) :- ParseScalar(o, 0, ts);
      ComparisonTail(o, l, rest)
  }

  /** `( geom , geom`, the common start of the spatial and distance predicates. */
  function TwoGeoms(o: Options, ts: Stream): (r: Parsed<(Geom, Geom)>)
    ensures r.Done? ==> Size(r.rest) < Size(ts)
  {
    var (_, r1) :- Expect(TLParen, ts);
    var (g1, r2) :- ParseGeom(o, r1);
    var (_, r3) :- Expect(TComma, r2);
    var (g2, r4) :- ParseGeom(o, r3);
    Done((g1, g2), r4)
  }

  function ParsePred(o: Options, ts: Stream): (r: Parsed<Pred>)
    ensures r.Done? ==> Size(r.rest) < Size(ts)
  {
    if Head(ts).typ == TSpatialOp then
      var (gs, r1) :- TwoGeoms(o, ts.tail);
      var (_, r2) :- Expect(TRParen, r1);
      Done(Spatial(ts.head.raw, gs.0, gs.1), r2)
    else if Head(ts).typ == TDWithin then
      var (gs, r1) :- TwoGeoms(o, ts.tail);
      var (_, r2) :- Expect(TComma, r1);
      var (d, r3) :- Expect(TNumber, r2);
      if !ValidNumber(o, d) then Fail
      else
        var (_, r4) :- Expect(TRParen, r3);
        Done(DWithin(gs.0, gs.1, d), r4)
    else ParseComparison(o, ts)
  }

  // ---------------------------------------------------------------- boolean expressions

  function ParseOr(o: Options, ts: Stream): (r: Parsed<Expr>)
    ensures r.Done? ==> Size(r.rest) < Size(ts)
    decreases Size(ts), 4
  {
    var (l, rest) :- ParseAnd(o, ts);
    OrTail(o, l, rest)
  }

  function OrTail(o: Options, l: Expr, ts: Stream): (r: Parsed<Expr>)
    ensures r.Done? ==> Size(r.rest) <= Size(ts)
    decreases Size(ts), 5
  {
    if Head(ts).typ != TOr then Done(l, ts)
    else
      var (r, rest) :- ParseAnd(o, ts.tail);
      OrTail(o, Or(l, ts.head.raw, r), rest)
  }

  function ParseAnd(o: Options, ts: Stream): (r: Parsed<Expr>)
    ensures r.Done? ==> Size(r.rest) < Size(ts)
    decreases Size(ts), 3
  {
    var (l, rest) :- ParseNot(o, ts);
    AndTail(o, l, rest)
  }

  function AndTail(o: Options, l: Expr, ts: Stream): (r: Parsed<Expr>)
    ensures r.Done? ==> Size(r.rest) <= Size(ts)
    decreases Size(ts), 3
  {
    if Head(ts).typ != TAnd then Done(l, ts)
    else
      var (r, rest) :- ParseNot(o, ts.tail);
      AndTail(o, And(l, ts.head.raw, r), rest)
  }

  function ParseNot(o: Options, ts: Stream): (r: Parsed<Expr>)
    ensures r.Done? ==> Size(r.rest) < Size(ts)
    decreases Size(ts), 2
  {
    if Head(ts).typ == TNot then
      var (e, rest) :- ParseNot(o, ts.tail);
      Done(Not(ts.head.raw, e), rest)
    else ParsePrimary(o, ts)
  }

  function ParsePrimary(o: Options, ts: Stream): (r: Parsed<Expr>)
    ensures r.Done? ==> Size(r.rest) < Size(ts)
    decreases Size(ts), 1
  {
    if Head(ts).typ == TLParen then
      var (inner, r1) :- ParseOr(o, ts.tail);
      var (_, r2) :- Expect(TRParen, r1);
      Done(Paren(inner), r2)
    else
      var (p, rest) :- ParsePred(o, ts);
      Done(Atom(p), rest)
  }

  /** A whole filter: an expression that uses up every token. */
  function ParseFilter(o: Options, ts: Stream): Option<Expr> {
    match ParseOr(o, ts)
    case Done(e, rest) => if rest == End then Some(e) else None
    case Fail => None
  }
}
