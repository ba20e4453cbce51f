/** The reference parser decides the grammar: `ParseFilter` returns a tree exactly when that
    tree is valid and spans the given tokens. Soundness and completeness are proved one
    nonterminal at a time; the completeness lemmas say what the parser does when the tokens
    of a tree are followed by something else. */
module Cql2Exact {
  import opened Base
  import opened Tokens
  import opened Lexing
  import opened Cql2Grammar
  import opened Cql2Parser

  // ---------------------------------------------------------------- canonical tokens

  /** The head of a canonical stream is the one token of its type, where there is just one. */
  lemma {:induction false} HeadIs(ts: Stream)
    requires AllCanonical(ts) && ts.Cons?
    ensures AllCanonical(ts.tail) && Canonical(ts.head)
    ensures Spelling(ts.head.typ).Some? ==> ts.head == Fixed(ts.head.typ)
  {
    hide LooksLikeDate;
  }

  lemma {:induction false} Spelled(t: Typ)
    requires IsArith(t) || IsComparison(t) || IsWktKind(t) || t in {TLParen, TRParen, TComma, TDWithin, TEnvelope}
    ensures Spelling(t).Some?
    ensures Fixed(TLParen) == LPAREN && Fixed(TRParen) == RPAREN && Fixed(TComma) == COMMA
  {
  }

  /** The words whose spelling a canonical token fixes. */
  lemma {:induction false} LeafWords(t: Token)
    requires Canonical(t)
    ensures t.typ == TBool ==> t.raw == "true" || t.raw == "false"
    ensures t.typ == TTemporal ==> t.raw == "NOW" || LooksLikeDate(t.raw)
    ensures t.typ == TTemporal && IsNow(t.raw) ==> t.raw == "NOW"
    ensures t.typ == TSpatialOp ==> t.raw in SpatialNames
  {
    hide Spelling;
  }

  // ---------------------------------------------------------------- scalars

  /** The next token is no operator that would take what precedes it as an operand at level `min`. */
  predicate Stops(min: nat, ts: Stream) {
    IsArith(Head(ts).typ) ==> Precedence(Head(ts).typ) < min
  }

  lemma {:induction false} ScalarSound(o: Options, min: nat, ts: Stream)
    requires AllCanonical(ts) && min <= 30
    requires ParseScalar(o, min, ts).Done?
    ensures var Done(s, rest) := ParseScalar(o, min, ts);
            ValidScalar(o, s) && ts == YieldScalar(s, rest) && ScalarLevel(s) >= min &&
            Stops(min, rest) && AllCanonical(rest)
    decreases Size(ts), 2
  {
    ScalarPrimarySound(o, ts);
    var Done(l, rest) := ParseScalarPrimary(o, ts);
    ScalarTailSound(o, min, l, rest);
  }

  lemma {:induction false} ScalarTailSound(o: Options, min: nat, l: Scalar, ts: Stream)
    requires AllCanonical(ts) && ValidScalar(o, l)
    requires ScalarLevel(l) >= min && Stops(ScalarLevel(l) + 1, ts)
    requires ScalarTail(o, min, l, ts).Done?
    ensures var Done(s, rest) := ScalarTail(o, min, l, ts);
            ValidScalar(o, s) && YieldScalar(l, ts) == YieldScalar(s, rest) && ScalarLevel(s) >= min &&
            Stops(min, rest) && AllCanonical(rest)
    decreases Size(ts), 1
  {
    hide Canonical, Spelling, LooksLikeDate, ParseScalarPrimary;
    var op := Head(ts).typ;
    if IsArith(op) && Precedence(op) >= min {
      HeadIs(ts);
      Spelled(op);
      ScalarSound(o, Precedence(op) + 1, ts.tail);
      var Done(r, rest) := ParseScalar(o, Precedence(op) + 1, ts.tail);
      ScalarTailSound(o, min, Arith(l, op, r), rest);
    }
  }

  lemma {:induction false} ScalarPrimarySound(o: Options, ts: Stream)
    requires AllCanonical(ts)
    requires ParseScalarPrimary(o, ts).Done?
    ensures var Done(s, rest) := ParseScalarPrimary(o, ts);
            ValidScalar(o, s) && ts == YieldScalar(s, rest) && ScalarLevel(s) == 30 && AllCanonical(rest)
    decreases Size(ts), 0
  {
    hide Canonical, Spelling, LooksLikeDate, ScalarTail, IsNow;
    HeadIs(ts);
    LeafWords(ts.head);
    Spelled(TLParen);
    Spelled(TRParen);
    if ts.head.typ == TLParen {
      ScalarSound(o, 0, ts.tail);
      HeadIs(ParseScalar(o, 0, ts.tail).rest);
    } else if ts.head.typ == TTemporal && IsNow(ts.head.raw) && Peek(ts).typ == TLParen {
      HeadIs(ts.tail);
      HeadIs(ts.tail.tail);
    }
  }

  /** Parsing the tokens of s and whatever follows continues as if s had just been read. */
  lemma {:induction false} ScalarComplete(o: Options, min: nat, s: Scalar, follow: Stream)
    requires ValidScalar(o, s) && ScalarLevel(s) >= min
    requires Head(follow).typ != TLParen && Stops(ScalarLevel(s) + 1, follow)
    ensures ParseScalar(o, min, YieldScalar(s, follow)) == ScalarTail(o, min, s, follow)
    decreases s
  {
    hide LooksLikeDate, Size;
    if s.Arith? {
      var more := Cons(Fixed(s.op), YieldScalar(s.right, follow));
      ScalarComplete(o, min, s.left, more);
      ScalarComplete(o, Precedence(s.op) + 1, s.right, follow);
      assert ScalarTail(o, min, s.left, more) == ScalarTail(o, min, s, follow);
    } else if s.Group? {
      ScalarComplete(o, 0, s.inner, Cons(RPAREN, follow));
    } else {
      LeafReads(o, s, follow);
    }
  }

  lemma {:induction false} LeafReads(o: Options, s: Scalar, follow: Stream)
    requires ValidScalar(o, s) && !s.Arith? && !s.Group? && Head(follow).typ != TLParen
    ensures ParseScalarPrimary(o, YieldScalar(s, follow)) == Done(s, follow)
  {
  }

  /** A scalar followed by a token that is neither '(' nor arithmetic parses back to itself. */
  lemma {:induction false} ScalarReads(o: Options, s: Scalar, follow: Stream)
    requires ValidScalar(o, s)
    requires Head(follow).typ != TLParen && !IsArith(Head(follow).typ)
    ensures ParseScalar(o, 0, YieldScalar(s, follow)) == Done(s, follow)
  {
    ScalarComplete(o, 0, s, follow);
  }

  // ---------------------------------------------------------------- geometries

  lemma {:induction false} BodySound(depth: int, ts: Stream)
    requires ts.Cons? && AllCanonical(ts)
    requires ScanBody(depth, ts).Done?
    ensures var Done(body, rest) := ScanBody(depth, ts);
            Balanced(depth, body) && ts == Append(body, rest) && Head(body) == ts.head && AllCanonical(rest)
    decreases ts
  {
    hide Canonical, Size;
    if depth + Nesting(ts.head.typ) != 0 {
      BodySound(depth + Nesting(ts.head.typ), ts.tail);
    }
  }

  lemma {:induction false} BodyComplete(depth: int, body: Stream, follow: Stream)
    requires Balanced(depth, body)
    ensures Append(body, follow).Cons? && ScanBody(depth, Append(body, follow)) == Done(body, follow)
    decreases body
  {
    hide Canonical, Size;
    if depth + Nesting(body.head.typ) != 0 {
      BodyComplete(depth + Nesting(body.head.typ), body.tail, follow);
    }
  }

  lemma {:induction false} EnvelopeSound(o: Options, ts: Stream)
    requires ts.Cons? && ts.head.typ == TEnvelope && AllCanonical(ts) && ParseEnvelope(o, ts.tail).Done?
    ensures var Done(g, rest) := ParseEnvelope(o, ts.tail);
            ValidGeom(o, g) && ts == YieldGeom(g, rest) && AllCanonical(rest)
  {
    hide Canonical, Spelling, Size, ValidNumber, Fixed;
    var r0 := Expect(TLParen, ts.tail).rest;
    HeadIs(ts);
    HeadIs(ts.tail);
    Spelled(TEnvelope);
    Spelled(TLParen);
    Spelled(TComma);
    Spelled(TRParen);
    var r2 := NumberSound(TComma, r0);
    var r4 := NumberSound(TComma, r2);
    var r6 := NumberSound(TComma, r4);
    var r8 := NumberSound(TRParen, r6);
  }

  /** A number and a punctuation mark read from canonical tokens are what YieldNumber writes. */
  lemma {:induction false} NumberSound(punct: Typ, ts: Stream) returns (rest: Stream)
    requires AllCanonical(ts) && Expect(TNumber, ts).Done? && Expect(punct, Expect(TNumber, ts).rest).Done?
    requires Spelling(punct).Some?
    ensures rest == Expect(punct, Expect(TNumber, ts).rest).rest
    ensures ts == YieldNumber(Expect(TNumber, ts).val, Fixed(punct), rest) && AllCanonical(rest)
  {
    hide Canonical, Spelling, Fixed;
    HeadIs(ts);
    HeadIs(ts.tail);
    rest := ts.tail.tail;
  }

  lemma {:induction false} GeomSound(o: Options, ts: Stream)
    requires AllCanonical(ts) && ParseGeom(o, ts).Done?
    ensures var Done(g, rest) := ParseGeom(o, ts);
            ValidGeom(o, g) && ts == YieldGeom(g, rest) && AllCanonical(rest)
  {
    hide Canonical, Spelling, Size, ParseEnvelope, ScanBody, Fixed;
    HeadIs(ts);
    if IsWktKind(ts.head.typ) {
      Spelled(ts.head.typ);
    }
    if ts.head.typ == TEnvelope {
      EnvelopeSound(o, ts);
    } else if IsWktKind(ts.head.typ) {
      BodySound(0, ts.tail);
    }
  }

  lemma {:induction false} NumberComplete(raw: string, punct: Token, rest: Stream)
    ensures Expect(TNumber, YieldNumber(raw, punct, rest)) == Done(raw, Cons(punct, rest))
    ensures Expect(punct.typ, Cons(punct, rest)) == Done(punct.raw, rest)
  {
    hide Size;
  }

  lemma {:induction false} EnvelopeComplete(o: Options, g: Geom, follow: Stream)
    requires g.Envelope? && ValidGeom(o, g)
    ensures ParseEnvelope(o, YieldGeom(g, follow).tail) == Done(g, follow)
  {
    hide Size, Expect, YieldNumber, ValidNumber;
    var r3 := YieldNumber(g.ymax, RPAREN, follow);
    var r2 := YieldNumber(g.xmax, COMMA, r3);
    var r1 := YieldNumber(g.ymin, COMMA, r2);
    var r0 := YieldNumber(g.xmin, COMMA, r1);
    NumberComplete(g.ymax, RPAREN, follow);
    NumberComplete(g.xmax, COMMA, r3);
    NumberComplete(g.ymin, COMMA, r2);
    NumberComplete(g.xmin, COMMA, r1);
    NumberComplete("", LPAREN, r0);
    assert YieldGeom(g, follow).tail == Cons(LPAREN, r0);
  }

  lemma {:induction false} GeomComplete(o: Options, g: Geom, follow: Stream)
    requires ValidGeom(o, g)
    ensures ParseGeom(o, YieldGeom(g, follow)) == Done(g, follow)
  {
    hide Canonical, Size, ScanBody, ParseEnvelope, YieldNumber;
    if g.Wkt? {
      BodyComplete(0, g.body, follow);
    } else if g.Envelope? {
      EnvelopeComplete(o, g, follow);
      assert YieldGeom(g, follow).head.typ == TEnvelope;
    }
  }

  // ---------------------------------------------------------------- predicates

  lemma {:induction false} ItemsSound(o: Options, ts: Stream)
    requires AllCanonical(ts) && ParseItems(o, ts).Done?
    ensures var Done(items, rest) := ParseItems(o, ts);
            ts == YieldItems(items, rest) && AllCanonical(rest) && ValidItems(o, items)
    decreases Size(ts)
  {
    hide Canonical, Spelling;
    HeadIs(ts);
    if Peek(ts).typ == TComma {
      HeadIs(ts.tail);
      Spelled(TComma);
      assert Size(ts.tail.tail) < Size(ts.tail) < Size(ts);
      ItemsSound(o, ts.tail.tail);
    }
  }

  lemma {:induction false} ItemsComplete(o: Options, items: Stream, follow: Stream)
    requires ValidItems(o, items) && Head(follow).typ != TComma
    ensures ParseItems(o, YieldItems(items, follow)) == Done(items, follow)
    decreases items
  {
    if items.tail.Cons? {
      ItemsComplete(o, items.tail, follow);
    }
  }

  lemma {:induction false} ComparisonTailSound(o: Options, l: Scalar, ts: Stream)
    requires AllCanonical(ts) && ValidLeft(o, l) && ComparisonTail(o, l, ts).Done?
    ensures var Done(p, rest) := ComparisonTail(o, l, ts);
            ValidPred(o, p) && YieldScalar(l, ts) == YieldPred(p, rest) && AllCanonical(rest)
  {
    hide ParseScalar, ScalarTail, ParseScalarPrimary, Canonical, Spelling, Size, BetweenTail, LooksLikeDate, Fixed;
    HeadIs(ts);
    if IsComparison(ts.head.typ) {
      Spelled(ts.head.typ);
    }
    if Head(ts).typ == TNot && Peek(ts).typ == TBetween {
      BetweenTailSound(o, l, Some(ts.head.raw), ts.tail);
    } else if Head(ts).typ == TBetween {
      BetweenTailSound(o, l, None, ts);
    } else {
      ScalarSound(o, 0, ts.tail);
    }
  }

  lemma {:induction false} BetweenTailSound(o: Options, l: Scalar, neg: Option<string>, ts: Stream)
    requires ts.Cons? && ts.head.typ == TBetween && AllCanonical(ts)
    requires ValidLeft(o, l) && BetweenTail(o, l, neg, ts).Done?
    ensures var Done(p, rest) := BetweenTail(o, l, neg, ts);
            ValidPred(o, p) && YieldScalar(l, YieldKeyword(TNot, neg, ts)) == YieldPred(p, rest) && AllCanonical(rest)
  {
    hide ParseScalar, ScalarTail, ParseScalarPrimary, Canonical, LooksLikeDate, Size, YieldScalar;
    HeadIs(ts);
    ScalarSound(o, 0, ts.tail);
    HeadIs(ParseScalar(o, 0, ts.tail).rest);
    var Done(a, r1) := ParseScalar(o, 0, ts.tail);
    ScalarSound(o, 0, r1.tail);
  }

  /** What may come after a predicate: the end, a closing parenthesis, AND or OR. */
  predicate EndsPred(ts: Stream) { Head(ts).typ in {TEof, TRParen, TAnd, TOr} }

  lemma {:induction false} BetweenTailComplete(o: Options, p: Pred, follow: Stream)
    requires p.Between? && ValidPred(o, p) && EndsPred(follow)
    ensures ComparisonTail(o, p.left, YieldBetween(p.neg, p.kw, p.low, p.andKw, p.high, follow)) == Done(p, follow)
  {
    hide ParseScalar, ScalarTail, ParseScalarPrimary, LooksLikeDate, Size, ValidScalar, YieldScalar;
    var high := Cons(Token(TAnd, p.andKw), YieldScalar(p.high, follow));
    ScalarReads(o, p.low, high);
    ScalarReads(o, p.high, follow);
    assert BetweenTail(o, p.left, p.neg, Cons(Token(TBetween, p.kw), YieldScalar(p.low, high))) == Done(p, follow);
  }

  lemma {:induction false} PropertyLedSound(o: Options, ts: Stream)
    requires AllCanonical(ts) && Head(ts).typ == TIdent && ParseComparison(o, ts).Done?
    ensures var Done(p, rest) := ParseComparison(o, ts);
            ValidPred(o, p) && ts == YieldPred(p, rest) && AllCanonical(rest)
  {
    hide ParseScalar, ScalarTail, ParseScalarPrimary;
    var prop, rest := ts.head.raw, ts.tail;
    if Head(rest).typ == TNot && Peek(rest).typ in {TLike, TILike, TIn} {
      KeywordTailSound(o, prop, Some(rest.head.raw), rest.tail);
    } else if Head(rest).typ in {TLike, TILike, TIn} {
      KeywordTailSound(o, prop, None, rest);
    } else if Head(rest).typ == TIs {
      assert AllCanonical(rest.tail) && (rest.tail.Cons? ==> AllCanonical(rest.tail.tail));
    } else {
      ComparisonTailSound(o, Prop(prop), rest);
    }
  }

  lemma {:induction false} ComparisonSound(o: Options, ts: Stream)
    requires AllCanonical(ts) && Head(ts).typ != TLParen && ParseComparison(o, ts).Done?
    ensures var Done(p, rest) := ParseComparison(o, ts);
            ValidPred(o, p) && ts == YieldPred(p, rest) && AllCanonical(rest)
  {
    hide ParseScalar, ScalarTail, ParseScalarPrimary;
    if Head(ts).typ == TIdent {
      PropertyLedSound(o, ts);
    } else {
      ScalarSound(o, 0, ts);
      var Done(l, rest) := ParseScalar(o, 0, ts);
      FirstToken(l, rest);
      ComparisonTailSound(o, l, rest);
    }
  }

  lemma {:induction false} InTailSound(o: Options, prop: string, neg: Option<string>, ts: Stream)
    requires AllCanonical(ts) && prop in o.allowed && Head(ts).typ == TIn
    requires KeywordTail(o, prop, neg, ts).Done?
    ensures var Done(p, rest) := KeywordTail(o, prop, neg, ts);
            ValidPred(o, p) && Cons(Token(TIdent, prop), YieldKeyword(TNot, neg, ts)) == YieldPred(p, rest)
              && AllCanonical(rest)
  {
    hide Canonical, Spelling, Size, Fixed, ParseItems, YieldItems, ValidItems;
    HeadIs(ts);
    HeadIs(ts.tail);
    Spelled(TLParen);
    Spelled(TRParen);
    ItemsSound(o, ts.tail.tail);
    HeadIs(ParseItems(o, ts.tail.tail).rest);
  }

  lemma {:induction false} KeywordTailSound(o: Options, prop: string, neg: Option<string>, ts: Stream)
    requires AllCanonical(ts) && prop in o.allowed && Head(ts).typ in {TLike, TILike, TIn}
    requires KeywordTail(o, prop, neg, ts).Done?
    ensures var Done(p, rest) := KeywordTail(o, prop, neg, ts);
            ValidPred(o, p) && Cons(Token(TIdent, prop), YieldKeyword(TNot, neg, ts)) == YieldPred(p, rest)
              && AllCanonical(rest)
  {
    hide Canonical, Spelling, Size, Fixed, ParseItems, YieldItems;
    if ts.head.typ == TIn {
      InTailSound(o, prop, neg, ts);
    } else {
      HeadIs(ts);
      HeadIs(ts.tail);
    }
  }

  /** A scalar starts with the first token of its leftmost operand. */
  lemma {:induction false} FirstToken(s: Scalar, rest: Stream)
    ensures YieldScalar(s, rest).Cons?
    ensures YieldScalar(Leftmost(s), rest).Cons?
    ensures Head(YieldScalar(s, rest)) == Head(YieldScalar(Leftmost(s), rest)) && !Leftmost(s).Arith?
  {
    if s.Arith? {
      FirstToken(s.left, Cons(Fixed(s.op), YieldScalar(s.right, rest)));
    }
  }

  lemma {:induction false} TwoGeomsSound(o: Options, ts: Stream)
    requires AllCanonical(ts) && TwoGeoms(o, ts).Done?
    ensures var Done(gs, rest) := TwoGeoms(o, ts);
            ValidGeom(o, gs.0) && ValidGeom(o, gs.1) && ts == YieldArgs(gs.0, gs.1, rest) && AllCanonical(rest)
  {
    hide Canonical, Spelling, Size, Fixed, ParseGeom, YieldGeom, ValidGeom;
    HeadIs(ts);
    Spelled(TLParen);
    GeomSound(o, ts.tail);
    var Done(g1, r1) := ParseGeom(o, ts.tail);
    HeadIs(r1);
    Spelled(TComma);
    GeomSound(o, r1.tail);
  }

  lemma {:induction false} SpatialSound(o: Options, ts: Stream)
    requires AllCanonical(ts) && Head(ts).typ in {TSpatialOp, TDWithin} && ParsePred(o, ts).Done?
    ensures var Done(p, rest) := ParsePred(o, ts);
            ValidPred(o, p) && ts == YieldPred(p, rest) && AllCanonical(rest)
  {
    hide Canonical, Spelling, Size, Fixed, TwoGeoms, YieldArgs, ValidGeom, ParseComparison;
    HeadIs(ts);
    LeafWords(ts.head);
    TwoGeomsSound(o, ts.tail);
    var rest := TwoGeoms(o, ts.tail).rest;
    HeadIs(rest);
    Spelled(TRParen);
    Spelled(TComma);
    Spelled(TDWithin);
    if Head(ts).typ == TDWithin {
      var end := NumberSound(TRParen, rest.tail);
    }
  }

  lemma {:induction false} PredSound(o: Options, ts: Stream)
    requires AllCanonical(ts) && Head(ts).typ != TLParen && ParsePred(o, ts).Done?
    ensures var Done(p, rest) := ParsePred(o, ts);
            ValidPred(o, p) && ts == YieldPred(p, rest) && AllCanonical(rest)
  {
    hide Canonical, ParseComparison, ValidPred, YieldPred, TwoGeoms, AllCanonical, Size;
    if Head(ts).typ in {TSpatialOp, TDWithin} {
      SpatialSound(o, ts);
    } else {
      ComparisonSound(o, ts);
    }
  }

  lemma {:induction false} TwoGeomsComplete(o: Options, g1: Geom, g2: Geom, follow: Stream)
    requires ValidGeom(o, g1) && ValidGeom(o, g2)
    ensures TwoGeoms(o, YieldArgs(g1, g2, follow)) == Done((g1, g2), follow)
  {
    hide ParseGeom, YieldGeom, ValidGeom, Size;
    GeomComplete(o, g1, Cons(COMMA, YieldGeom(g2, follow)));
    GeomComplete(o, g2, follow);
  }

  lemma {:induction false} SpatialComplete(o: Options, p: Pred, follow: Stream)
    requires ValidPred(o, p) && (p.Spatial? || p.DWithin?)
    ensures ParsePred(o, YieldPred(p, follow)) == Done(p, follow)
  {
    hide TwoGeoms, YieldArgs, ValidGeom, Size, ParseComparison;
    if p.Spatial? {
      TwoGeomsComplete(o, p.g1, p.g2, Cons(RPAREN, follow));
    } else {
      var tail := YieldNumber(p.distance, RPAREN, follow);
      TwoGeomsComplete(o, p.d1, p.d2, Cons(COMMA, tail));
      NumberComplete(p.distance, RPAREN, follow);
      assert ParsePred(o, Cons(Fixed(TDWithin), YieldArgs(p.d1, p.d2, Cons(COMMA, tail)))) == Done(p, follow);
    }
  }

  lemma {:induction false} PropertyLedComplete(o: Options, p: Pred, follow: Stream)
    requires ValidPred(o, p) && (p.Like? || p.IsNull?)
    ensures ParsePred(o, YieldPred(p, follow)) == Done(p, follow)
  {
    hide ParseScalar, ScalarTail, ParseScalarPrimary, ParseItems, ComparisonTail, ParseGeom,
      ParseEnvelope, ScanBody, Size;
  }

  lemma {:induction false} InListComplete(o: Options, p: Pred, follow: Stream)
    requires ValidPred(o, p) && p.InList?
    ensures ParsePred(o, YieldPred(p, follow)) == Done(p, follow)
  {
    hide ParseScalar, ScalarTail, ParseScalarPrimary, ComparisonTail, ParseItems, ValidItems,
      YieldItems, Size, TwoGeoms, IsNullTail;
    ItemsComplete(o, p.items, Cons(RPAREN, follow));
  }

  /** Once the tokens after the left side are known to complete p, so are all of its tokens. */
  lemma {:induction false} LeftComplete(o: Options, l: Scalar, tail: Stream, p: Pred, follow: Stream)
    requires ValidLeft(o, l) && ComparisonTail(o, l, tail) == Done(p, follow)
    ensures ParsePred(o, YieldScalar(l, tail)) == Done(p, follow)
    ensures Head(YieldScalar(l, tail)).typ !in {TLParen, TNot}
  {
    hide ParseScalar, ScalarTail, ParseScalarPrimary, ComparisonTail, BetweenTail, KeywordTail, IsNullTail,
      ParseGeom, ParseEnvelope, ScanBody, ParseItems, Expect, Size, LooksLikeDate;
    TailHead(o, l, tail);
    FirstToken(l, tail);
    if l.Prop? {
      assert YieldScalar(l, tail) == Cons(Token(TIdent, l.name), tail);
    } else {
      LeftmostValid(o, l);
      ScalarReads(o, l, tail);
    }
  }

  lemma TailHead(o: Options, l: Scalar, tail: Stream)
    requires ComparisonTail(o, l, tail).Done?
    ensures Head(tail).typ in {TNot, TBetween, TEq, TNeq, TLt, TGt, TLte, TGte}
    ensures Head(tail).typ == TNot ==> Peek(tail).typ == TBetween
  {
    hide ParseScalar, BetweenTail;
  }

  lemma {:induction false} ComparisonComplete(o: Options, p: Pred, follow: Stream)
    requires ValidPred(o, p) && (p.Compare? || p.Between?) && EndsPred(follow)
    ensures ParsePred(o, YieldPred(p, follow)) == Done(p, follow)
    ensures Head(YieldPred(p, follow)).typ !in {TLParen, TNot}
  {
    if p.Compare? {
      ScalarReads(o, p.right, follow);
      LeftComplete(o, p.left, Cons(Fixed(p.op), YieldScalar(p.right, follow)), p, follow);
    } else {
      BetweenTailComplete(o, p, follow);
      LeftComplete(o, p.left, YieldBetween(p.neg, p.kw, p.low, p.andKw, p.high, follow), p, follow);
    }
  }

  lemma {:induction false} LeftmostValid(o: Options, s: Scalar)
    requires ValidScalar(o, s)
    ensures ValidScalar(o, Leftmost(s)) && !Leftmost(s).Arith?
  {
    if s.Arith? {
      LeftmostValid(o, s.left);
    }
  }

  lemma {:induction false} PredComplete(o: Options, p: Pred, follow: Stream)
    requires ValidPred(o, p) && EndsPred(follow)
    ensures ParsePred(o, YieldPred(p, follow)) == Done(p, follow)
    ensures Head(YieldPred(p, follow)).typ !in {TLParen, TNot}
  {
    match p {
      case Spatial(_, _, _) => SpatialComplete(o, p, follow);
      case DWithin(_, _, _) => SpatialComplete(o, p, follow);
      case Compare(_, _, _) => ComparisonComplete(o, p, follow);
      case Between(_, _, _, _, _, _) => ComparisonComplete(o, p, follow);
      case InList(_, _, _, _) => InListComplete(o, p, follow);
      case _ => PropertyLedComplete(o, p, follow);
    }
  }

  // ---------------------------------------------------------------- boolean expressions

  lemma {:induction false} OrSound(o: Options, ts: Stream)
    requires AllCanonical(ts) && ParseOr(o, ts).Done?
    ensures var Done(e, rest) := ParseOr(o, ts);
            ValidExpr(o, e) && ts == YieldExpr(e, rest) && AllCanonical(rest)
    decreases Size(ts), 4
  {
    AndSound(o, ts);
    var Done(l, rest) := ParseAnd(o, ts);
    OrTailSound(o, l, rest);
  }

  lemma {:induction false} OrTailSound(o: Options, l: Expr, ts: Stream)
    requires AllCanonical(ts) && ValidExpr(o, l) && OrTail(o, l, ts).Done?
    ensures var Done(e, rest) := OrTail(o, l, ts);
            ValidExpr(o, e) && YieldExpr(l, ts) == YieldExpr(e, rest) && AllCanonical(rest)
    decreases Size(ts), 5
  {
    if Head(ts).typ == TOr {
      AndSound(o, ts.tail);
      var Done(r, rest) := ParseAnd(o, ts.tail);
      OrTailSound(o, Or(l, ts.head.raw, r), rest);
    }
  }

  lemma {:induction false} AndSound(o: Options, ts: Stream)
    requires AllCanonical(ts) && ParseAnd(o, ts).Done?
    ensures var Done(e, rest) := ParseAnd(o, ts);
            ValidExpr(o, e) && Level(e) >= 1 && ts == YieldExpr(e, rest) && AllCanonical(rest)
    decreases Size(ts), 3
  {
    NotSound(o, ts);
    var Done(l, rest) := ParseNot(o, ts);
    AndTailSound(o, l, rest);
  }

  lemma {:induction false} AndTailSound(o: Options, l: Expr, ts: Stream)
    requires AllCanonical(ts) && ValidExpr(o, l) && Level(l) >= 1 && AndTail(o, l, ts).Done?
    ensures var Done(e, rest) := AndTail(o, l, ts);
            ValidExpr(o, e) && Level(e) >= 1 && YieldExpr(l, ts) == YieldExpr(e, rest) && AllCanonical(rest)
    decreases Size(ts), 3
  {
    if Head(ts).typ == TAnd {
      NotSound(o, ts.tail);
      var Done(r, rest) := ParseNot(o, ts.tail);
      AndTailSound(o, And(l, ts.head.raw, r), rest);
    }
  }

  lemma {:induction false} NotSound(o: Options, ts: Stream)
    requires AllCanonical(ts) && ParseNot(o, ts).Done?
    ensures var Done(e, rest) := ParseNot(o, ts);
            ValidExpr(o, e) && Level(e) >= 2 && ts == YieldExpr(e, rest) && AllCanonical(rest)
    decreases Size(ts), 2
  {
    hide Canonical, Spelling, ParsePred, ValidPred, YieldPred, ParseAnd, OrTail;
    HeadIs(ts);
    Spelled(TLParen);
    Spelled(TRParen);
    if Head(ts).typ == TNot {
      NotSound(o, ts.tail);
    } else if Head(ts).typ == TLParen {
      OrSound(o, ts.tail);
      HeadIs(ParseOr(o, ts.tail).rest);
    } else {
      PredSound(o, ts);
    }
  }

  lemma {:induction false} OrComplete(o: Options, e: Expr, follow: Stream)
    requires ValidExpr(o, e) && EndsPred(follow) && Head(follow).typ != TAnd
    ensures ParseOr(o, YieldExpr(e, follow)) == OrTail(o, e, follow)
    decreases e, 2
  {
    hide ParseNot, ValidPred, YieldPred, Size;
    if e.Or? {
      OrComplete(o, e.left, Cons(Token(TOr, e.kw), YieldExpr(e.right, follow)));
      AndComplete(o, e.right, follow);
    } else {
      AndComplete(o, e, follow);
    }
  }

  lemma {:induction false} AndComplete(o: Options, e: Expr, follow: Stream)
    requires ValidExpr(o, e) && Level(e) >= 1 && EndsPred(follow)
    ensures ParseAnd(o, YieldExpr(e, follow)) == AndTail(o, e, follow)
    decreases e, 1
  {
    hide ParsePrimary, ValidPred, YieldPred, Size;
    if e.And? {
      AndComplete(o, e.left, Cons(Token(TAnd, e.kw), YieldExpr(e.right, follow)));
      NotComplete(o, e.right, follow);
    } else {
      NotComplete(o, e, follow);
    }
  }

  lemma {:induction false} NotComplete(o: Options, e: Expr, follow: Stream)
    requires ValidExpr(o, e) && Level(e) >= 2 && EndsPred(follow)
    ensures ParseNot(o, YieldExpr(e, follow)) == Done(e, follow)
    decreases e, 0
  {
    match e {
      case Not(kw, arg) => NotComplete(o, arg, follow);
      case Paren(inner) => OrComplete(o, inner, Cons(RPAREN, follow));
      case Atom(p) => PredComplete(o, p, follow);
    }
  }

  // ---------------------------------------------------------------- the theorem

  /** The grammar is recognised exactly and is unambiguous: a token sequence parses to a tree
      if and only if the tree is valid and spans the sequence. */
  lemma {:induction false} GrammarExact(o: Options, ts: Stream, e: Expr)
    requires AllCanonical(ts)
    ensures ParseFilter(o, ts) == Some(e) <==> ValidExpr(o, e) && Yield(e) == ts
  {
    if ParseFilter(o, ts) == Some(e) {
      OrSound(o, ts);
    }
    if ValidExpr(o, e) && Yield(e) == ts {
      OrComplete(o, e, End);
    }
  }
}
