/** Temporal selection: the CQL2 text a time dimension adds to a filter, and what it selects. */
module Temporal {
  import opened Base
  import opened Tokens
  import opened Lexing
  import opened LexerConcat
  import opened OpenQuotes
  import opened LexerFacts
  import opened Cql2Grammar
  import opened Cql2Parser
  import opened Cql2Exact
  import opened SqlText
  import opened Emission
  import opened Refinement
  import opened SqlReading
  import opened FilterSql
  import opened FilterMeaning
  import opened FilterTheorems

  // ---------------------------------------------------------------- moments and their text

  /** A UTC time with a four-digit year. */
  datatype Moment = Moment(year: nat, month: nat, day: nat, hour: nat, minute: nat, second: nat, nano: nat) {
    predicate Valid() {
      year < 10000 && month < 100 && day < 100 && hour < 100 && minute < 100 && second < 100 && nano < 1000000000
    }
  }

  function Two(n: nat): string
    requires n < 100
  {
    [DigitChar(n / 10), DigitChar(n % 10)]
  }

  function Date(m: Moment): string
    requires m.Valid()
  {
    Two(m.year / 100) + Two(m.year % 100) + "-" + Two(m.month) + "-" + Two(m.day)
  }

  /** The decimal places of `n`, most significant first, without trailing zeros. */
  function Places(n: nat, k: nat): (s: string)
    ensures AllDigits(s)
    decreases k
  {
    if k == 0 then "" else if n % 10 == 0 then Places(n / 10, k - 1) else Digits(n, k)
  }

  function Digits(n: nat, k: nat): (s: string)
    ensures AllDigits(s)
    decreases k
  {
    if k == 0 then "" else Digits(n / 10, k - 1) + [DigitChar(n % 10)]
  }

  function Fraction(nano: nat): string { if nano == 0 then "" else "." + Places(nano, 9) }

  /** time.RFC3339Nano in UTC. */
  function Stamp(m: Moment): string
    requires m.Valid()
  {
    Date(m) + "T" + Two(m.hour) + ":" + Two(m.minute) + ":" + Two(m.second) + Fraction(m.nano) + "Z"
  }

  predicate TemporalText(s: string) { forall i :: 0 <= i < |s| ==> IsTemporalChar(s[i]) }

  lemma {:induction false} StampIsTemporal(m: Moment)
    requires m.Valid()
    ensures LooksLikeDate(Stamp(m)) && TemporalText(Stamp(m)) && Has(Stamp(m), 'Z')
  {
    hide Places;
    var d := Date(m);
    assert LooksLikeDate(d) && TemporalText(d);
    var clock := "T" + Two(m.hour) + ":" + Two(m.minute) + ":" + Two(m.second);
    assert TemporalText(clock) && TemporalText(Fraction(m.nano)) && TemporalText("Z");
    var s := Stamp(m);
    assert s == d + clock + Fraction(m.nano) + "Z";
    assert s[..10] == d;
    assert forall i :: 0 <= i < 10 ==> s[i] == d[i];
    assert s[|s| - 1] == 'Z';
  }

  // ---------------------------------------------------------------- DateTimeFilter.CQL2

  datatype DateTimeFilter = DateTimeFilter(
    sourceProperty: string, endProperty: string, start: Option<Moment>, end: Option<Moment>, instant: bool)
  {
    predicate ValidTimes() { (start.Some? ==> start.value.Valid()) && (end.Some? ==> end.value.Valid()) }

    /** The endpoints the code dereferences are there. */
    predicate Callable() {
      IsBlank(sourceProperty) || endProperty != "" || if instant then start.Some? else start.Some? || end.Some?
    }

    /** An instant is the interval from a moment to itself, and some endpoint is given. */
    predicate Selects() { (start.Some? || end.Some?) && (instant ==> start.Some? && start == end) }
  }

  // The shapes of the format strings.

  function Quoted2(name: string): string { Quote(name, '"') }

  function Cmp(property: string, sign: string, stamp: string): string { property + " " + sign + " " + stamp }

  function NullText(property: string): string { property + " IS NULL" }

  function Joined(a: string, kw: string, b: string): string { a + " " + kw + " " + b }

  function Parens(a: string): string { "(" + a + ")" }

  function StartMatch(source: string, endProperty: string, stamp: string): string {
    Parens(Joined(Cmp(endProperty, ">=", stamp), "OR",
      Parens(Joined(NullText(endProperty), "AND", Cmp(source, ">=", stamp)))))
  }

  function Match(f: DateTimeFilter): string
    requires f.ValidTimes() && f.Callable() && !IsBlank(f.sourceProperty)
  {
    var source, endProperty := Quoted2(f.sourceProperty), Quoted2(f.endProperty);
    if f.endProperty == "" then
      if f.instant then Cmp(source, "=", Stamp(f.start.value))
      else if f.start.Some? && f.end.Some? then
        Joined(Cmp(source, ">=", Stamp(f.start.value)), "AND", Cmp(source, "<=", Stamp(f.end.value)))
      else if f.start.Some? then Cmp(source, ">=", Stamp(f.start.value))
      else Cmp(source, "<=", Stamp(f.end.value))
    else
      var startMatch := if f.start.Some? then StartMatch(source, endProperty, Stamp(f.start.value)) else "";
      var endMatch := if f.end.Some? then Cmp(source, "<=", Stamp(f.end.value)) else "";
      if startMatch != "" && endMatch != "" then Joined(endMatch, "AND", startMatch)
      else if startMatch != "" then startMatch
      else endMatch
  }

  function CQL2(f: Option<DateTimeFilter>): string
    requires f.Some? ==> f.value.ValidTimes() && f.value.Callable()
  {
    if f.None? || IsBlank(f.value.sourceProperty) then ""
    else Parens(Joined(NullText(Quoted2(f.value.sourceProperty)), "OR", Parens(Match(f.value))))
  }

  /** QueryParams.WithDateTimeFilter, on the filter text. */
  function WithDateTimeFilter(filter: string, f: Option<DateTimeFilter>): string
    requires f.Some? ==> f.value.ValidTimes() && f.value.Callable()
  {
    var temporal := CQL2(f);
    if temporal == "" then filter
    else if IsBlank(filter) then temporal
    else Joined(Parens(filter), "AND", Parens(temporal))
  }

  // ---------------------------------------------------------------- the expression the text stands for

  function Test(name: string, op: Typ, m: Moment): Expr
    requires m.Valid()
  {
    Atom(Compare(Prop(name), op, Instant(Stamp(m))))
  }

  function NullTest(name: string): Expr { Atom(IsNull(name, "IS", None, "NULL")) }

  function StartExpr(source: string, endProperty: string, start: Moment): Expr
    requires start.Valid()
  {
    Paren(Or(Test(endProperty, TGte, start), "OR", Paren(And(NullTest(endProperty), "AND", Test(source, TGte, start)))))
  }

  function MatchExpr(f: DateTimeFilter): Expr
    requires f.ValidTimes() && f.Selects()
  {
    var s := f.sourceProperty;
    if f.endProperty == "" then
      if f.instant then Test(s, TEq, f.start.value)
      else if f.start.Some? && f.end.Some? then And(Test(s, TGte, f.start.value), "AND", Test(s, TLte, f.end.value))
      else if f.start.Some? then Test(s, TGte, f.start.value)
      else Test(s, TLte, f.end.value)
    else if f.start.Some? && f.end.Some? then
      And(Test(s, TLte, f.end.value), "AND", StartExpr(s, f.endProperty, f.start.value))
    else if f.start.Some? then StartExpr(s, f.endProperty, f.start.value)
    else Test(s, TLte, f.end.value)
  }

  function TemporalExpr(f: DateTimeFilter): Expr
    requires f.ValidTimes() && f.Selects()
  {
    Paren(Or(NullTest(f.sourceProperty), "OR", Paren(MatchExpr(f))))
  }

  /** The text of such an expression. */
  function Print(e: Expr): string {
    match e
    case Atom(IsNull(name, _, _, _)) => NullText(Quoted2(name))
    case Atom(Compare(Prop(name), op, Instant(raw))) => Cmp(Quoted2(name), Fixed(op).raw, raw)
    case Paren(inner) => Parens(Print(inner))
    case And(l, kw, r) => Joined(Print(l), kw, Print(r))
    case Or(l, kw, r) => Joined(Print(l), kw, Print(r))
    case _ => ""
  }

  predicate Printable(e: Expr) {
    match e
    case Atom(IsNull(_, isKw, neg, nullKw)) => isKw == "IS" && neg.None? && nullKw == "NULL"
    case Atom(Compare(Prop(_), op, Instant(raw))) => op in {TEq, TLte, TGte} && LooksLikeDate(raw) && TemporalText(raw)
    case Paren(inner) => Printable(inner)
    case And(l, kw, r) => kw == "AND" && Printable(l) && Printable(r)
    case Or(l, kw, r) => kw == "OR" && Printable(l) && Printable(r)
    case _ => false
  }

  /** A printed expression lexes to its own tokens. */
  lemma {:induction false} PrintLexes(e: Expr, u: string)
    requires Printable(e) && Breaks(u)
    ensures Lex(Print(e) + u, 0) == YieldExpr(e, Lex(u, 0))
    decreases e
  {
    hide Lex, LooksLikeDate, TemporalText, Quote, Joined, Parens, Cmp, NullText;
    match e {
      case Atom(IsNull(name, _, _, _)) => NullTestLexes(name, u);
      case Atom(Compare(Prop(name), op, Instant(raw))) => TestLexes(name, op, raw, u);
      case Paren(inner) =>
        PrintLexes(inner, ")" + u);
        ParensLex(Print(inner), u);
      case And(l, kw, r) =>
        PrintLexes(r, u);
        PrintLexes(l, " " + kw + " " + (Print(r) + u));
        ConnectiveLexes(Print(l), kw, TAnd, Print(r), u);
      case Or(l, kw, r) =>
        PrintLexes(r, u);
        PrintLexes(l, " " + kw + " " + (Print(r) + u));
        ConnectiveLexes(Print(l), kw, TOr, Print(r), u);
    }
  }

  lemma {:induction false} ParensLex(a: string, u: string)
    ensures Parens(a) + u == "(" + (a + (")" + u))
    ensures Lex(Parens(a) + u, 0) == Cons(LPAREN, Lex(a + (")" + u), 0))
    ensures Lex(")" + u, 0) == Cons(RPAREN, Lex(u, 0))
  {
    hide Lex;
    LexParen('(', a + (")" + u));
    LexParen(')', u);
  }

  lemma {:induction false} ConnectiveLexes(a: string, kw: string, typ: Typ, b: string, u: string)
    requires (kw == "AND" && typ == TAnd) || (kw == "OR" && typ == TOr)
    ensures Joined(a, kw, b) + u == a + (" " + kw + " " + (b + u))
    ensures Lex(" " + kw + " " + (b + u), 0) == Cons(Token(typ, kw), Lex(b + u, 0))
  {
    hide Lex;
    WordLexes(kw, typ, b + u);
  }

  lemma {:induction false} WordLexes(kw: string, typ: Typ, u: string)
    requires (kw == "AND" && typ == TAnd) || (kw == "OR" && typ == TOr) || (kw == "IS" && typ == TIs)
    ensures Lex(" " + kw + " " + u, 0) == Cons(Token(typ, kw), Lex(u, 0))
  {
    hide Lex;
    assert " " + kw + " " + u == " " + (kw + (" " + u));
    LexSpace(kw + (" " + u));
    LexWord(kw, typ, " " + u);
    LexSpace(u);
  }

  lemma {:induction false} NullTestLexes(name: string, u: string)
    requires Breaks(u)
    ensures Lex(NullText(Quoted2(name)) + u, 0) == YieldExpr(NullTest(name), Lex(u, 0))
  {
    hide Lex, Quote;
    var rest := " " + "IS" + " " + ("NULL" + u);
    assert NullText(Quoted2(name)) + u == Quote(name, '"') + rest;
    QuotingRoundTrips(name, '"', rest);
    WordLexes("IS", TIs, "NULL" + u);
    LexWord("NULL", TNull, u);
  }

  lemma {:induction false} TestLexes(name: string, op: Typ, raw: string, u: string)
    requires op in {TEq, TLte, TGte} && LooksLikeDate(raw) && TemporalText(raw) && Breaks(u)
    ensures Lex(Cmp(Quoted2(name), Fixed(op).raw, raw) + u, 0) ==
            YieldExpr(Atom(Compare(Prop(name), op, Instant(raw))), Lex(u, 0))
  {
    hide Lex, Quote, LooksLikeDate;
    var sign := Fixed(op).raw;
    var rest := " " + (sign + (" " + (raw + u)));
    assert Cmp(Quoted2(name), sign, raw) + u == Quote(name, '"') + rest;
    QuotingRoundTrips(name, '"', rest);
    LexSpace(sign + (" " + (raw + u)));
    LexComparison(op, raw + u);
    LexInstant(raw, u);
  }

  /** The temporal text is the printed temporal expression. */
  lemma {:induction false} CQL2Prints(f: DateTimeFilter)
    requires f.ValidTimes() && f.Selects() && !IsBlank(f.sourceProperty)
    ensures CQL2(Some(f)) == Print(TemporalExpr(f)) && Printable(TemporalExpr(f))
  {
    hide Stamp, Quote, LooksLikeDate, TemporalText, IsBlank, MatchExpr, Match;
    MatchPrints(f);
    var either := Or(NullTest(f.sourceProperty), "OR", Paren(MatchExpr(f)));
    assert Print(Paren(MatchExpr(f))) == Parens(Match(f)) && Printable(Paren(MatchExpr(f)));
    assert Print(either) == Joined(NullText(Quoted2(f.sourceProperty)), "OR", Parens(Match(f))) && Printable(either);
  }

  lemma {:induction false} MatchPrints(f: DateTimeFilter)
    requires f.ValidTimes() && f.Selects() && !IsBlank(f.sourceProperty)
    ensures Match(f) == Print(MatchExpr(f)) && Printable(MatchExpr(f))
  {
    hide Stamp, Quote, LooksLikeDate, TemporalText, IsBlank, StartExpr, StartMatch, Joined;
    ShortFixed();
    if f.start.Some? {
      StampIsTemporal(f.start.value);
      StartPrints(f.sourceProperty, f.endProperty, f.start.value);
    }
    if f.end.Some? {
      StampIsTemporal(f.end.value);
    }
  }

  lemma {:induction false} StartPrints(source: string, endProperty: string, start: Moment)
    requires start.Valid()
    ensures StartMatch(Quoted2(source), Quoted2(endProperty), Stamp(start)) ==
            Print(StartExpr(source, endProperty, start))
    ensures Printable(StartExpr(source, endProperty, start)) && Print(StartExpr(source, endProperty, start)) != ""
  {
    hide Stamp, Quote, LooksLikeDate, TemporalText, Joined, Cmp, NullText;
    StampIsTemporal(start);
    ShortFixed();
    var first, second := Test(endProperty, TGte, start), Test(source, TGte, start);
    var both := And(NullTest(endProperty), "AND", second);
    assert Printable(first) && Printable(second) && Printable(both) && Printable(Paren(both));
    assert Print(both) == Joined(NullText(Quoted2(endProperty)), "AND", Print(second));
    assert Print(Paren(both)) == Parens(Joined(NullText(Quoted2(endProperty)), "AND", Print(second)));
    assert Print(Or(first, "OR", Paren(both))) == Joined(Print(first), "OR", Print(Paren(both)));
  }

  lemma {:induction false} ShortFixed()
    ensures Fixed(TGte).raw == ">=" && Fixed(TLte).raw == "<=" && Fixed(TEq).raw == "="
  {
  }

  // ---------------------------------------------------------------- the combined filter

  predicate Allowed(o: Options, f: DateTimeFilter) {
    f.sourceProperty in o.allowed && (f.endProperty != "" ==> f.endProperty in o.allowed)
  }

  lemma {:induction false} TemporalValid(o: Options, f: DateTimeFilter)
    requires f.ValidTimes() && f.Selects() && Allowed(o, f)
    ensures ValidExpr(o, TemporalExpr(f))
  {
    hide Stamp, LooksLikeDate;
    if f.start.Some? {
      StampIsTemporal(f.start.value);
      StartValid(o, f.sourceProperty, f.endProperty, f.start.value);
    }
    if f.end.Some? {
      StampIsTemporal(f.end.value);
    }
    assert ValidExpr(o, MatchExpr(f));
    assert ValidExpr(o, Paren(MatchExpr(f))) && ValidExpr(o, NullTest(f.sourceProperty));
  }

  lemma {:induction false} StartValid(o: Options, source: string, endProperty: string, start: Moment)
    requires start.Valid() && source in o.allowed
    ensures endProperty in o.allowed ==> ValidExpr(o, StartExpr(source, endProperty, start))
  {
    hide Stamp, LooksLikeDate;
    StampIsTemporal(start);
    if endProperty in o.allowed {
      var both := And(NullTest(endProperty), "AND", Test(source, TGte, start));
      assert ValidExpr(o, both) && ValidExpr(o, Paren(both)) && ValidExpr(o, Test(endProperty, TGte, start));
    }
  }

  // No valid tree ends in an invalid token, so a filter with an open quote is never accepted.

  lemma {:induction false} ConsEnds(t: Token, rest: Stream)
    requires t.typ != TInvalid && !EndsInvalid(rest)
    ensures !EndsInvalid(Cons(t, rest))
  {
  }

  lemma {:induction false} NumberEnds(raw: string, punct: Token, rest: Stream)
    requires punct.typ != TInvalid && !EndsInvalid(rest)
    ensures !EndsInvalid(YieldNumber(raw, punct, rest))
  {
    ConsEnds(punct, rest);
    ConsEnds(Token(TNumber, raw), Cons(punct, rest));
  }

  lemma {:induction false} ScalarEnds(o: Options, s: Scalar, rest: Stream)
    requires ValidScalar(o, s) && !EndsInvalid(rest)
    ensures !EndsInvalid(YieldScalar(s, rest))
    decreases s
  {
    match s {
      case Group(inner) => ScalarEnds(o, inner, Cons(RPAREN, rest));
      case Arith(l, op, r) =>
        ScalarEnds(o, r, rest);
        ScalarEnds(o, l, Cons(Fixed(op), YieldScalar(r, rest)));
      case Now =>
        ConsEnds(RPAREN, rest);
        ConsEnds(LPAREN, Cons(RPAREN, rest));
      case _ =>
    }
  }

  lemma {:induction false} BodyEnds(depth: int, body: Stream, rest: Stream)
    requires Balanced(depth, body) && depth >= 0 && !EndsInvalid(rest)
    requires depth > 0 || body.head.typ == TLParen
    ensures !EndsInvalid(Append(body, rest))
    decreases body
  {
    var d := depth + Nesting(body.head.typ);
    if d > 0 {
      BodyEnds(d, body.tail, rest);
    } else {
      assert body.head.typ == TRParen && Append(body.tail, rest) == rest;
    }
  }

  lemma {:induction false} GeomEnds(o: Options, g: Geom, rest: Stream)
    requires ValidGeom(o, g) && !EndsInvalid(rest)
    ensures !EndsInvalid(YieldGeom(g, rest))
  {
    match g {
      case Wkt(kind, body) => BodyEnds(0, body, rest);
      case Envelope(a, b, c, d) =>
        var r1 := YieldNumber(c, COMMA, YieldNumber(d, RPAREN, rest));
        NumberEnds(d, RPAREN, rest);
        NumberEnds(c, COMMA, YieldNumber(d, RPAREN, rest));
        NumberEnds(b, COMMA, r1);
        NumberEnds(a, COMMA, YieldNumber(b, COMMA, r1));
        ConsEnds(LPAREN, YieldNumber(a, COMMA, YieldNumber(b, COMMA, r1)));
      case _ =>
    }
  }

  lemma {:induction false} ItemsEnd(o: Options, items: Stream, rest: Stream)
    requires ValidItems(o, items) && !EndsInvalid(rest)
    ensures !EndsInvalid(YieldItems(items, rest))
    decreases items
  {
    if items.tail.Cons? {
      ItemsEnd(o, items.tail, rest);
    }
  }

  lemma {:induction false} PredEnds(o: Options, p: Pred, rest: Stream)
    requires ValidPred(o, p) && !EndsInvalid(rest)
    ensures !EndsInvalid(YieldPred(p, rest))
  {
    hide YieldScalar, YieldGeom, ValidScalar, ValidGeom, ValidItems;
    match p {
      case Spatial(_, g1, g2) =>
        GeomEnds(o, g2, Cons(RPAREN, rest));
        GeomEnds(o, g1, Cons(COMMA, YieldGeom(g2, Cons(RPAREN, rest))));
      case DWithin(g1, g2, d) =>
        var r1 := Cons(COMMA, YieldNumber(d, RPAREN, rest));
        NumberEnds(d, RPAREN, rest);
        GeomEnds(o, g2, r1);
        GeomEnds(o, g1, Cons(COMMA, YieldGeom(g2, r1)));
      case Like(_, neg, ci, kw, pattern) =>
        var r1 := Cons(Token(TString, pattern), rest);
        assert !EndsInvalid(r1) && !EndsInvalid(Cons(Token(if ci then TILike else TLike, kw), r1));
      case IsNull(_, isKw, neg, nullKw) =>
        var r2 := YieldKeyword(TNot, neg, Cons(Token(TNull, nullKw), rest));
        assert !EndsInvalid(Cons(Token(TNull, nullKw), rest)) && !EndsInvalid(r2);
      case InList(_, neg, kw, items) =>
        ItemsEnd(o, items, Cons(RPAREN, rest));
        var r1 := YieldItems(items, Cons(RPAREN, rest));
        assert !EndsInvalid(Cons(LPAREN, r1)) && !EndsInvalid(Cons(Token(TIn, kw), Cons(LPAREN, r1)));
      case Compare(l, op, r) =>
        ScalarEnds(o, r, rest);
        ScalarEnds(o, l, Cons(Fixed(op), YieldScalar(r, rest)));
      case Between(l, neg, kw, a, andKw, b) =>
        ScalarEnds(o, b, rest);
        var r1 := Cons(Token(TAnd, andKw), YieldScalar(b, rest));
        ScalarEnds(o, a, r1);
        assert !EndsInvalid(Cons(Token(TBetween, kw), YieldScalar(a, r1)));
        ScalarEnds(o, l, YieldBetween(neg, kw, a, andKw, b, rest));
    }
  }

  lemma {:induction false} ExprEnds(o: Options, e: Expr, rest: Stream)
    requires ValidExpr(o, e) && !EndsInvalid(rest)
    ensures !EndsInvalid(YieldExpr(e, rest))
    decreases e
  {
    hide YieldPred, ValidPred;
    match e {
      case Atom(p) => PredEnds(o, p, rest);
      case Paren(inner) => ExprEnds(o, inner, Cons(RPAREN, rest));
      case Not(_, arg) => ExprEnds(o, arg, rest);
      case And(l, kw, r) =>
        ExprEnds(o, r, rest);
        ExprEnds(o, l, Cons(Token(TAnd, kw), YieldExpr(r, rest)));
      case Or(l, kw, r) =>
        ExprEnds(o, r, rest);
        ExprEnds(o, l, Cons(Token(TOr, kw), YieldExpr(r, rest)));
    }
  }

  // Following tokens can be put after a tree one by one or all at once.

  lemma {:induction false} AppendCancels(a: Stream, b: Stream, c: Stream)
    requires Append(a, c) == Append(b, c)
    ensures a == b
    decreases a
  {
    SizeAppend(a, c);
    SizeAppend(b, c);
    if a.Cons? && b.Cons? {
      AppendCancels(a.tail, b.tail, c);
    }
  }

  lemma {:induction false} SizeAppend(a: Stream, b: Stream)
    ensures Size(Append(a, b)) == Size(a) + Size(b)
    decreases a
  {
    if a.Cons? {
      SizeAppend(a.tail, b);
    }
  }

  lemma {:induction false} ScalarFlat(s: Scalar, a: Stream, b: Stream)
    ensures YieldScalar(s, Append(a, b)) == Append(YieldScalar(s, a), b)
    decreases s
  {
    match s {
      case Group(inner) => ScalarFlat(inner, Cons(RPAREN, a), b);
      case Arith(l, op, r) =>
        ScalarFlat(r, a, b);
        ScalarFlat(l, Cons(Fixed(op), YieldScalar(r, a)), b);
      case Now =>
        assert Append(Cons(RPAREN, a), b) == Cons(RPAREN, Append(a, b));
      case _ =>
    }
  }

  lemma {:induction false} NumberFlat(raw: string, punct: Token, a: Stream, b: Stream)
    ensures YieldNumber(raw, punct, Append(a, b)) == Append(YieldNumber(raw, punct, a), b)
  {
    assert Append(Cons(punct, a), b) == Cons(punct, Append(a, b));
  }

  lemma {:induction false} GeomFlat(g: Geom, a: Stream, b: Stream)
    ensures YieldGeom(g, Append(a, b)) == Append(YieldGeom(g, a), b)
  {
    match g {
      case Wkt(kind, body) => AppendAssoc(body, a, b);
      case Envelope(x1, y1, x2, y2) =>
        var r3 := YieldNumber(y2, RPAREN, a);
        var r2 := YieldNumber(x2, COMMA, r3);
        var r1 := YieldNumber(y1, COMMA, r2);
        NumberFlat(y2, RPAREN, a, b);
        NumberFlat(x2, COMMA, r3, b);
        NumberFlat(y1, COMMA, r2, b);
        NumberFlat(x1, COMMA, r1, b);
        assert Append(Cons(LPAREN, YieldNumber(x1, COMMA, r1)), b) ==
          Cons(LPAREN, Append(YieldNumber(x1, COMMA, r1), b));
      case _ =>
    }
  }

  lemma {:induction false} ItemsFlat(items: Stream, a: Stream, b: Stream)
    ensures YieldItems(items, Append(a, b)) == Append(YieldItems(items, a), b)
    decreases items
  {
    if items.Cons? && items.tail.Cons? {
      ItemsFlat(items.tail, a, b);
      assert Append(Cons(COMMA, YieldItems(items.tail, a)), b) == Cons(COMMA, Append(YieldItems(items.tail, a), b));
    }
  }

  lemma {:induction false} KeywordFlat(t: Typ, kw: Option<string>, a: Stream, b: Stream)
    ensures YieldKeyword(t, kw, Append(a, b)) == Append(YieldKeyword(t, kw, a), b)
  {
  }

  lemma {:induction false} ConsFlat(t: Token, a: Stream, b: Stream)
    ensures Cons(t, Append(a, b)) == Append(Cons(t, a), b)
  {
  }

  lemma {:induction false} ArgsFlat(g1: Geom, g2: Geom, a: Stream, b: Stream)
    ensures YieldArgs(g1, g2, Append(a, b)) == Append(YieldArgs(g1, g2, a), b)
  {
    hide YieldGeom;
    GeomFlat(g2, a, b);
    ConsFlat(COMMA, YieldGeom(g2, a), b);
    GeomFlat(g1, Cons(COMMA, YieldGeom(g2, a)), b);
  }

  lemma {:induction false} PredFlat(p: Pred, a: Stream, b: Stream)
    ensures YieldPred(p, Append(a, b)) == Append(YieldPred(p, a), b)
  {
    hide YieldScalar, YieldGeom, YieldItems, YieldArgs, YieldKeyword, Append, YieldNumber;
    match p {
      case Spatial(fn, g1, g2) =>
        ConsFlat(RPAREN, a, b);
        ArgsFlat(g1, g2, Cons(RPAREN, a), b);
        ConsFlat(Token(TSpatialOp, fn), YieldArgs(g1, g2, Cons(RPAREN, a)), b);
      case DWithin(g1, g2, d) =>
        NumberFlat(d, RPAREN, a, b);
        var r1 := Cons(COMMA, YieldNumber(d, RPAREN, a));
        ConsFlat(COMMA, YieldNumber(d, RPAREN, a), b);
        ArgsFlat(g1, g2, r1, b);
        ConsFlat(Fixed(TDWithin), YieldArgs(g1, g2, r1), b);
      case Like(prop, neg, ci, kw, pattern) =>
        TestFlat(prop, neg, Token(if ci then TILike else TLike, kw), Cons(Token(TString, pattern), a), b);
        ConsFlat(Token(TString, pattern), a, b);
      case IsNull(prop, isKw, neg, nullKw) =>
        ConsFlat(Token(TNull, nullKw), a, b);
        KeywordFlat(TNot, neg, Cons(Token(TNull, nullKw), a), b);
        var r2 := YieldKeyword(TNot, neg, Cons(Token(TNull, nullKw), a));
        ConsFlat(Token(TIs, isKw), r2, b);
        ConsFlat(Token(TIdent, prop), Cons(Token(TIs, isKw), r2), b);
      case InList(prop, neg, kw, items) =>
        ConsFlat(RPAREN, a, b);
        ItemsFlat(items, Cons(RPAREN, a), b);
        ConsFlat(LPAREN, YieldItems(items, Cons(RPAREN, a)), b);
        TestFlat(prop, neg, Token(TIn, kw), Cons(LPAREN, YieldItems(items, Cons(RPAREN, a))), b);
      case Compare(l, op, r) =>
        ScalarFlat(r, a, b);
        ConsFlat(Fixed(op), YieldScalar(r, a), b);
        ScalarFlat(l, Cons(Fixed(op), YieldScalar(r, a)), b);
      case Between(l, neg, kw, low, andKw, high) =>
        ScalarFlat(high, a, b);
        var r1 := Cons(Token(TAnd, andKw), YieldScalar(high, a));
        ConsFlat(Token(TAnd, andKw), YieldScalar(high, a), b);
        ScalarFlat(low, r1, b);
        ConsFlat(Token(TBetween, kw), YieldScalar(low, r1), b);
        KeywordFlat(TNot, neg, Cons(Token(TBetween, kw), YieldScalar(low, r1)), b);
        ScalarFlat(l, YieldBetween(neg, kw, low, andKw, high, a), b);
    }
  }

  lemma {:induction false} TestFlat(prop: string, neg: Option<string>, kw: Token, a: Stream, b: Stream)
    ensures Cons(Token(TIdent, prop), YieldKeyword(TNot, neg, Cons(kw, Append(a, b)))) ==
            Append(Cons(Token(TIdent, prop), YieldKeyword(TNot, neg, Cons(kw, a))), b)
  {
    ConsFlat(kw, a, b);
    KeywordFlat(TNot, neg, Cons(kw, a), b);
    ConsFlat(Token(TIdent, prop), YieldKeyword(TNot, neg, Cons(kw, a)), b);
  }

  lemma {:induction false} ExprFlat(e: Expr, a: Stream, b: Stream)
    ensures YieldExpr(e, Append(a, b)) == Append(YieldExpr(e, a), b)
    decreases e
  {
    hide YieldPred;
    match e {
      case Atom(p) => PredFlat(p, a, b);
      case Paren(inner) => ExprFlat(inner, Cons(RPAREN, a), b);
      case Not(_, arg) => ExprFlat(arg, a, b);
      case And(l, kw, r) =>
        ExprFlat(r, a, b);
        ExprFlat(l, Cons(Token(TAnd, kw), YieldExpr(r, a)), b);
      case Or(l, kw, r) =>
        ExprFlat(r, a, b);
        ExprFlat(l, Cons(Token(TOr, kw), YieldExpr(r, a)), b);
    }
  }

  // ---------------------------------------------------------------- the combined filter is a conjunction

  function Combined(e: Expr, f: DateTimeFilter): Expr
    requires f.ValidTimes() && f.Selects()
  {
    And(Paren(e), "AND", Paren(TemporalExpr(f)))
  }

  /** The tokens of a combined filter: those of the filter between parentheses, then the temporal part. */
  lemma {:induction false} CombinedLexes(filter: string, f: DateTimeFilter)
    requires f.ValidTimes() && f.Selects() && !IsBlank(f.sourceProperty) && !IsBlank(filter)
    requires !LeavesOpen(filter, 0)
    ensures var temporal := Cons(Token(TAnd, "AND"), YieldExpr(Paren(TemporalExpr(f)), End));
            Lex(WithDateTimeFilter(filter, Some(f)), 0) == Cons(LPAREN, Append(Lex(filter, 0), Cons(RPAREN, temporal)))
  {
    hide Lex, Parens, Joined, Print, Printable, TemporalExpr, IsBlank, Match;
    CQL2Prints(f);
    var t := Paren(TemporalExpr(f));
    assert Print(t) == Parens(CQL2(Some(f))) && Printable(t) by { PrintOfParen(TemporalExpr(f)); }
    PrintLexes(t, "");
    ConnectiveLexes(Parens(filter), "AND", TAnd, Print(t), "");
    var tail := " " + "AND" + " " + (Print(t) + "");
    ParensLex(filter, tail);
    LexClosed(filter, ")" + tail, 0);
    assert Lex("", 0) == End by { LexEmpty(); }
    assert CQL2(Some(f)) != "" by { TemporalNotEmpty(f); }
    assert WithDateTimeFilter(filter, Some(f)) == Joined(Parens(filter), "AND", Print(t)) + "";
  }

  lemma {:induction false} PrintOfParen(e: Expr)
    ensures Print(Paren(e)) == Parens(Print(e)) && Printable(Paren(e)) == Printable(e)
  {
  }

  lemma {:induction false} LexEmpty()
    ensures Lex("", 0) == End
  {
  }

  lemma {:induction false} TemporalNotEmpty(f: DateTimeFilter)
    requires f.ValidTimes() && f.Callable() && !IsBlank(f.sourceProperty)
    ensures CQL2(Some(f)) != "" && CQL2(Some(f))[0] == '('
  {
    hide Match, IsBlank, Joined, NullText;
  }

  /** A filter and a temporal selection compile to their conjunction exactly when the filter is
      accepted on its own; `e` is then the filter's own tree. This holds for every filter text. */
  lemma {:induction false} CombinedParsesIff(o: Options, filter: string, f: DateTimeFilter, e: Expr)
    requires f.ValidTimes() && f.Selects() && !IsBlank(f.sourceProperty) && Allowed(o, f) && !IsBlank(filter)
    ensures ParseFilter(o, Lex(WithDateTimeFilter(filter, Some(f)), 0)) == Some(Combined(e, f)) <==>
            ParseFilter(o, Lex(filter, 0)) == Some(e)
  {
    hide ParseFilter, Lex, IsBlank, WithDateTimeFilter, TemporalExpr, Combined;
    if LeavesOpen(filter, 0) {
      OpenFilterRefused(o, filter, f);
    } else {
      ClosedParsesIff(o, filter, f, e);
    }
  }

  lemma {:induction false} ClosedParsesIff(o: Options, filter: string, f: DateTimeFilter, e: Expr)
    requires f.ValidTimes() && f.Selects() && !IsBlank(f.sourceProperty) && Allowed(o, f) && !IsBlank(filter)
    requires !LeavesOpen(filter, 0)
    ensures ParseFilter(o, Lex(WithDateTimeFilter(filter, Some(f)), 0)) == Some(Combined(e, f)) <==>
            ParseFilter(o, Lex(filter, 0)) == Some(e)
  {
    hide ParseFilter, Lex, IsBlank, WithDateTimeFilter, TemporalExpr, Canonical, LeavesOpen;
    var all := WithDateTimeFilter(filter, Some(f));
    var temporal := Cons(Token(TAnd, "AND"), YieldExpr(Paren(TemporalExpr(f)), End));
    var follow := Cons(RPAREN, temporal);
    CombinedLexes(filter, f);
    LexCanonical(all, 0);
    LexCanonical(filter, 0);
    GrammarExact(o, Lex(all, 0), Combined(e, f));
    GrammarExact(o, Lex(filter, 0), e);
    TemporalValid(o, f);
    ExprFlat(e, End, follow);
    assert YieldExpr(e, follow) == Append(Yield(e), follow);
    assert Yield(Combined(e, f)) == Cons(LPAREN, YieldExpr(e, follow)) by { YieldOfCombined(e, TemporalExpr(f)); }
    assert ValidExpr(o, Combined(e, f)) == ValidExpr(o, e) by { CombinedValid(o, e, TemporalExpr(f)); }
    if Append(Lex(filter, 0), follow) == Append(Yield(e), follow) {
      AppendCancels(Lex(filter, 0), Yield(e), follow);
    }
  }

  /** The text that WithDateTimeFilter puts behind a filter. */
  function TemporalTail(f: DateTimeFilter): string
    requires f.ValidTimes() && f.Callable()
  {
    ")" + (" " + "AND" + " " + (Parens(CQL2(Some(f))) + ""))
  }

  lemma {:induction false} CombinedText(filter: string, f: DateTimeFilter)
    requires f.ValidTimes() && f.Callable() && !IsBlank(f.sourceProperty) && !IsBlank(filter)
    ensures WithDateTimeFilter(filter, Some(f)) == "(" + filter + TemporalTail(f)
  {
    hide CQL2, IsBlank;
    TemporalNotEmpty(f);
  }

  /** The temporal text opens no quote that it does not close. */
  lemma {:induction false} TemporalCloses(f: DateTimeFilter)
    requires f.ValidTimes() && f.Selects() && !IsBlank(f.sourceProperty)
    ensures !LeavesOpen(TemporalTail(f), 0)
  {
    hide Lex, Parens, Joined, Print, Printable, TemporalExpr, IsBlank, Match, LeavesOpen, EndsInvalid;
    CQL2Prints(f);
    var t := Paren(TemporalExpr(f));
    PrintOfParen(TemporalExpr(f));
    PrintLexes(t, "");
    LexEmpty();
    var and := Cons(Token(TAnd, "AND"), YieldExpr(t, End));
    WordLexes("AND", TAnd, Print(t) + "");
    LexParen(')', " " + "AND" + " " + (Print(t) + ""));
    var o := Options(0, 0, {f.sourceProperty, f.endProperty}, "", _ => None);
    TemporalValid(o, f);
    assert !EndsInvalid(End) by { EndsWell(); }
    ExprEnds(o, t, End);
    ConsEnds(Token(TAnd, "AND"), YieldExpr(t, End));
    ConsEnds(RPAREN, and);
    assert Lex(TemporalTail(f), 0) == Cons(RPAREN, and);
    if LeavesOpen(TemporalTail(f), 0) {
      OpenEndsInvalid(TemporalTail(f), 0);
    }
  }

  lemma {:induction false} EndsWell()
    ensures !EndsInvalid(End)
  {
  }

  /** A filter with an open quote is refused alone, and no temporal text can close its quote. */
  lemma {:induction false} OpenFilterRefused(o: Options, filter: string, f: DateTimeFilter)
    requires f.ValidTimes() && f.Selects() && !IsBlank(f.sourceProperty) && !IsBlank(filter) && LeavesOpen(filter, 0)
    ensures ParseFilter(o, Lex(filter, 0)).None?
    ensures ParseFilter(o, Lex(WithDateTimeFilter(filter, Some(f)), 0)).None?
  {
    hide ParseFilter, Lex, IsBlank, WithDateTimeFilter, LeavesOpen, TemporalTail;
    OpenIsRefused(o, filter);
    CombinedText(filter, f);
    TemporalCloses(f);
    ParenOpen(filter);
    OpenStaysOpen("(" + filter, TemporalTail(f));
    OpenIsRefused(o, "(" + filter + TemporalTail(f));
  }

  lemma {:induction false} ParenOpen(filter: string)
    ensures LeavesOpen("(" + filter, 0) == LeavesOpen(filter, 0)
  {
    hide LeavesOpen;
    assert filter[0..] == filter && ("(" + filter)[0..] == "(" + filter && ("(" + filter)[1..] == filter;
    LeavesOpenIff(filter, 0);
    LeavesOpenIff("(" + filter, 0);
  }

  lemma {:induction false} OpenIsRefused(o: Options, filter: string)
    requires LeavesOpen(filter, 0)
    ensures ParseFilter(o, Lex(filter, 0)).None?
  {
    hide ParseFilter, Lex, LeavesOpen;
    if ParseFilter(o, Lex(filter, 0)).Some? {
      AcceptedIsClosed(o, filter, ParseFilter(o, Lex(filter, 0)).value);
    }
  }

  lemma {:induction false} YieldOfCombined(e: Expr, t: Expr)
    ensures Yield(And(Paren(e), "AND", Paren(t))) ==
            Cons(LPAREN, YieldExpr(e, Cons(RPAREN, Cons(Token(TAnd, "AND"), YieldExpr(Paren(t), End)))))
  {
    var follow := Cons(Token(TAnd, "AND"), YieldExpr(Paren(t), End));
    assert YieldExpr(Paren(e), follow) == Cons(LPAREN, YieldExpr(e, Cons(RPAREN, follow)));
  }

  lemma {:induction false} CombinedValid(o: Options, e: Expr, t: Expr)
    requires ValidExpr(o, t)
    ensures ValidExpr(o, And(Paren(e), "AND", Paren(t))) == ValidExpr(o, e)
  {
    assert ValidExpr(o, Paren(e)) == ValidExpr(o, e) && ValidExpr(o, Paren(t));
  }

  /** An accepted filter has no open quote. */
  lemma {:induction false} AcceptedIsClosed(o: Options, filter: string, e: Expr)
    requires ParseFilter(o, Lex(filter, 0)) == Some(e)
    ensures !LeavesOpen(filter, 0) && ValidExpr(o, e)
  {
    hide ParseFilter, Lex, LeavesOpen, ValidExpr;
    LexCanonical(filter, 0);
    GrammarExact(o, Lex(filter, 0), e);
    EndsWell();
    ExprEnds(o, e, End);
    if LeavesOpen(filter, 0) {
      OpenEndsInvalid(filter, 0);
    }
  }

  /** The text `"a" IS NULL) OR ("b" IS NULL`. */
  function Unbalanced(): string { NullText(Quoted2("a")) + ") OR (" + NullText(Quoted2("b")) }

  /** A filter that is refused alone need not be refused when combined: this filter closes the parenthesis the
      code opens, and its first disjunct escapes the temporal selection. */
  lemma {:induction false} UnbalancedFilterEscapes(o: Options, f: DateTimeFilter)
    requires f.ValidTimes() && f.Selects() && !IsBlank(f.sourceProperty) && Allowed(o, f) && {"a", "b"} <= o.allowed
    ensures ParseFilter(o, Lex(Unbalanced(), 0)).None?
    ensures ParseFilter(o, Lex(WithDateTimeFilter(Unbalanced(), Some(f)), 0)) ==
            Some(Or(Paren(NullTest("a")), "OR", Combined(NullTest("b"), f)))
  {
    hide ParseFilter, Lex, IsBlank, TemporalExpr, Canonical, Match, Print, Printable, Joined, Parens, Unbalanced;
    var a, b := NullTest("a"), NullTest("b");
    var t := Paren(TemporalExpr(f));
    var e := Or(Paren(a), "OR", Combined(b, f));
    CQL2Prints(f);
    TemporalNotEmpty(f);
    EscapeText(TemporalExpr(f));
    NotBlank();
    assert WithDateTimeFilter(Unbalanced(), Some(f)) == Print(e) + "";
    assert Printable(e) by { EscapePrintable(TemporalExpr(f)); }
    PrintLexes(e, "");
    LexEmpty();
    LexCanonical(Print(e) + "", 0);
    TemporalValid(o, f);
    EscapeValid(o, TemporalExpr(f));
    GrammarExact(o, Lex(Print(e) + "", 0), e);
    EscapeRejected(o);
  }

  lemma {:induction false} EscapePrintable(t: Expr)
    requires Printable(t)
    ensures Printable(Or(Paren(NullTest("a")), "OR", And(Paren(NullTest("b")), "AND", Paren(t))))
  {
    assert Printable(NullTest("a")) && Printable(NullTest("b")) && Printable(Paren(t));
    assert Printable(Paren(NullTest("a"))) && Printable(And(Paren(NullTest("b")), "AND", Paren(t)));
  }

  lemma {:induction false} EscapeValid(o: Options, t: Expr)
    requires ValidExpr(o, t) && {"a", "b"} <= o.allowed
    ensures ValidExpr(o, Or(Paren(NullTest("a")), "OR", And(Paren(NullTest("b")), "AND", Paren(t))))
  {
    var both := And(Paren(NullTest("b")), "AND", Paren(t));
    assert "a" in o.allowed && "b" in o.allowed;
    assert ValidExpr(o, NullTest("a")) && ValidExpr(o, NullTest("b"));
    CombinedValid(o, NullTest("b"), t);
    assert ValidExpr(o, Paren(NullTest("a"))) && Level(both) == 1;
  }

  lemma {:induction false} NotBlank()
    ensures !IsBlank(Unbalanced())
  {
    hide Doubled;
    assert Unbalanced()[0] == '"';
  }

  lemma {:induction false} EscapeText(t: Expr)
    ensures Print(Or(Paren(NullTest("a")), "OR", And(Paren(NullTest("b")), "AND", Paren(t)))) ==
            Joined(Parens(Unbalanced()), "AND", Parens(Print(t)))
  {
    hide Quote, NullText, Joined, Parens;
    var a, b := NullText(Quoted2("a")), NullText(Quoted2("b"));
    var both := And(Paren(NullTest("b")), "AND", Paren(t));
    assert Print(Paren(NullTest("a"))) == Parens(a) && Print(Paren(NullTest("b"))) == Parens(b)
      && Print(Paren(t)) == Parens(Print(t));
    assert Print(both) == Joined(Parens(b), "AND", Parens(Print(t)));
    Regroup(a, b, Parens(Print(t)));
  }

  lemma {:induction false} Regroup(a: string, b: string, t: string)
    ensures Joined(Parens(a), "OR", Joined(Parens(b), "AND", t)) == Joined(Parens(a + ") OR (" + b), "AND", t)
  {
  }

  lemma {:induction false} EscapeRejected(o: Options)
    requires "a" in o.allowed
    ensures ParseFilter(o, Lex(Unbalanced(), 0)).None?
  {
    hide Lex, Quote, NullText;
    var more := " OR (" + NullText(Quoted2("b"));
    assert Unbalanced() == NullText(Quoted2("a")) + ([')'] + more);
    NullTestLexes("a", [')'] + more);
    LexParen(')', more);
    OrComplete(o, NullTest("a"), Lex([')'] + more, 0));
  }

  // ---------------------------------------------------------------- what the temporal part selects

  /** A timestamp or nothing: what the columns of a time dimension hold. */
  predicate Timely(v: Value) { v.VTime? || v.VNull? }

  /** Timestamps compare as the moments `at` says they are; a missing one compares as unknown. Nothing
      is said about any other value. */
  ghost predicate Clock(w: World, at: Value -> int) {
    forall a: Value, b: Value :: Timely(a) && Timely(b) ==>
      && w.compare("=", a, b) == (if a.VNull? || b.VNull? then Unknown else if at(a) == at(b) then Yes else No)
      && w.compare("<=", a, b) == (if a.VNull? || b.VNull? then Unknown else if at(a) <= at(b) then Yes else No)
      && w.compare(">=", a, b) == (if a.VNull? || b.VNull? then Unknown else if at(a) >= at(b) then Yes else No)
  }

  /** Any clock fits any database that compares everything else as it likes. */
  lemma {:induction false} ClockFitsAnyDatabase(w: World, at: Value -> int) returns (w': World)
    ensures Clock(w', at)
    ensures forall op, a, b :: !Timely(a) || !Timely(b) ==> w'.compare(op, a, b) == w.compare(op, a, b)
  {
    w' := w.(compare := (op, a, b) =>
      if !Timely(a) || !Timely(b) then w.compare(op, a, b)
      else if a.VNull? || b.VNull? then Unknown
      else if (op == "=" && at(a) == at(b)) || (op == "<=" && at(a) <= at(b)) || (op == ">=" && at(a) >= at(b)) then Yes
      else No);
  }

  /** The row's time columns hold times. */
  predicate TimelyRow(row: Row, f: DateTimeFilter) {
    Timely(row(f.sourceProperty)) && (f.endProperty != "" ==> Timely(row(f.endProperty)))
  }

  function Bound(m: Moment): Value
    requires m.Valid()
  {
    VTime(true, Stamp(m))
  }

  /** A feature's interval ends at its end value, or at its start when there is none. */
  function EndOf(row: Row, f: DateTimeFilter): Value {
    if f.endProperty == "" || row(f.endProperty).VNull? then row(f.sourceProperty) else row(f.endProperty)
  }

  /** The feature has no start, or its interval meets the selected one; a missing endpoint is open. */
  ghost predicate InTime(at: Value -> int, row: Row, f: DateTimeFilter)
    requires f.ValidTimes()
  {
    || row(f.sourceProperty).VNull?
    || (&& (f.end.Some? ==> at(row(f.sourceProperty)) <= at(Bound(f.end.value)))
        && (f.start.Some? ==> at(EndOf(row, f)) >= at(Bound(f.start.value))))
  }

  lemma {:induction false} TestHolds(w: World, o: Options, row: Row, name: string, op: Typ, m: Moment)
    requires m.Valid() && op in {TEq, TLte, TGte}
    ensures Holds(w, o, row, Test(name, op, m)) == w.compare(Fixed(op).raw, row(name), Bound(m))
  {
    hide Stamp;
    StampIsTemporal(m);
  }

  lemma {:induction false} StartHolds(w: World, at: Value -> int, o: Options, row: Row, f: DateTimeFilter)
    requires Clock(w, at) && TimelyRow(row, f) && f.ValidTimes() && f.start.Some?
             && f.endProperty != "" && !row(f.sourceProperty).VNull?
    ensures Holds(w, o, row, StartExpr(f.sourceProperty, f.endProperty, f.start.value)) == Yes <==>
            at(EndOf(row, f)) >= at(Bound(f.start.value))
  {
    hide Stamp, Bound;
    var m := f.start.value;
    var late, early := Test(f.endProperty, TGte, m), Test(f.sourceProperty, TGte, m);
    ShortFixed();
    TestHolds(w, o, row, f.endProperty, TGte, m);
    TestHolds(w, o, row, f.sourceProperty, TGte, m);
    BoundThere(m);
    var both := And(NullTest(f.endProperty), "AND", early);
    assert Holds(w, o, row, Paren(both)) == Holds(w, o, row, both) ==
           And3(if row(f.endProperty).VNull? then Yes else No, Holds(w, o, row, early));
    assert Holds(w, o, row, Or(late, "OR", Paren(both))) == Or3(Holds(w, o, row, late), Holds(w, o, row, Paren(both)));
  }

  lemma {:induction false} BoundThere(m: Moment)
    requires m.Valid()
    ensures Bound(m).VTime?
  {
  }

  /** The temporal expression is true of exactly the features in the selected time. */
  lemma {:induction false} TemporalHolds(w: World, at: Value -> int, o: Options, row: Row, f: DateTimeFilter)
    requires Clock(w, at) && TimelyRow(row, f) && f.ValidTimes() && f.Selects()
    ensures Holds(w, o, row, TemporalExpr(f)) == Yes <==> InTime(at, row, f)
  {
    hide Stamp, Bound, StartExpr;
    ShortFixed();
    var s := f.sourceProperty;
    if f.start.Some? {
      BoundThere(f.start.value);
      TestHolds(w, o, row, s, TGte, f.start.value);
      TestHolds(w, o, row, s, TEq, f.start.value);
      if f.endProperty != "" && !row(s).VNull? {
        StartHolds(w, at, o, row, f);
      }
    }
    if f.end.Some? {
      BoundThere(f.end.value);
      TestHolds(w, o, row, s, TLte, f.end.value);
    }
    assert Holds(w, o, row, TemporalExpr(f)) ==
           Or3(if row(s).VNull? then Yes else No, Holds(w, o, row, MatchExpr(f)))
             by { EitherHolds(w, o, row, s, MatchExpr(f)); }
  }

  lemma {:induction false} EitherHolds(w: World, o: Options, row: Row, s: string, e: Expr)
    ensures Holds(w, o, row, Paren(Or(NullTest(s), "OR", Paren(e)))) ==
            Or3(if row(s).VNull? then Yes else No, Holds(w, o, row, e))
  {
    var either := Or(NullTest(s), "OR", Paren(e));
    assert Holds(w, o, row, Paren(e)) == Holds(w, o, row, e);
    assert Holds(w, o, row, either) == Or3(Holds(w, o, row, NullTest(s)), Holds(w, o, row, Paren(e)));
  }

  /** The tree of an accepted filter; a blank filter selects every row. */
  ghost predicate Passes(w: World, o: Options, row: Row, filter: string) {
    IsBlank(filter) ||
    (ParseFilter(o, Lex(filter, 0)).Some? && Holds(w, o, row, ParseFilter(o, Lex(filter, 0)).value) == Yes)
  }

  /** Main result: any accepted filter together with any temporal selection compiles, and the SQL is
      true of exactly the rows that pass the filter and lie in the selected time. */
  lemma {:induction false} TemporalSelection(t: Target, n: nat, filter: string, f: DateTimeFilter,
                                             w: World, at: Value -> int, row: Row, bind: nat -> Value) returns (q: Sql)
    requires f.ValidTimes() && f.Selects() && !IsBlank(f.sourceProperty) && Allowed(t.opt, f)
    requires IsBlank(filter) || ParseFilter(t.opt, Lex(filter, 0)).Some?
    requires TrustedGeometry(t) && GeometryDenotes(w, row, bind, t) && Clock(w, at) && TimelyRow(row, f)
    requires var all := CompileFilter(t, n, WithDateTimeFilter(filter, Some(f)));
             all.Accepted? ==> Binds(bind, n, all.args)
    ensures var all := CompileFilter(t, n, WithDateTimeFilter(filter, Some(f)));
            all.Accepted? && ReadSql(SqlText.Text(all.sql)) == Some(q)
    ensures SqlValue(w, row, bind, q) == VBool(true) <==> Passes(w, t.opt, row, filter) && InTime(at, row, f)
  {
    hide WithDateTimeFilter, TrustedGeometry, GeometryDenotes, Clock, Passes, InTime, Binds, SqlValue, Holds,
       ReadSql, Emit, Args, CompileFilter, ParseFilter, Lex, IsBlank, ValidExpr, Yield;
    var all := WithDateTimeFilter(filter, Some(f));
    var e := CombinedTree(t.opt, filter, f, w, at, row);
    ParsedIsAccepted(t, n, all);
    var e';
    e', q := CompilePreservesMeaning(t, n, all, w, row, bind);
    LexCanonical(all, 0);
    GrammarExact(t.opt, Lex(all, 0), e');
  }

  lemma {:induction false} ParsedIsAccepted(t: Target, n: nat, cql: string)
    requires !IsBlank(cql) && ParseFilter(t.opt, Lex(cql, 0)).Some?
    ensures CompileFilter(t, n, cql).Accepted?
  {
    hide Emit, Args, ParseFilter, Lex, IsBlank;
  }

  lemma {:induction false} CombinedTree(o: Options, filter: string, f: DateTimeFilter,
      w: World, at: Value -> int, row: Row) returns (e: Expr)
    requires f.ValidTimes() && f.Selects() && !IsBlank(f.sourceProperty) && Allowed(o, f)
    requires IsBlank(filter) || ParseFilter(o, Lex(filter, 0)).Some?
    requires Clock(w, at) && TimelyRow(row, f)
    ensures var all := WithDateTimeFilter(filter, Some(f)); !IsBlank(all) && ParseFilter(o, Lex(all, 0)) == Some(e)
    ensures Holds(w, o, row, e) == Yes <==> Passes(w, o, row, filter) && InTime(at, row, f)
  {
    hide ParseFilter, Lex, TemporalExpr, Canonical, Match, Print, Printable, Clock, InTime;
    TemporalHolds(w, at, o, row, f);
    TemporalNotEmpty(f);
    CQL2Prints(f);
    if IsBlank(filter) {
      e := TemporalExpr(f);
      assert CQL2(Some(f)) == Print(e) + "";
      PrintLexes(e, "");
      LexEmpty();
      TemporalValid(o, f);
      LexCanonical(CQL2(Some(f)), 0);
      GrammarExact(o, Lex(CQL2(Some(f)), 0), e);
    } else {
      var own := ParseFilter(o, Lex(filter, 0)).value;
      AcceptedIsClosed(o, filter, own);
      e := Combined(own, f);
      CombinedParsesIff(o, filter, f, own);
      assert Holds(w, o, row, e) == And3(Holds(w, o, row, own), Holds(w, o, row, TemporalExpr(f)))
        by { BothHold(w, o, row, own, TemporalExpr(f)); }
    }
  }

  lemma {:induction false} BothHold(w: World, o: Options, row: Row, a: Expr, b: Expr)
    ensures Holds(w, o, row, And(Paren(a), "AND", Paren(b))) == And3(Holds(w, o, row, a), Holds(w, o, row, b))
  {
    assert Holds(w, o, row, Paren(a)) == Holds(w, o, row, a) && Holds(w, o, row, Paren(b)) == Holds(w, o, row, b);
  }
}
