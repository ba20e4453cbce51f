/** A whole WHERE clause: what the database reads when feature ids, boxes and filters are appended
    in any order. */
module ClauseReading {
  import opened Base
  import opened Lexing
  import opened SqlText
  import opened Emission
  import opened Cql2Grammar
  import opened Cql2Parser
  import opened Cql2Exact
  import opened LexerFacts
  import opened SqlReading
  import opened SqlFidelity
  import opened SqlLexing
  import opened FilterSql
  import opened Placeholders
  import opened QueryClauses

  // ---------------------------------------------------------------- lists of placeholders

  function ToksBinds(n: nat, k: nat, rest: Toks): Toks
    decreases k
  {
    if k == 0 then rest
    else Tok(SParam(n), if k == 1 then rest else Tok(SComma, ToksBinds(n + 1, k - 1, rest)))
  }

  function TreeBinds(n: nat, k: nat): SqlList
    decreases k
  {
    if k == 0 then SqlNil else SqlCons(QBind(n), TreeBinds(n + 1, k - 1))
  }

  lemma {:induction false} BindsSnoc(n: nat, k: nat, rest: Toks)
    requires k > 0
    ensures ToksBinds(n, k, Tok(SComma, Tok(SParam(n + k), rest))) == ToksBinds(n, k + 1, rest)
    decreases k
  {
    if k > 1 {
      BindsSnoc(n + 1, k - 1, rest);
    }
  }

  lemma {:induction false} MarkersStrip(n: nat, k: nat, rest: Toks)
    ensures Strip(Markers(n, k), rest) == ToksBinds(n, k, rest)
    decreases k
  {
    hide Strip;
    if k == 0 {
      StripNone(rest);
    } else if k == 1 {
      assert [] + [Param(n)] == [Param(n)];
      Strip1(Param(n), rest);
    } else {
      var before, last := Markers(n, k - 1), [Param(n + k - 1)];
      StripConcat(before + [Comma, Sp], last, rest);
      StripConcat(before, [Comma, Sp], Tok(SParam(n + k - 1), rest));
      Strip1(Param(n + k - 1), rest);
      Strip2(Comma, Sp, Tok(SParam(n + k - 1), rest));
      MarkersStrip(n, k - 1, Tok(SComma, Tok(SParam(n + k - 1), rest)));
      BindsSnoc(n, k - 1, rest);
    }
  }

  lemma {:induction false} StripNone(rest: Toks)
    ensures Strip([], rest) == rest
  {
  }

  lemma {:induction false} BindsRead(n: nat, k: nat, rest: Toks)
    requires k > 0
    ensures ReadArgs(ToksBinds(n, k, Tok(SRp, rest))) == Got(TreeBinds(n, k), rest)
    decreases k
  {
    hide ReadArgs, ReadArg;
    var ts := ToksBinds(n, k, Tok(SRp, rest));
    assert ReadPrimary(ts) == Got(QBind(n), ts.tail);
    PrimaryArgument(ts, QBind(n), ts.tail);
    if k == 1 {
      LastArgument(ts, QBind(n), rest);
    } else {
      BindsRead(n + 1, k - 1, rest);
      MoreArguments(ts, QBind(n), ts.tail.tail, TreeBinds(n + 1, k - 1), rest);
    }
  }

  // ---------------------------------------------------------------- feature ids

  /** Adapter SQL for one column. */
  ghost predicate ColumnSql(column: seq<Lexeme>, c: Sql) {
    Trusted(column) && forall k: Toks :: k.Tok? && k.head == SAs ==> ReadExpr(1, Strip(column, k)) == Got(c, k)
  }

  lemma {:induction false} ColumnIsColumnSql(alias: string, column: string)
    requires alias in {"t", "v"}
    ensures ColumnSql(Column(alias, column), QCol(alias, column))
  {
    hide ReadPrimary, Strip;
    ColumnReadsBack(alias, column, Nil);
    forall k: Toks | k.Tok? && k.head == SAs
      ensures ReadExpr(1, Strip(Column(alias, column), k)) == Got(QCol(alias, column), k)
    {
      ColumnReadsBack(alias, column, k);
      PrimaryStarts(Strip(Column(alias, column), k));
    }
  }

  function IdTree(c: Sql, n: nat, k: nat): Sql { QIn(false, QCast(c, "VARCHAR"), TreeBinds(n, k)) }

  /** CAST(column AS VARCHAR) as an operand. */
  lemma {:induction false} CastColumnReads(column: seq<Lexeme>, c: Sql, k: Toks)
    requires ColumnSql(column, c) && EndsOperand(k)
    ensures var ts := Tok(SCast, Tok(SLp, Strip(column, Tok(SAs, Tok(SName("VARCHAR"), Tok(SRp, k))))));
            ReadPrimary(ts) == Got(QCast(c, "VARCHAR"), k)
  {
    hide ReadExpr, Strip;
    var inner := Tok(SAs, Tok(SName("VARCHAR"), Tok(SRp, k)));
    assert ReadExpr(1, Strip(column, inner)) == Got(c, inner);
  }

  lemma {:induction false} InClauseStrip(column: seq<Lexeme>, n: nat, k: nat, rest: Toks)
    ensures Strip(InClause(column, n, k), rest) ==
            Tok(SCast, Tok(SLp, Strip(column, Tok(SAs, Tok(SName("VARCHAR"),
              Tok(SRp, Tok(SIn, Tok(SLp, ToksBinds(n, k, Tok(SRp, rest))))))))))
  {
    hide Strip, Markers;
    var cast, m := [Word("CAST"), LP], [Sp, Word("AS"), Sp, Word("VARCHAR"), RP, Sp, Word("IN"), Sp, LP];
    var list := ToksBinds(n, k, Tok(SRp, rest));
    StripConcat(cast + column + m + Markers(n, k), [RP], rest);
    Strip1(RP, rest);
    StripConcat(cast + column + m, Markers(n, k), Tok(SRp, rest));
    MarkersStrip(n, k, Tok(SRp, rest));
    StripConcat(cast + column, m, list);
    MiddleStrip(list);
    StripConcat(cast, column, Strip(m, list));
    Strip2(Word("CAST"), LP, Strip(column, Strip(m, list)));
    WordsOf();
  }

  lemma {:induction false} WordsOf()
    ensures WordTok("CAST") == SCast && WordTok("AS") == SAs && WordTok("VARCHAR") == SName("VARCHAR")
            && WordTok("IN") == SIn
  {
  }

  lemma {:induction false} MiddleStrip(rest: Toks)
    ensures Strip([Sp, Word("AS"), Sp, Word("VARCHAR"), RP, Sp, Word("IN"), Sp, LP], rest) ==
            Tok(SAs, Tok(SName("VARCHAR"), Tok(SRp, Tok(SIn, Tok(SLp, rest)))))
  {
    hide Strip, WordTok;
    WordsOf();
    var a, b, c := [Sp, Word("AS"), Sp], [Word("VARCHAR"), RP, Sp], [Word("IN"), Sp, LP];
    assert [Sp, Word("AS"), Sp, Word("VARCHAR"), RP, Sp, Word("IN"), Sp, LP] == a + b + c;
    StripConcat(a + b, c, rest);
    Strip3(Word("IN"), Sp, LP, rest);
    StripConcat(a, b, Tok(SIn, Tok(SLp, rest)));
    Strip3(Word("VARCHAR"), RP, Sp, Tok(SIn, Tok(SLp, rest)));
    Strip3(Sp, Word("AS"), Sp, Tok(SName("VARCHAR"), Tok(SRp, Tok(SIn, Tok(SLp, rest)))));
  }

  /** The feature-id clause reads as membership of the column's text in the list of placeholders. */
  lemma {:induction false} InClauseReadsAs(column: seq<Lexeme>, c: Sql, n: nat, k: nat)
    requires ColumnSql(column, c) && k > 0
    ensures ReadsAs(InClause(column, n, k), IdTree(c, n, k))
  {
    hide Strip, Markers, Clean, ReadPrimary, ReadExpr, InClause, ToksBinds;
    InClauseClean(column, n, k);
    ClauseThere(column, n, k);
    forall rest | EndsTest(rest) ensures Reads(Strip(InClause(column, n, k), rest), IdTree(c, n, k), rest) {
      InClauseStrip(column, n, k, rest);
      InListFollows(column, c, n, k, rest);
    }
  }

  lemma {:induction false} ClauseThere(column: seq<Lexeme>, n: nat, k: nat)
    ensures |InClause(column, n, k)| > 0
  {
  }

  lemma {:induction false} InListFollows(column: seq<Lexeme>, c: Sql, n: nat, k: nat, rest: Toks)
    requires ColumnSql(column, c) && k > 0 && EndsTest(rest)
    ensures var list := Tok(SIn, Tok(SLp, ToksBinds(n, k, Tok(SRp, rest))));
            Reads(Tok(SCast, Tok(SLp, Strip(column, Tok(SAs, Tok(SName("VARCHAR"), Tok(SRp, list)))))),
              IdTree(c, n, k), rest)
  {
    hide Strip, ReadPrimary, ReadArgs, ToksBinds, TreeBinds;
    var list := Tok(SIn, Tok(SLp, ToksBinds(n, k, Tok(SRp, rest))));
    CastColumnReads(column, c, list);
    PrimaryStarts(Tok(SCast, Tok(SLp, Strip(column, Tok(SAs, Tok(SName("VARCHAR"), Tok(SRp, list)))))));
    BindsRead(n, k, rest);
    assert ReadTest(false, QCast(c, "VARCHAR"), list) == Got(IdTree(c, n, k), rest);
  }

  // ---------------------------------------------------------------- boxes

  /** Adapter SQL for one geometry argument. */
  ghost predicate GeometrySql(geom: seq<Lexeme>, g: Sql) {
    Trusted(geom) && forall k :: EndsArgument(k) ==> ReadArg(Strip(geom, k)) == Got(g, k)
  }

  function EnvelopeTree(sourceSRID: nat, srid: nat, n: nat): Sql {
    var corners := QCall("ST_MakeEnvelope", TreeBinds(n, 4));
    if sourceSRID != 0 && sourceSRID != srid then
      QCall("ST_Transform", SqlCons(corners, ReprojectTree(srid, sourceSRID)))
    else corners
  }

  function BoxTree(g: Sql, sourceSRID: nat, srid: nat, n: nat): Sql {
    QCall("ST_Intersects", SqlCons(g, SqlCons(EnvelopeTree(sourceSRID, srid, n), SqlNil)))
  }

  /** The disjunction of k boxes. */
  function BoxesTree(g: Sql, sourceSRID: nat, srid: nat, n: nat, k: nat): Sql
    requires k > 0
  {
    var last := BoxTree(g, sourceSRID, srid, n + 4 * (k - 1));
    if k == 1 then last else QOr(BoxesTree(g, sourceSRID, srid, n, k - 1), last)
  }

  lemma {:induction false} CornersStrip(n: nat, rest: Toks)
    ensures Strip(Envelope4(n), rest) == Tok(SName("ST_MakeEnvelope"), Tok(SLp, ToksBinds(n, 4, Tok(SRp, rest))))
  {
    hide Strip, ToksBinds, WordTok;
    var call, list := [Word("ST_MakeEnvelope"), LP], Markers(n, 4);
    FourMarkers(n);
    assert Envelope4(n) == call + list + [RP];
    StripConcat(call + list, [RP], rest);
    Strip1(RP, rest);
    StripConcat(call, list, Tok(SRp, rest));
    MarkersStrip(n, 4, Tok(SRp, rest));
    Strip2(Word("ST_MakeEnvelope"), LP, ToksBinds(n, 4, Tok(SRp, rest)));
    NameWord("ST_MakeEnvelope");
  }

  lemma {:induction false} FourMarkers(n: nat)
    ensures Markers(n, 4) == [Param(n), Comma, Sp, Param(n + 1), Comma, Sp, Param(n + 2), Comma, Sp, Param(n + 3)]
  {
    assert Markers(n, 1) == [Param(n)];
    assert Markers(n, 2) == [Param(n), Comma, Sp, Param(n + 1)];
    assert Markers(n, 3) == [Param(n), Comma, Sp, Param(n + 1), Comma, Sp, Param(n + 2)];
  }

  function Envelope(sourceSRID: nat, srid: nat, n: nat): seq<Lexeme> {
    if sourceSRID != 0 && sourceSRID != srid then
      [Word("ST_Transform"), LP] + Envelope4(n) + ReprojectTail(srid, sourceSRID)
    else Envelope4(n)
  }

  lemma {:induction false} CornersRead(n: nat, rest: Toks)
    requires EndsArgument(rest)
    ensures ReadArg(Strip(Envelope4(n), rest)) == Got(QCall("ST_MakeEnvelope", TreeBinds(n, 4)), rest)
    ensures Strip(Envelope4(n), rest).Tok? && Strip(Envelope4(n), rest).head != SRp
  {
    hide Strip, ReadArg, ReadArgs, ReadPrimary, ToksBinds, TreeBinds, Envelope4;
    CornersStrip(n, rest);
    BindsRead(n, 4, rest);
    CallReads("ST_MakeEnvelope", ToksBinds(n, 4, Tok(SRp, rest)), TreeBinds(n, 4), rest);
    PrimaryArgument(Strip(Envelope4(n), rest), QCall("ST_MakeEnvelope", TreeBinds(n, 4)), rest);
  }

  lemma {:induction false} EnvelopeReads(sourceSRID: nat, srid: nat, n: nat, rest: Toks)
    requires EndsArgument(rest)
    ensures ReadArg(Strip(Envelope(sourceSRID, srid, n), rest)) == Got(EnvelopeTree(sourceSRID, srid, n), rest)
    ensures Strip(Envelope(sourceSRID, srid, n), rest).Tok? && Strip(Envelope(sourceSRID, srid, n), rest).head != SRp
  {
    hide Strip, ReadArg, ReadArgs, ReadPrimary, Envelope4, TreeBinds, WordTok, Itoa;
    if sourceSRID != 0 && sourceSRID != srid {
      var move, tail := [Word("ST_Transform"), LP], ReprojectTail(srid, sourceSRID);
      var k := ToksReproject(srid, sourceSRID, rest);
      var corners := QCall("ST_MakeEnvelope", TreeBinds(n, 4));
      StripConcat(move + Envelope4(n), tail, rest);
      ReprojectWrites(srid, sourceSRID, rest);
      StripConcat(move, Envelope4(n), k);
      Strip2(Word("ST_Transform"), LP, Strip(Envelope4(n), k));
      NameWord("ST_Transform");
      CornersRead(n, k);
      ReprojectReads(srid, sourceSRID, rest);
      MoreArguments(Strip(Envelope4(n), k), corners, k.tail, ReprojectTree(srid, sourceSRID), rest);
      CallReads("ST_Transform", Strip(Envelope4(n), k), SqlCons(corners, ReprojectTree(srid, sourceSRID)), rest);
      PrimaryArgument(Strip(Envelope(sourceSRID, srid, n), rest), EnvelopeTree(sourceSRID, srid, n), rest);
    } else {
      CornersRead(n, rest);
    }
  }

  lemma {:induction false} BoxReads(geom: seq<Lexeme>, g: Sql, sourceSRID: nat, srid: nat, n: nat, rest: Toks)
    requires GeometrySql(geom, g) && EndsOperand(rest)
    ensures ReadPrimary(Strip(BoxClause(geom, sourceSRID, srid, n), rest)) == Got(BoxTree(g, sourceSRID, srid, n), rest)
  {
    hide Strip, ReadArg, ReadArgs, ReadPrimary, Envelope, EnvelopeTree, WordTok, Trusted;
    var call, env := [Word("ST_Intersects"), LP], Envelope(sourceSRID, srid, n);
    BoxIs(geom, sourceSRID, srid, n);
    StripConcat(call + geom + [Comma, Sp] + env, [RP], rest);
    Strip1(RP, rest);
    StripConcat(call + geom + [Comma, Sp], env, Tok(SRp, rest));
    var last := Strip(env, Tok(SRp, rest));
    StripConcat(call + geom, [Comma, Sp], last);
    Strip2(Comma, Sp, last);
    StripConcat(call, geom, Tok(SComma, last));
    var first := Strip(geom, Tok(SComma, last));
    Strip2(Word("ST_Intersects"), LP, first);
    NameWord("ST_Intersects");
    EnvelopeReads(sourceSRID, srid, n, Tok(SRp, rest));
    var e := EnvelopeTree(sourceSRID, srid, n);
    LastArgument(last, e, rest);
    assert ReadArg(first) == Got(g, Tok(SComma, last));
    ArgumentStarts(first);
    MoreArguments(first, g, last, SqlCons(e, SqlNil), rest);
    CallReads("ST_Intersects", first, SqlCons(g, SqlCons(e, SqlNil)), rest);
  }

  lemma {:induction false} BoxIs(geom: seq<Lexeme>, sourceSRID: nat, srid: nat, n: nat)
    ensures BoxClause(geom, sourceSRID, srid, n) ==
            [Word("ST_Intersects"), LP] + geom + [Comma, Sp] + Envelope(sourceSRID, srid, n) + [RP]
  {
  }

  predicate EndsDisjunct(k: Toks) { k.Tok? && k.head in {SRp, SOr} }

  lemma {:induction false} BoxesRead(geom: seq<Lexeme>, g: Sql, sourceSRID: nat, srid: nat, n: nat, k: nat, rest: Toks)
    requires GeometrySql(geom, g) && k > 0 && EndsDisjunct(rest)
    ensures ReadExpr(1, Strip(BoxClauses(geom, sourceSRID, srid, n, k), rest)) ==
            Climb(1, BoxesTree(g, sourceSRID, srid, n, k), rest)
    decreases k
  {
    hide Strip, ReadPrimary, ReadExpr, Climb, BoxClause, BoxTree, GeometrySql, WordTok;
    var m := n + 4 * (k - 1);
    var last := BoxClause(geom, sourceSRID, srid, m);
    var tree := BoxTree(g, sourceSRID, srid, m);
    BoxReads(geom, g, sourceSRID, srid, m, rest);
    PrimaryStarts(Strip(last, rest));
    if k == 1 {
      assert [] + last == last;
    } else {
      var before := BoxClauses(geom, sourceSRID, srid, n, k - 1);
      var join := [Sp, Word("OR"), Sp];
      StripConcat(before + join, last, rest);
      StripConcat(before, join, Strip(last, rest));
      Strip3(Sp, Word("OR"), Sp, Strip(last, rest));
      OrWord();
      BoxesRead(geom, g, sourceSRID, srid, n, k - 1, Tok(SOr, Strip(last, rest)));
      ClimbsOr(BoxesTree(g, sourceSRID, srid, n, k - 1), Strip(last, rest), tree, rest);
    }
  }

  lemma {:induction false} OrWord()
    ensures WordTok("OR") == SOr
  {
  }

  lemma {:induction false} ClimbsOr(l: Sql, ts: Toks, r: Sql, rest: Toks)
    requires (forall min :: ReadExpr(min, ts) == Climb(min, r, rest)) && EndsDisjunct(rest)
    ensures Climb(1, l, Tok(SOr, ts)) == Climb(1, QOr(l, r), rest)
  {
    hide ReadPrimary, ReadTest;
    assert ReadExpr(2, ts) == Climb(2, r, rest) == Got(r, rest);
  }

  function BoxSql(geom: seq<Lexeme>, sourceSRID: nat, srid: nat, n: nat, k: nat): seq<Lexeme> {
    [LP] + BoxClauses(geom, sourceSRID, srid, n, k) + [RP]
  }

  /** The parenthesised box clause reads as the disjunction of its parts. */
  lemma {:induction false} BoxReadsAs(geom: seq<Lexeme>, g: Sql, sourceSRID: nat, srid: nat, n: nat, k: nat)
    requires GeometrySql(geom, g) && k > 0
    ensures ReadsAs(BoxSql(geom, sourceSRID, srid, n, k), BoxesTree(g, sourceSRID, srid, n, k))
  {
    hide Strip, Clean, ReadPrimary, ReadExpr, Climb, BoxClauses, BoxesTree, Reads;
    var inner := BoxClauses(geom, sourceSRID, srid, n, k);
    BoxClausesClean(geom, sourceSRID, srid, n, k);
    PartsClean();
    CleanConcat([LP], inner);
    CleanConcat([LP] + inner, [RP]);
    forall rest | EndsTest(rest)
      ensures Reads(Strip(BoxSql(geom, sourceSRID, srid, n, k), rest), BoxesTree(g, sourceSRID, srid, n, k), rest)
    {
      StripConcat([LP] + inner, [RP], rest);
      Strip1(RP, rest);
      StripConcat([LP], inner, Tok(SRp, rest));
      Strip1(LP, Strip(inner, Tok(SRp, rest)));
      BoxesRead(geom, g, sourceSRID, srid, n, k, Tok(SRp, rest));
      BracketReads(Strip(inner, Tok(SRp, rest)), BoxesTree(g, sourceSRID, srid, n, k), rest);
    }
  }

  lemma {:induction false} BracketReads(ts: Toks, e: Sql, rest: Toks)
    requires ReadExpr(1, ts) == Climb(1, e, Tok(SRp, rest)) && EndsTest(rest)
    ensures Reads(Tok(SLp, ts), e, rest)
  {
    hide ReadPrimary, ReadTest;
    assert ReadExpr(1, ts) == Got(e, Tok(SRp, rest));
    ParenReads(ts, rest, e);
    PrimaryStarts(Tok(SLp, ts));
  }

  // ---------------------------------------------------------------- any clauses in any order

  /** A clause of a query, with the column it is about and what the adapter's expression for it reads as. */
  datatype Clause =
    | Ids(ids: seq<string>, name: string, column: seq<Lexeme>, c: Sql)
    | Box(name: string, geom: seq<Lexeme>, g: Sql, sourceSRID: nat, bboxSRID: nat, bbox: BBox)
    | Filter(d: Dialect, options: RawOptions, cql: string, e: Expr)
  {
    ghost predicate Ok() {
      match this
      case Ids(ids, _, column, c) => |ids| > 0 && ColumnSql(column, c)
      case Box(_, geom, g, _, _, _) => GeometrySql(geom, g)
      case Filter(d, options, cql, e) =>
        && TrustedGeometry(TargetOf(d, options)) && PlainGeometry(TargetOf(d, options))
        && !IsBlank(cql) && ParseFilter(TargetOf(d, options).opt, Lex(cql, 0)) == Some(e)
    }

    function Srid(): nat
      requires Box?
    {
      if bboxSRID == 0 then 4326 else bboxSRID
    }

    function Values(): seq<Arg> {
      match this
      case Ids(ids, _, _, _) => Texts(ids)
      case Box(_, _, _, _, _, bbox) => CornersOf(bbox.Parts(Srid()))
      case Filter(d, options, _, e) => Args(TargetOf(d, options), e)
    }

    /** The clause's lexemes with its placeholders from n on. */
    function SqlAt(n: nat): seq<Lexeme> {
      match this
      case Ids(ids, _, column, _) => InClause(column, n, |ids|)
      case Box(_, geom, _, sourceSRID, _, bbox) => BoxSql(geom, sourceSRID, Srid(), n, |bbox.Parts(Srid())|)
      case Filter(d, options, _, e) => Emit(TargetOf(d, options), e, n)
    }

    /** What the clause means: a tree over those placeholders. */
    function TreeAt(n: nat): Sql {
      match this
      case Ids(ids, _, _, c) => IdTree(c, n, |ids|)
      case Box(_, _, g, sourceSRID, _, bbox) => BoxesTree(g, sourceSRID, Srid(), n, |bbox.Parts(Srid())|)
      case Filter(d, options, _, e) => Tree(TargetOf(d, options), e, n)
    }
  }

  lemma {:induction false} ClauseReadsAs(x: Clause, n: nat)
    requires x.Ok()
    ensures ReadsAs(x.SqlAt(n), x.TreeAt(n))
  {
    hide ReadsAs, Emit, Tree, InClause, BoxSql, BoxesTree, IdTree, ColumnSql, GeometrySql, TrustedGeometry,
       PlainGeometry, IsBlank, ValidExpr, ParseFilter, Lex;
    match x {
      case Ids(ids, _, column, c) => InClauseReadsAs(column, c, n, |ids|);
      case Box(_, geom, g, sourceSRID, _, bbox) => BoxReadsAs(geom, g, sourceSRID, x.Srid(), n, |bbox.Parts(x.Srid())|);
      case Filter(d, options, cql, e) =>
        var t := TargetOf(d, options);
        LexCanonical(cql, 0);
        GrammarExact(t.opt, Lex(cql, 0), e);
        FilterReadsAs(t, e, n);
    }
  }

  ghost predicate AllOk(xs: seq<Clause>) { forall i :: 0 <= i < |xs| ==> xs[i].Ok() }

  /** The values of the first clauses, one after another. */
  function ValuesOf(xs: seq<Clause>): seq<Arg> {
    if |xs| == 0 then [] else ValuesOf(xs[..|xs| - 1]) + xs[|xs| - 1].Values()
  }

  /** Where the i-th clause's placeholders start: behind the values of all clauses before it. */
  function StartOf(xs: seq<Clause>, i: nat): nat
    requires i <= |xs|
  {
    1 + |ValuesOf(xs[..i])|
  }

  function TreesOf(xs: seq<Clause>): (trees: seq<Sql>)
    ensures |trees| == |xs| && forall i :: 0 <= i < |xs| ==> trees[i] == xs[i].TreeAt(StartOf(xs, i))
  {
    seq(|xs|, i requires 0 <= i < |xs| => xs[i].TreeAt(StartOf(xs, i)))
  }

  function LexemesOf(xs: seq<Clause>): (ls: seq<seq<Lexeme>>)
    ensures |ls| == |xs| && forall i :: 0 <= i < |xs| ==> ls[i] == xs[i].SqlAt(StartOf(xs, i))
  {
    seq(|xs|, i requires 0 <= i < |xs| => xs[i].SqlAt(StartOf(xs, i)))
  }

  method AppendClause(q: Query, x: Clause)
    requires q.Valid() && x.Ok()
    modifies q
    ensures q.Valid() && q.args == old(q.args) + x.Values()
    ensures q.where == old(q.where) + [SqlText.Text(x.SqlAt(old(q.next)))] && q.next == |q.args| + 1
  {
    hide Emit, Args, InClause, BoxClauses, ColumnSql, GeometrySql, TrustedGeometry, PlainGeometry, IsBlank,
       ParseFilter, Lex, Filled, FilledLexemes, CornersOf, Complete, Trusted;
    match x {
      case Ids(ids, _, column, c) =>
        assert Trusted(column) by { ColumnTrusted(column, c); }
        q.AppendFeatureIds(ids, column);
      case Box(_, geom, g, sourceSRID, bboxSRID, bbox) =>
        assert Trusted(geom) by { GeometryTrusted(geom, g); }
        q.AppendBBox(geom, sourceSRID, bboxSRID, bbox);
      case Filter(d, options, cql, _) =>
        var _ := q.AppendFilter(d, options, cql);
    }
  }

  lemma {:induction false} ColumnTrusted(column: seq<Lexeme>, c: Sql)
    requires ColumnSql(column, c)
    ensures Trusted(column)
  {
  }

  lemma {:induction false} GeometryTrusted(geom: seq<Lexeme>, g: Sql)
    requires GeometrySql(geom, g)
    ensures Trusted(geom)
  {
  }

  /** Main result on assembly: feature ids, boxes and filters appended in any order and number. The
      WHERE text reads as the conjunction of what each clause means, and each clause's placeholders
      stand for its own values. */
  method BuildWhere(xs: seq<Clause>) returns (q: Query)
    requires |xs| > 0 && AllOk(xs)
    ensures fresh(q) && q.Valid() && q.args == ValuesOf(xs) && q.next == StartOf(xs, |xs|) && |q.where| == |xs|
    ensures forall i :: 0 <= i < |xs| ==> q.where[i] == SqlText.Text(xs[i].SqlAt(StartOf(xs, i)))
    ensures "WHERE " <= WhereClause(q.where) && ReadSql(WhereClause(q.where)[6..]) == Some(Conjunction(TreesOf(xs)))
    ensures forall i :: 0 <= i < |xs| ==> ValuesAt(q.args, StartOf(xs, i), xs[i].Values())
  {
    hide ReadSql, ReadsAs, Clause.Ok, Clause.SqlAt, Clause.Values, ValuesOf, StartOf,
      Conjunction, WhereClause, Query.Valid, TreesOf;
    q := AppendAll(xs);
    assert xs[..|xs|] == xs;
    WhereReads(xs, q.where);
    forall i | 0 <= i < |xs| ensures ValuesAt(q.args, StartOf(xs, i), xs[i].Values()) {
      OwnValues(xs, i, |xs|);
    }
  }

  method AppendAll(xs: seq<Clause>) returns (q: Query)
    requires AllOk(xs)
    ensures fresh(q) && q.Valid() && q.args == ValuesOf(xs) && q.next == StartOf(xs, |xs|) && |q.where| == |xs|
    ensures forall i :: 0 <= i < |xs| ==> q.where[i] == SqlText.Text(xs[i].SqlAt(StartOf(xs, i)))
  {
    hide Clause.Ok, Clause.SqlAt, Clause.Values, ValuesOf, Query.Valid;
    q := new Query();
    NoValues(xs);
    for i := 0 to |xs|
      invariant fresh(q) && q.Valid() && |q.where| == i && q.args == ValuesOf(xs[..i]) && q.next == StartOf(xs, i)
      invariant forall j :: 0 <= j < i ==> q.where[j] == SqlText.Text(xs[j].SqlAt(StartOf(xs, j)))
    {
      FrontValues(xs, i);
      AppendClause(q, xs[i]);
    }
    assert xs[..|xs|] == xs;
  }

  lemma {:induction false} NoValues(xs: seq<Clause>)
    ensures ValuesOf(xs[..0]) == [] && StartOf(xs, 0) == 1
  {
    assert xs[..0] == [];
  }

  lemma {:induction false} WhereReads(xs: seq<Clause>, where: seq<string>)
    requires |where| == |xs| > 0 && AllOk(xs)
    requires forall i :: 0 <= i < |xs| ==> where[i] == SqlText.Text(xs[i].SqlAt(StartOf(xs, i)))
    ensures "WHERE " <= WhereClause(where) && ReadSql(WhereClause(where)[6..]) == Some(Conjunction(TreesOf(xs)))
  {
    hide ReadSql, ReadsAs, Clause.Ok, Clause.SqlAt, Clause.TreeAt, StartOf, Conjunction, WhereClause;
    forall i | 0 <= i < |xs| ensures ReadsAs(LexemesOf(xs)[i], TreesOf(xs)[i]) {
      ClauseReadsAs(xs[i], StartOf(xs, i));
    }
    WhereReadsAsConjunction(LexemesOf(xs), TreesOf(xs));
    assert where == seq(|xs|, i requires 0 <= i < |xs| => SqlText.Text(LexemesOf(xs)[i]));
  }

  /** Placeholders n, n+1, ... are these values. */
  predicate ValuesAt(args: seq<Arg>, n: nat, values: seq<Arg>) {
    1 <= n && n - 1 + |values| <= |args| && args[n - 1..n - 1 + |values|] == values
  }

  lemma {:induction false} FrontValues(xs: seq<Clause>, i: nat)
    requires i < |xs|
    ensures ValuesOf(xs[..i + 1]) == ValuesOf(xs[..i]) + xs[i].Values()
  {
    hide Clause.Values;
    assert xs[..i + 1][..i] == xs[..i] && xs[..i + 1][i] == xs[i];
  }

  lemma {:induction false} OwnValues(xs: seq<Clause>, i: nat, j: nat)
    requires i < j <= |xs|
    ensures ValuesAt(ValuesOf(xs[..j]), StartOf(xs, i), xs[i].Values())
    decreases j
  {
    hide Clause.Values, ValuesOf;
    FrontValues(xs, j - 1);
    if i < j - 1 {
      OwnValues(xs, i, j - 1);
    }
  }
}
