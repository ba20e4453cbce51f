/** What callers of the two compilers may rely on, for every filter text. */
module FilterTheorems {
  import opened Base
  import opened Lexing
  import opened LexerFacts
  import opened Cql2Grammar
  import opened Cql2Parser
  import opened Cql2Exact
  import opened SqlText
  import opened Emission
  import opened Refinement
  import opened SqlReading
  import opened SqlFidelity
  import opened FilterSql
  import opened FilterMeaning
  import opened Placeholders

  // ---------------------------------------------------------------- acceptance and meaning

  /** A filter is accepted exactly when its tokens are those of a valid tree; that tree is unique. */
  lemma {:induction false} AcceptedIffInGrammar(t: Target, start: nat, cql: string)
    requires !IsBlank(cql)
    ensures CompileFilter(t, start, cql).Accepted? <==> exists e :: ValidExpr(t.opt, e) && Yield(e) == Lex(cql, 0)
    ensures forall e :: ValidExpr(t.opt, e) && Yield(e) == Lex(cql, 0) ==>
              CompileFilter(t, start, cql) == Accepted(Emit(t, e, start), Args(t, e), start + |Args(t, e)|)
  {
    LexCanonical(cql, 0);
    forall e
      ensures ParseFilter(t.opt, Lex(cql, 0)) == Some(e) <==> ValidExpr(t.opt, e) && Yield(e) == Lex(cql, 0)
    {
      GrammarExact(t.opt, Lex(cql, 0), e);
    }
    hide ParseFilter, Emit, Args;
    if CompileFilter(t, start, cql).Accepted? {
      assert ValidExpr(t.opt, ParseFilter(t.opt, Lex(cql, 0)).value);
    }
  }

  /** Main result. Every accepted filter is a grammatical expression e, the SQL text is read by the
      database as one expression, and on every row that expression has the truth value of e. */
  lemma {:induction false} CompilePreservesMeaning(t: Target, start: nat, cql: string,
      w: World, row: Row, bind: nat -> Value)
    returns (e: Expr, q: Sql)
    requires TrustedGeometry(t) && GeometryDenotes(w, row, bind, t)
    requires !IsBlank(cql) && CompileFilter(t, start, cql).Accepted?
    requires Binds(bind, start, CompileFilter(t, start, cql).args)
    ensures ValidExpr(t.opt, e) && Yield(e) == Lex(cql, 0)
    ensures ReadSql(SqlText.Text(CompileFilter(t, start, cql).sql)) == Some(q)
    ensures SqlValue(w, row, bind, q) == OfTri(Holds(w, t.opt, row, e))
  {
    hide Emit, Args, Tree, ReadSql, Binds, GeometryDenotes, TrustedGeometry, SqlValue, Holds;
    e := ParseFilter(t.opt, Lex(cql, 0)).value;
    LexCanonical(cql, 0);
    GrammarExact(t.opt, Lex(cql, 0), e);
    q := Tree(t, e, start);
    EmittedSqlReadsAsTree(t, e, start);
    MeaningPreserved(w, row, bind, t, e, start);
  }

  // ---------------------------------------------------------------- what the adapters pass

  /** The geometry expressions in use: none, the column behind its alias, or the column decoded from WKB. */
  predicate AdapterGeometry(t: Target) {
    || t.geometrySql == []
    || exists alias :: alias in {"t", "v"} &&
         (t.geometrySql == Column(alias, t.opt.geometry) || t.geometrySql == WkbColumn(alias, t.opt.geometry))
  }

  /** Each of them is trusted, holds no placeholder, and denotes the row's geometry on every row, so
      what is proved of compiled filters holds for every adapter. */
  lemma {:induction false} AdapterGeometryDenotes(t: Target, w: World, row: Row, bind: nat -> Value)
    requires AdapterGeometry(t)
    ensures TrustedGeometry(t) && PlainGeometry(t) && GeometryDenotes(w, row, bind, t)
  {
    hide TrustedGeometry, ReadArg, Strip;
    if t.geometrySql == [] {
      NoGeometryIsTrusted(t);
    } else {
      var alias :| alias in {"t", "v"} &&
        (t.geometrySql == Column(alias, t.opt.geometry) || t.geometrySql == WkbColumn(alias, t.opt.geometry));
      var column := QCol(alias, t.opt.geometry);
      assert SqlValue(w, row, bind, column) == row(t.opt.geometry);
      if t.geometrySql == Column(alias, t.opt.geometry) {
        ColumnIsTrusted(t, alias, t.opt.geometry);
      } else {
        WkbColumnIsTrusted(t, alias, t.opt.geometry);
        assert SqlValues(w, row, bind, SqlNil) == [];
        assert SqlValues(w, row, bind, SqlCons(column, SqlNil)) == [row(t.opt.geometry)];
      }
    }
  }

  lemma {:induction false} NoGeometryIsTrusted(t: Target)
    requires t.geometrySql == []
    ensures TrustedGeometry(t)
  {
  }

  // ---------------------------------------------------------------- the two compilers agree

  /** The same argument, up to the SRID the PostGIS text form carries. */
  predicate SameArg(srid: nat, pg: Arg, duck: Arg) {
    pg == duck || (duck.TextArg? && pg == TextArg("SRID=" + Itoa(srid) + ";" + duck.text))
  }

  predicate SameArgs(srid: nat, pg: seq<Arg>, duck: seq<Arg>) {
    |pg| == |duck| && forall i :: 0 <= i < |pg| ==> SameArg(srid, pg[i], duck[i])
  }

  lemma {:induction false} PredArgsAgree(pg: Target, duck: Target, p: Pred)
    requires pg.dialect.PostGIS? && duck.dialect.DuckDB? && pg.opt == duck.opt
    ensures SameArgs(pg.opt.filterSRID, ArgsPred(pg, p), ArgsPred(duck, p))
  {
    hide ArgsScalar, ArgsItems, WktText, NumberArg;
  }

  lemma {:induction false} ExprArgsAgree(pg: Target, duck: Target, e: Expr)
    requires pg.dialect.PostGIS? && duck.dialect.DuckDB? && pg.opt == duck.opt
    ensures SameArgs(pg.opt.filterSRID, Args(pg, e), Args(duck, e))
    decreases e
  {
    hide ArgsPred;
    match e {
      case Atom(p) => PredArgsAgree(pg, duck, p);
      case Paren(inner) => ExprArgsAgree(pg, duck, inner);
      case Not(_, arg) => ExprArgsAgree(pg, duck, arg);
      case And(l, _, r) => ExprArgsAgree(pg, duck, l); ExprArgsAgree(pg, duck, r);
      case Or(l, _, r) => ExprArgsAgree(pg, duck, l); ExprArgsAgree(pg, duck, r);
    }
  }

  /** With equal options both compilers accept the same filters, stop at the same index and bind
      the same arguments up to the SRID prefix. */
  lemma {:induction false} CompilersAgree(options: RawOptions, cql: string)
    ensures var pg := CompileFilter(TargetOf(PostGIS, options), StartIndex(options), cql);
            var duck := CompileFilter(TargetOf(DuckDB, options), StartIndex(options), cql);
            && pg.Accepted? == duck.Accepted?
            && (pg.Accepted? ==> pg.next == duck.next)
            && (pg.Accepted? ==> SameArgs(TargetOf(PostGIS, options).opt.filterSRID, pg.args, duck.args))
  {
    var pt, dt := TargetOf(PostGIS, options), TargetOf(DuckDB, options);
    var e := ParseFilter(pt.opt, Lex(cql, 0));
    if e.Some? {
      ExprArgsAgree(pt, dt, e.value);
    }
  }

  /** ... and, each read by its own database with its own arguments, both texts have one truth value. */
  lemma {:induction false} CompilersMeanTheSame(options: RawOptions, cql: string, w: World, row: Row,
                                                pgBind: nat -> Value, duckBind: nat -> Value)
    requires var pt, dt := TargetOf(PostGIS, options), TargetOf(DuckDB, options);
             && TrustedGeometry(pt) && GeometryDenotes(w, row, pgBind, pt)
             && TrustedGeometry(dt) && GeometryDenotes(w, row, duckBind, dt)
             && !IsBlank(cql) && CompileFilter(pt, StartIndex(options), cql).Accepted?
             && CompileFilter(dt, StartIndex(options), cql).Accepted?
             && Binds(pgBind, StartIndex(options), CompileFilter(pt, StartIndex(options), cql).args)
             && Binds(duckBind, StartIndex(options), CompileFilter(dt, StartIndex(options), cql).args)
    ensures var pg := ReadSql(SqlText.Text(CompileFilter(TargetOf(PostGIS, options), StartIndex(options), cql).sql));
            var duck := ReadSql(SqlText.Text(CompileFilter(TargetOf(DuckDB, options), StartIndex(options), cql).sql));
            pg.Some? && duck.Some? && SqlValue(w, row, pgBind, pg.value) == SqlValue(w, row, duckBind, duck.value)
  {
    hide ReadSql, Binds, GeometryDenotes, TrustedGeometry, SqlValue, Holds, CompileFilter, ValidExpr, Yield;
    var pt, dt := TargetOf(PostGIS, options), TargetOf(DuckDB, options);
    var e1, q1 := CompilePreservesMeaning(pt, StartIndex(options), cql, w, row, pgBind);
    var e2, q2 := CompilePreservesMeaning(dt, StartIndex(options), cql, w, row, duckBind);
    LexCanonical(cql, 0);
    GrammarExact(pt.opt, Lex(cql, 0), e1);
    GrammarExact(pt.opt, Lex(cql, 0), e2);
  }
}
