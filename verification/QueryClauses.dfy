/** Assembling a query: clauses written one after another into a shared argument list. */
module QueryClauses {
  import opened Base
  import opened Lexing
  import opened Cql2Grammar
  import opened SqlText
  import opened Emission
  import opened SqlReading
  import opened SqlFidelity
  import opened SqlLexing
  import opened FilterSql
  import opened Placeholders
  import opened Rebase
  import opened Refinement
  import opened Cql2Exact
  import opened Cql2Parser
  import opened LexerFacts
  import PostgisCompiler
  import DuckdbCompiler

  // ---------------------------------------------------------------- rebasing is recompiling

  lemma {:induction false} HolesCovered(ls: seq<Lexeme>, i: nat)
    requires i < |ls| && ls[i].Param?
    ensures ls[i].index in Holes(ls)
    decreases |ls|
  {
    if i > 0 {
      HolesCovered(ls[1..], i - 1);
    }
  }

  lemma {:induction false} NumberedWithin(ls: seq<Lexeme>, n: nat, k: nat, names: set<string>)
    requires Numbered(ls, n, k, names)
    ensures Within(ls, n, k)
  {
    forall i | 0 <= i < |ls| && ls[i].Param? ensures n <= ls[i].index < n + k {
      HolesCovered(ls, i);
    }
  }

  /** Compiling at one index and rebasing to another is compiling at the other, for every valid filter. */
  lemma {:induction false} RebaseIsRecompile(t: Target, e: Expr, from: nat, to: nat)
    requires ValidExpr(t.opt, e) && TrustedGeometry(t) && PlainGeometry(t)
    requires from + |Args(t, e)| <= MAX_INT + 1
    ensures Rebased(SqlText.Text(Emit(t, e, from)), from, to, |Args(t, e)|) == Some(SqlText.Text(Emit(t, e, to)))
  {
    hide Emit, Args, ValidExpr, Clean, Strip, GeometrySqlOk, Rebased, PlainGeometry, Numbered, Within, Move, ToksExpr;
    PlaceholdersInOrder(t, e, from);
    NumberedWithin(Emit(t, e, from), from, |Args(t, e)|, Names(t));
    ExprWrites(t, e, from, Nil);
    RebaseMoves(Emit(t, e, from), from, to, |Args(t, e)|);
    EmitMoves(t, e, from, to - from);
  }

  /** The same for filter texts: what AppendQueryPredicate does to a stored predicate gives the
      text that compiling the filter at the new index would have given. */
  lemma {:induction false} RebasedFilterIsRecompiled(t: Target, cql: string, from: nat, to: nat)
    requires TrustedGeometry(t) && PlainGeometry(t) && CompileFilter(t, from, cql).Accepted?
    requires CompileFilter(t, from, cql).next <= MAX_INT + 1
    ensures var at := CompileFilter(t, from, cql);
            var moved := CompileFilter(t, to, cql);
            && moved.Accepted? && moved.args == at.args && moved.next - to == at.next - from
            && Rebased(SqlText.Text(at.sql), from, to, |at.args|) == Some(SqlText.Text(moved.sql))
  {
    hide Emit, Args, ValidExpr, TrustedGeometry, PlainGeometry;
    if !IsBlank(cql) {
      var e := ParseFilter(t.opt, Lex(cql, 0)).value;
      LexCanonical(cql, 0);
      GrammarExact(t.opt, Lex(cql, 0), e);
      RebaseIsRecompile(t, e, from, to);
    }
  }

  // ---------------------------------------------------------------- what a text says once its values are in

  datatype Bit = Byte(c: char) | Bound(v: Arg) | Dangling(n: nat)

  function Bytes(s: string): seq<Bit> { seq(|s|, i requires 0 <= i < |s| => Byte(s[i])) }

  function Value(n: nat, base: nat, vals: seq<Arg>): Bit {
    if base <= n < base + |vals| then Bound(vals[n - base]) else Dangling(n)
  }

  /** s with placeholder base+i replaced by vals[i]; quoted regions are left alone. */
  function Filled(s: string, base: nat, vals: seq<Arg>): seq<Bit>
    decreases |s|
  {
    if s == "" then [] else HeadBits(s, base, vals) + Filled(s[PieceLen(s)..], base, vals)
  }

  function HeadBits(s: string, base: nat, vals: seq<Arg>): seq<Bit>
    requires s != ""
  {
    var k := PieceLen(s);
    if StartsHole(s) && !StartsQuote(s) then [Value(Atoi(s[1..k]), base, vals)] else Bytes(s[..k])
  }

  predicate Complete(bits: seq<Bit>) { forall i :: 0 <= i < |bits| ==> !bits[i].Dangling? }

  lemma {:induction false} RebaseKeepsValues(s: string, from: nat, to: nat, vals: seq<Arg>)
    requires to >= 1 && to + |vals| <= MAX_INT + 1 && Rebased(s, from, to, |vals|).Some?
    ensures Filled(Rebased(s, from, to, |vals|).value, to, vals) == Filled(s, from, vals)
    ensures Complete(Filled(s, from, vals))
    decreases |s|
  {
    hide PieceLen, PieceTo, HeadBits;
    if s != "" {
      var rest := s[PieceLen(s)..];
      RebaseKeepsValues(rest, from, to, vals);
      var piece, tail := PieceTo(s, from, to, |vals|).value, Rebased(rest, from, to, |vals|).value;
      if rest != "" {
        FirstByteKept(rest, from, to, |vals|);
      }
      PieceMovesAgain(s, tail, from, to, to, |vals|);
      PieceFills(s, tail, from, to, vals);
      assert (piece + tail)[|piece|..] == tail;
    }
  }

  /** The moved first piece takes the same value as the original one. */
  lemma {:induction false} PieceFills(s: string, tail: string, from: nat, to: nat, vals: seq<Arg>)
    requires s != "" && to >= 1 && to + |vals| <= MAX_INT + 1 && PieceTo(s, from, to, |vals|).Some?
    requires var rest := s[PieceLen(s)..]; (rest == "") == (tail == "") && (rest != "" ==> rest[0] == tail[0])
    ensures var piece := PieceTo(s, from, to, |vals|).value;
            piece != "" && HeadBits(piece + tail, to, vals) == HeadBits(s, from, vals)
              && Complete(HeadBits(s, from, vals))
  {
    hide QuotedTail, Itoa, Atoi, PieceLen, PieceTo, HeadBits;
    if StartsHole(s) && !StartsQuote(s) {
      HolePieceFills(s, tail, from, to, vals);
    } else {
      OtherPieceFills(s, tail, from, to, vals);
    }
  }

  lemma {:induction false} HolePieceFills(s: string, tail: string, from: nat, to: nat, vals: seq<Arg>)
    requires s != "" && to >= 1 && to + |vals| <= MAX_INT + 1 && PieceTo(s, from, to, |vals|).Some?
    requires var rest := s[PieceLen(s)..]; (rest == "") == (tail == "") && (rest != "" ==> rest[0] == tail[0])
    requires StartsHole(s) && !StartsQuote(s)
    ensures var piece := PieceTo(s, from, to, |vals|).value;
            piece != "" && HeadBits(piece + tail, to, vals) == HeadBits(s, from, vals)
              && Complete(HeadBits(s, from, vals))
  {
    hide QuotedTail, Itoa;
    var piece := PieceTo(s, from, to, |vals|).value;
    var moved := piece + tail;
    PieceMovesAgain(s, tail, from, to, to, |vals|);
    var m := to + Atoi(s[1..PieceLen(s)]) - from;
    AtoiItoa(m);
    assert moved[1..|piece|] == Itoa(m);
    assert IsDigit(Itoa(m)[0]) && moved[1] == Itoa(m)[0];
  }

  lemma {:induction false} OtherPieceFills(s: string, tail: string, from: nat, to: nat, vals: seq<Arg>)
    requires s != "" && to >= 1 && to + |vals| <= MAX_INT + 1 && PieceTo(s, from, to, |vals|).Some?
    requires var rest := s[PieceLen(s)..]; (rest == "") == (tail == "") && (rest != "" ==> rest[0] == tail[0])
    requires !(StartsHole(s) && !StartsQuote(s))
    ensures var piece := PieceTo(s, from, to, |vals|).value;
            piece != "" && HeadBits(piece + tail, to, vals) == HeadBits(s, from, vals)
              && Complete(HeadBits(s, from, vals))
  {
    hide QuotedTail, Itoa, Atoi;
    var piece := PieceTo(s, from, to, |vals|).value;
    var moved := piece + tail;
    PieceMovesAgain(s, tail, from, to, to, |vals|);
    assert moved[..|piece|] == piece;
    assert moved[0] == s[0];
    if !StartsQuote(s) && |moved| > 1 {
      assert moved[1] == tail[0] == s[1..][0];
    }
  }

  lemma {:induction false} HeadWider(s: string, base: nat, vals: seq<Arg>, args: seq<Arg>)
    requires base >= 1 && base - 1 + |vals| <= |args| && args[base - 1..base - 1 + |vals|] == vals
    requires s != "" && Complete(HeadBits(s, base, vals))
    ensures HeadBits(s, 1, args) == HeadBits(s, base, vals)
  {
    hide Atoi, QuotedTail;
    if StartsHole(s) && !StartsQuote(s) {
      var n := Atoi(s[1..PieceLen(s)]);
      assert HeadBits(s, base, vals)[0].Bound?;
      assert args[n - 1] == args[base - 1..base - 1 + |vals|][n - base];
    }
  }

  /** A complete text reads the same when its values are a slice of a longer list. */
  lemma {:induction false} FilledWider(s: string, base: nat, vals: seq<Arg>, args: seq<Arg>)
    requires base >= 1 && base - 1 + |vals| <= |args| && args[base - 1..base - 1 + |vals|] == vals
    requires Complete(Filled(s, base, vals))
    ensures Filled(s, 1, args) == Filled(s, base, vals)
    decreases |s|
  {
    hide HeadBits, PieceLen;
    if s != "" {
      var head, rest := HeadBits(s, base, vals), Filled(s[PieceLen(s)..], base, vals);
      assert Complete(rest) && Complete(head) by {
        assert forall i :: 0 <= i < |rest| ==> rest[i] == (head + rest)[|head| + i];
        assert forall i :: 0 <= i < |head| ==> head[i] == (head + rest)[i];
      }
      HeadWider(s, base, vals, args);
      FilledWider(s[PieceLen(s)..], base, vals, args);
    }
  }

  /** Lexemes with their values in. */
  function FilledLexemes(ls: seq<Lexeme>, base: nat, vals: seq<Arg>): seq<Bit> {
    if |ls| == 0 then []
    else (if ls[0].Param? then [Value(ls[0].index, base, vals)] else Bytes(LexemeText(ls[0]))) +
         FilledLexemes(ls[1..], base, vals)
  }

  lemma {:induction false} FilledText(ls: seq<Lexeme>, base: nat, vals: seq<Arg>)
    requires Clean(ls)
    ensures Filled(SqlText.Text(ls), base, vals) == FilledLexemes(ls, base, vals)
    decreases |ls|
  {
    if |ls| > 0 {
      var l, rest := ls[0], SqlText.Text(ls[1..]);
      assert Clean(ls[1..]);
      FilledText(ls[1..], base, vals);
      if |ls| > 1 {
        ApartDetached(l, ls[1], SqlText.Text(ls[1..][1..]));
      }
      LexemeFills(l, rest, base, vals);
    }
  }

  lemma {:induction false} LexemeFills(l: Lexeme, rest: string, base: nat, vals: seq<Arg>)
    requires WellFormed(l) && Detached(l, rest)
    ensures Filled(LexemeText(l) + rest, base, vals) ==
            (if l.Param? then [Value(l.index, base, vals)] else Bytes(LexemeText(l))) + Filled(rest, base, vals)
  {
    hide Filled, Itoa;
    match l {
      case Quoted(name) => QuotedFills(name, '"', rest, base, vals);
      case Str(text) => QuotedFills(text, '\'', rest, base, vals);
      case Param(n) => HoleFills(n, rest, base, vals);
      case Word(w) => BytesFill(w, rest, base, vals);
      case Int(n) => BytesFill(Itoa(n), rest, base, vals);
      case Op(op) => OpBytes(op); BytesFill(op, rest, base, vals);
      case _ => BytesFill(LexemeText(l), rest, base, vals);
    }
  }

  lemma {:induction false} HoleFills(n: nat, rest: string, base: nat, vals: seq<Arg>)
    requires rest == "" || !IsDigit(rest[0])
    ensures Filled("$" + Itoa(n) + rest, base, vals) == [Value(n, base, vals)] + Filled(rest, base, vals)
  {
    var s := "$" + Itoa(n) + rest;
    NumeralFirst("$", n, rest);
    assert IsDigit(s[1]);
    assert s[1 + |Itoa(n)|..] == rest;
  }

  lemma {:induction false} QuotedFills(text: string, q: char, rest: string, base: nat, vals: seq<Arg>)
    requires (q == '"' || q == '\'') && (rest == "" || rest[0] != q)
    ensures Filled(Quote(text, q) + rest, base, vals) == Bytes(Quote(text, q)) + Filled(rest, base, vals)
  {
    var s := Quote(text, q) + rest;
    QuotedTailDoubled(text, q, rest);
    assert s[1..] == Doubled(text, q) + [q] + rest;
    assert s[..|Quote(text, q)|] == Quote(text, q);
    assert s[|Quote(text, q)|..] == rest;
  }

  lemma {:induction false} BytesFill(w: string, rest: string, base: nat, vals: seq<Arg>)
    requires forall i :: 0 <= i < |w| ==> PlainByte(w[i])
    ensures Filled(w + rest, base, vals) == Bytes(w) + Filled(rest, base, vals)
    decreases |w|
  {
    hide Filled, Bytes;
    if w == "" {
      assert w + rest == rest;
      NoBytes();
    } else {
      BytesFill(w[1..], rest, base, vals);
      assert w + rest == [w[0]] + (w[1..] + rest);
      ByteFills(w[0], w[1..] + rest, base, vals);
      FirstByte(w);
    }
  }

  lemma {:induction false} NoBytes()
    ensures Bytes("") == []
  {
  }

  lemma {:induction false} FirstByte(w: string)
    requires w != ""
    ensures Bytes(w) == [Byte(w[0])] + Bytes(w[1..])
  {
  }

  lemma {:induction false} ByteFills(c: char, rest: string, base: nat, vals: seq<Arg>)
    requires PlainByte(c)
    ensures Filled([c] + rest, base, vals) == [Byte(c)] + Filled(rest, base, vals)
  {
    var s := [c] + rest;
    assert s[1..] == rest && s[..1] == [c];
    assert Bytes([c]) == [Byte(c)];
  }

  lemma {:induction false} WithinComplete(ls: seq<Lexeme>, base: nat, vals: seq<Arg>)
    requires Clean(ls) && Within(ls, base, |vals|)
    ensures Complete(Filled(SqlText.Text(ls), base, vals))
  {
    FilledText(ls, base, vals);
    WithinCompleteLexemes(ls, base, vals);
  }

  lemma {:induction false} WithinCompleteLexemes(ls: seq<Lexeme>, base: nat, vals: seq<Arg>)
    requires Within(ls, base, |vals|)
    ensures Complete(FilledLexemes(ls, base, vals))
    decreases |ls|
  {
    if |ls| > 0 {
      WithinCompleteLexemes(ls[1..], base, vals);
    }
  }

  // ---------------------------------------------------------------- clause builders

  function Texts(ids: seq<string>): seq<Arg> { seq(|ids|, i requires 0 <= i < |ids| => TextArg(ids[i])) }

  /** $n, $n+1, ... joined by ", ". */
  function Markers(n: nat, k: nat): seq<Lexeme> {
    if k == 0 then [] else (if k == 1 then [] else Markers(n, k - 1) + [Comma, Sp]) + [Param(n + k - 1)]
  }

  function InClause(column: seq<Lexeme>, n: nat, k: nat): seq<Lexeme> {
    [Word("CAST"), LP] + column + [Sp, Word("AS"), Sp, Word("VARCHAR"), RP, Sp, Word("IN"), Sp, LP] +
      Markers(n, k) + [RP]
  }

  /** FeatureIDPredicate: ids stay arguments, whatever they look like; the list asks for as many
      placeholders, from `start` on. */
  method FeatureIDPredicate(ids: seq<string>, column: seq<Lexeme>, start: nat)
    returns (sql: seq<Lexeme>, values: seq<Arg>, end: nat)
    ensures sql == InClause(column, start, |ids|) && values == Texts(ids) && end == start + |values|
  {
    var markers := [];
    values := [];
    for i := 0 to |ids|
      invariant markers == Markers(start, i)
      invariant |values| == i && forall j :: 0 <= j < i ==> values[j] == TextArg(ids[j])
    {
      markers := (if i == 0 then [] else markers + [Comma, Sp]) + [Param(start + i)];
      values := values + [TextArg(ids[i])];
    }
    sql := [Word("CAST"), LP] + column + [Sp, Word("AS"), Sp, Word("VARCHAR"), RP, Sp, Word("IN"), Sp, LP] +
      markers + [RP];
    end := start + |ids|;
  }

  datatype BBox = BBox(minX: real, minY: real, maxX: real, maxY: real) {
    /** West > east in CRS84 crosses the antimeridian and stands for two ordinary boxes. */
    function Parts(srid: nat): seq<BBox> {
      if srid == 4326 && minX > maxX then [BBox(minX, minY, 180.0, maxY), BBox(-180.0, minY, maxX, maxY)] else [this]
    }

    predicate Contains(x: real, y: real) { minX <= x <= maxX && minY <= y <= maxY }
  }

  /** The parts cover exactly the wrapped box: on the globe's longitudes, east of west or west of east. */
  lemma PartsCoverWrappedBox(b: BBox, x: real, y: real)
    requires -180.0 <= x <= 180.0
    ensures (exists p :: p in b.Parts(4326) && p.Contains(x, y)) <==>
            b.minY <= y <= b.maxY && if b.minX > b.maxX then x >= b.minX || x <= b.maxX else b.minX <= x <= b.maxX
  {
    var parts := b.Parts(4326);
    if b.minX > b.maxX {
      var east, west := BBox(b.minX, b.minY, 180.0, b.maxY), BBox(-180.0, b.minY, b.maxX, b.maxY);
      assert parts == [east, west];
      assert east in parts && west in parts;
      assert forall p :: p in parts ==> p == east || p == west;
    } else {
      assert parts == [b];
      assert b in parts && forall p :: p in parts ==> p == b;
    }
  }

  function Corners(b: BBox): seq<Arg> { [NumArg(b.minX), NumArg(b.minY), NumArg(b.maxX), NumArg(b.maxY)] }

  function CornersOf(bs: seq<BBox>): seq<Arg> {
    if |bs| == 0 then [] else CornersOf(bs[..|bs| - 1]) + Corners(bs[|bs| - 1])
  }

  function Envelope4(n: nat): seq<Lexeme> {
    [Word("ST_MakeEnvelope"), LP, Param(n), Comma, Sp, Param(n + 1), Comma, Sp, Param(n + 2),
      Comma, Sp, Param(n + 3), RP]
  }

  function BoxClause(geom: seq<Lexeme>, sourceSRID: nat, srid: nat, n: nat): seq<Lexeme> {
    var envelope :=
      if sourceSRID != 0 && sourceSRID != srid then
        [Word("ST_Transform"), LP] + Envelope4(n) + ReprojectTail(srid, sourceSRID)
      else Envelope4(n);
    [Word("ST_Intersects"), LP] + geom + [Comma, Sp] + envelope + [RP]
  }

  /** The clauses of k boxes, joined by OR. */
  function BoxClauses(geom: seq<Lexeme>, sourceSRID: nat, srid: nat, n: nat, k: nat): seq<Lexeme> {
    if k == 0 then []
    else (if k == 1 then [] else BoxClauses(geom, sourceSRID, srid, n, k - 1) + [Sp, Word("OR"), Sp]) +
         BoxClause(geom, sourceSRID, srid, n + 4 * (k - 1))
  }

  /** DuckDBBBoxPredicate */
  method DuckDBBBoxPredicate(geom: seq<Lexeme>, sourceSRID: nat, bboxSRID: nat, start: nat, bbox: BBox)
    returns (sql: seq<Lexeme>, values: seq<Arg>, end: nat)
    ensures var srid := if bboxSRID == 0 then 4326 else bboxSRID;
            var parts := bbox.Parts(srid);
            && sql == [LP] + BoxClauses(geom, sourceSRID, srid, start, |parts|) + [RP]
            && values == CornersOf(parts) && end == start + |values|
  {
    var srid := if bboxSRID == 0 then 4326 else bboxSRID;
    var parts := bbox.Parts(srid);
    var clauses := [];
    values := [];
    end := start;
    for i := 0 to |parts|
      invariant clauses == BoxClauses(geom, sourceSRID, srid, start, i)
      invariant values == CornersOf(parts[..i]) && |values| == 4 * i && end == start + 4 * i
    {
      assert parts[..i + 1][..i] == parts[..i];
      clauses := (if i == 0 then [] else clauses + [Sp, Word("OR"), Sp]) + BoxClause(geom, sourceSRID, srid, end);
      values := values + Corners(parts[i]);
      end := end + 4;
    }
    assert parts[..|parts|] == parts;
    sql := [LP] + clauses + [RP];
  }

  function LimitClause(n: nat): seq<Lexeme> { [Word("LIMIT"), Sp, Param(n), Sp, Word("OFFSET"), Sp, Param(n + 1)] }

  // ---------------------------------------------------------------- the clauses are clean

  /** A trusted piece of adapter SQL: clean, not empty, and without placeholders. */
  predicate Trusted(ls: seq<Lexeme>) { |ls| > 0 && Clean(ls) && forall i :: 0 <= i < |ls| ==> !ls[i].Param? }

  lemma {:induction false} MarkersClean(n: nat, k: nat)
    ensures Clean(Markers(n, k)) && Within(Markers(n, k), n, k)
    ensures k > 0 ==> |Markers(n, k)| > 0
    decreases k
  {
    if k > 1 {
      MarkersClean(n, k - 1);
      CleanConcat(Markers(n, k - 1), [Comma, Sp]);
      CleanConcat(Markers(n, k - 1) + [Comma, Sp], [Param(n + k - 1)]);
    }
  }

  lemma {:induction false} ClauseWords()
    ensures IsWord("CAST") && IsWord("AS") && IsWord("VARCHAR") && IsWord("IN") && IsWord("OR")
  {
  }

  lemma {:induction false} BoxWords()
    ensures IsWord("ST_Intersects") && IsWord("ST_MakeEnvelope") && IsWord("ST_Transform")
            && IsWord("always_xy") && IsWord("true")
  {
  }

  /** The fixed parts of the clauses are clean. */
  lemma {:induction false} PartsClean()
    ensures Clean([Word("CAST"), LP]) && Clean([Sp, Word("AS"), Sp, Word("VARCHAR"), RP, Sp, Word("IN"), Sp, LP])
    ensures Clean([Word("ST_Intersects"), LP]) && Clean([Word("ST_Transform"), LP])
    ensures Clean([Comma, Sp]) && Clean([RP]) && Clean([LP]) && Clean([Sp, Word("OR"), Sp]) && Clean([])
  {
    hide IsWord;
    ClauseWords();
    BoxWords();
  }

  lemma {:induction false} InClauseClean(column: seq<Lexeme>, n: nat, k: nat)
    requires Trusted(column)
    ensures Clean(InClause(column, n, k)) && Within(InClause(column, n, k), n, k)
  {
    hide Markers, Clean, IsWord;
    MarkersClean(n, k);
    PartsClean();
    var mid := [Sp, Word("AS"), Sp, Word("VARCHAR"), RP, Sp, Word("IN"), Sp, LP];
    CleanConcat([Word("CAST"), LP], column);
    CleanConcat([Word("CAST"), LP] + column, mid);
    CleanConcat([Word("CAST"), LP] + column + mid, Markers(n, k));
    CleanConcat([Word("CAST"), LP] + column + mid + Markers(n, k), [RP]);
  }

  lemma {:induction false} EnvelopeClean(sourceSRID: nat, srid: nat, n: nat)
    ensures Clean([Word("ST_Transform"), LP] + Envelope4(n) + ReprojectTail(srid, sourceSRID)) && Clean(Envelope4(n))
  {
    hide Itoa, IsWord, Clean;
    PartsClean();
    FourClean(n);
    TailClean(srid, sourceSRID);
    CleanConcat([Word("ST_Transform"), LP], Envelope4(n));
    CleanConcat([Word("ST_Transform"), LP] + Envelope4(n), ReprojectTail(srid, sourceSRID));
  }

  lemma {:induction false} FourClean(n: nat)
    ensures Clean(Envelope4(n))
  {
    hide IsWord;
    BoxWords();
  }

  lemma {:induction false} TailClean(srid: nat, sourceSRID: nat)
    ensures Clean(ReprojectTail(srid, sourceSRID))
  {
    hide Itoa, IsWord;
    BoxWords();
  }

  lemma {:induction false} BoxClauseClean(geom: seq<Lexeme>, sourceSRID: nat, srid: nat, n: nat)
    requires Trusted(geom)
    ensures var c := BoxClause(geom, sourceSRID, srid, n);
            Clean(c) && Within(c, n, 4) && |c| > 0 && Open(c[|c| - 1])
  {
    hide Clean, Itoa, IsWord;
    EnvelopeClean(sourceSRID, srid, n);
    PartsClean();
    var moved := [Word("ST_Transform"), LP] + Envelope4(n) + ReprojectTail(srid, sourceSRID);
    var envelope := if sourceSRID != 0 && sourceSRID != srid then moved else Envelope4(n);
    assert Within(Envelope4(n), n, 4) && Within(ReprojectTail(srid, sourceSRID), n, 4) && Within(envelope, n, 4);
    CleanConcat([Word("ST_Intersects"), LP], geom);
    CleanConcat([Word("ST_Intersects"), LP] + geom, [Comma, Sp]);
    CleanConcat([Word("ST_Intersects"), LP] + geom + [Comma, Sp], envelope);
    CleanConcat([Word("ST_Intersects"), LP] + geom + [Comma, Sp] + envelope, [RP]);
  }

  lemma {:induction false} WithinConcat(a: seq<Lexeme>, b: seq<Lexeme>, n: nat, k: nat)
    requires Within(a, n, k) && Within(b, n, k)
    ensures Within(a + b, n, k)
  {
  }

  lemma {:induction false} BoxClausesClean(geom: seq<Lexeme>, sourceSRID: nat, srid: nat, n: nat, k: nat)
    requires Trusted(geom)
    ensures var c := BoxClauses(geom, sourceSRID, srid, n, k);
            Clean(c) && Within(c, n, 4 * k) && (|c| > 0 ==> Open(c[|c| - 1]))
    decreases k
  {
    hide Clean, BoxClause, Trusted;
    PartsClean();
    if k > 0 {
      BoxClauseClean(geom, sourceSRID, srid, n + 4 * (k - 1));
      var last := BoxClause(geom, sourceSRID, srid, n + 4 * (k - 1));
      var join := [Sp, Word("OR"), Sp];
      assert Within(last, n, 4 * k) && Within(join, n, 4 * k);
      if k == 1 {
        assert [] + last == last;
      } else {
        BoxClausesClean(geom, sourceSRID, srid, n, k - 1);
        var before := BoxClauses(geom, sourceSRID, srid, n, k - 1);
        assert Within(before, n, 4 * k);
        AppendClean(before, join, last, n, 4 * k);
      }
    }
  }

  lemma {:induction false} AppendClean(a: seq<Lexeme>, join: seq<Lexeme>, b: seq<Lexeme>, n: nat, k: nat)
    requires Clean(a) && Clean(join) && Clean(b) && |join| > 0 && Open(join[0]) && Open(join[|join| - 1])
    requires |b| > 0 && Open(b[|b| - 1]) && Within(a, n, k) && Within(join, n, k) && Within(b, n, k)
    ensures var c := a + join + b; Clean(c) && Within(c, n, k) && |c| > 0 && Open(c[|c| - 1])
  {
    hide Clean, Within;
    CleanConcat(a, join);
    CleanConcat(a + join, b);
    WithinConcat(a, join, n, k);
    WithinConcat(a + join, b, n, k);
  }

  // ---------------------------------------------------------------- the query under construction

  /** A query's filter: one its SQLPredicate just compiled (None is its error), or a stored text. */
  datatype QueryFilter =
    | Deferred(outcome: Option<string>, values: seq<Arg>)
    | Stored(compiled: string, offset: int, values: seq<Arg>)
  {
    /** What a SQLPredicate owes its caller: placeholders from `next` on, one for each value. */
    ghost predicate Meets(next: nat) {
      match this
      case Deferred(outcome, values) => outcome.Some? ==> Complete(Filled(outcome.value, next, values))
      case Stored(_, _, values) => 1 <= next && next + |values| <= MAX_INT + 1
    }

    ghost predicate Empty() { if Deferred? then outcome.Some? && outcome.value == "" else IsBlank(compiled) }

    ghost predicate Usable(next: nat) {
      match this
      case Deferred(outcome, _) => outcome.Some?
      case Stored(compiled, offset, values) =>
        IsBlank(compiled) || Rebased(compiled, From(offset), next, |values|).Some?
    }

    /** The clause with its own values in: for a stored text, as it was compiled. */
    ghost function Says(next: nat): seq<Bit>
      requires Usable(next)
    {
      match this
      case Deferred(outcome, values) => Filled(outcome.value, next, values)
      case Stored(compiled, offset, values) => Filled(compiled, From(offset), values)
    }
  }

  /** Every compiled filter meets that: its placeholders are its own, and complete. */
  lemma {:induction false} CompiledIsComplete(t: Target, e: Expr, n: nat)
    requires ValidExpr(t.opt, e) && TrustedGeometry(t) && PlainGeometry(t)
    ensures Clean(Emit(t, e, n)) && SqlText.Text(Emit(t, e, n)) != ""
    ensures Complete(Filled(SqlText.Text(Emit(t, e, n)), n, Args(t, e)))
  {
    hide Emit, Args, ValidExpr, Clean, Strip, GeometrySqlOk, Filled, PlainGeometry, Numbered, Within, ToksExpr, Names;
    PlaceholdersInOrder(t, e, n);
    NumberedWithin(Emit(t, e, n), n, |Args(t, e)|, Names(t));
    ExprWrites(t, e, n, Nil);
    WithinComplete(Emit(t, e, n), n, Args(t, e));
    TextNotEmpty(Emit(t, e, n));
  }

  lemma {:induction false} TextNotEmpty(ls: seq<Lexeme>)
    requires Clean(ls) && |ls| > 0
    ensures SqlText.Text(ls) != ""
  {
    ApartDetached(Sp, ls[0], "");
  }

  lemma {:induction false} AcceptedIsComplete(t: Target, n: nat, cql: string)
    requires TrustedGeometry(t) && PlainGeometry(t) && !IsBlank(cql) && CompileFilter(t, n, cql).Accepted?
    ensures var r := CompileFilter(t, n, cql);
            && Clean(r.sql) && SqlText.Text(r.sql) != "" && r.next == n + |r.args|
            && Complete(Filled(SqlText.Text(r.sql), n, r.args))
  {
    hide Emit, Args, ValidExpr, TrustedGeometry, PlainGeometry, Clean, Filled;
    var e := ParseFilter(t.opt, Lex(cql, 0)).value;
    LexCanonical(cql, 0);
    GrammarExact(t.opt, Lex(cql, 0), e);
    CompiledIsComplete(t, e, n);
  }

  /** A predicate that compiles its filter with one of the two compilers keeps the SQLPredicate contract. */
  lemma {:induction false} CompiledMeets(t: Target, n: nat, cql: string)
    requires TrustedGeometry(t) && PlainGeometry(t)
    ensures var r := CompileFilter(t, n, cql);
            (if r.Accepted? then Deferred(Some(SqlText.Text(r.sql)), r.args) else Deferred(None, [])).Meets(n)
  {
    hide Emit, Args, ParseFilter, TrustedGeometry, PlainGeometry;
    if CompileFilter(t, n, cql).Accepted? {
      if IsBlank(cql) {
        assert Filled("", n, []) == [];
      } else {
        AcceptedIsComplete(t, n, cql);
      }
    }
  }

  /** The `where`, `args` and `next` that the builders share. */
  class Query {
    var where: seq<string>
    var args: seq<Arg>
    var next: nat
    ghost var said: seq<seq<Bit>>   // every clause with its own values in

    ghost predicate Valid()
      reads this
    {
      && next == |args| + 1
      && |said| == |where|
      && forall i :: 0 <= i < |where| ==> Filled(where[i], 1, args) == said[i] && Complete(said[i])
    }

    constructor ()
      ensures Valid() && where == [] && args == [] && said == [] && next == 1
    {
      where, args, next, said := [], [], 1, [];
    }

    /** A complete clause is appended: it keeps its own values and no earlier clause changes. */
    method Append(text: string, values: seq<Arg>)
      requires Valid() && Complete(Filled(text, next, values))
      modifies this
      ensures Valid()
      ensures where == old(where) + [text] && args == old(args) + values
      ensures said == old(said) + [Filled(text, old(next), values)]
    {
      var args' := args + values;
      forall i | 0 <= i < |where| ensures Filled(where[i], 1, args') == said[i] {
        assert args'[..|args|] == args;
        FilledWider(where[i], 1, args, args');
      }
      assert args'[next - 1..next - 1 + |values|] == values;
      FilledWider(text, next, values, args');
      where := where + [text];
      said := said + [Filled(text, next, values)];
      args := args';
      next := next + |values|;
    }

    method AppendFeatureIds(ids: seq<string>, column: seq<Lexeme>)
      requires Valid() && Trusted(column)
      modifies this
      ensures Valid() && args == old(args) + Texts(ids)
      ensures where == old(where) + [SqlText.Text(InClause(column, old(next), |ids|))]
      ensures said == old(said) + [FilledLexemes(InClause(column, old(next), |ids|), old(next), Texts(ids))]
    {
      var sql, values, end := FeatureIDPredicate(ids, column, next);
      InClauseClean(column, next, |ids|);
      WithinComplete(sql, next, values);
      FilledText(sql, next, values);
      Append(SqlText.Text(sql), values);
    }

    method AppendBBox(geom: seq<Lexeme>, sourceSRID: nat, bboxSRID: nat, bbox: BBox)
      requires Valid() && Trusted(geom)
      modifies this
      ensures Valid()
      ensures var srid := if bboxSRID == 0 then 4326 else bboxSRID;
              var parts := bbox.Parts(srid);
              && args == old(args) + CornersOf(parts)
              && where == old(where) +
                 [SqlText.Text([LP] + BoxClauses(geom, sourceSRID, srid, old(next), |parts|) + [RP])]
              && said == old(said) +
                 [FilledLexemes([LP] + BoxClauses(geom, sourceSRID, srid, old(next), |parts|) + [RP],
                                old(next), CornersOf(parts))]
    {
      hide Clean, Filled, FilledLexemes, IsWord, BoxClauses, CornersOf;
      var sql, values, end := DuckDBBBoxPredicate(geom, sourceSRID, bboxSRID, next, bbox);
      var srid := if bboxSRID == 0 then 4326 else bboxSRID;
      var inner := BoxClauses(geom, sourceSRID, srid, next, |bbox.Parts(srid)|);
      BoxClausesClean(geom, sourceSRID, srid, next, |bbox.Parts(srid)|);
      PartsClean();
      CleanConcat([LP], inner);
      CleanConcat([LP] + inner, [RP]);
      CornersLength(bbox.Parts(srid));
      WithinComplete(sql, next, values);
      FilledText(sql, next, values);
      Append(SqlText.Text(sql), values);
    }

    /** AppendQueryPredicate: a deferred predicate has just been compiled at `next`, a stored one is
        rebased to it; a failure or an empty text leaves the query as it was. */
    method AppendQueryPredicate(p: QueryFilter) returns (ok: bool)
      requires Valid() && p.Meets(next)
      modifies this
      ensures Valid()
      ensures ok == p.Usable(old(next))
      ensures ok && !p.Empty() ==> args == old(args) + p.values && said == old(said) + [p.Says(old(next))]
      ensures !ok || p.Empty() ==> where == old(where) && args == old(args) && said == old(said)
    {
      match p {
        case Deferred(outcome, values) =>
          if outcome.Some? && outcome.value != "" {
            Append(outcome.value, values);
          }
          return outcome.Some?;
        case Stored(compiled, offset, values) =>
          if IsBlank(compiled) {
            return true;
          }
          var sql := RebaseParameters(compiled, offset, next, |values|);
          if sql.Some? {
            RebaseKeepsValues(compiled, From(offset), next, values);
            Append(sql.value, values);
          }
          return sql.Some?;
      }
    }

    /** The adapters' own filter: compiled at `next` and appended with its arguments, or refused without effect. */
    method AppendFilter(d: Dialect, options: RawOptions, cql: string) returns (ok: bool)
      requires Valid() && TrustedGeometry(TargetOf(d, options)) && PlainGeometry(TargetOf(d, options))
      modifies this
      ensures Valid()
      ensures var r := CompileFilter(TargetOf(d, options), old(next), cql);
              && ok == r.Accepted?
              && (ok && !IsBlank(cql) ==>
                    && where == old(where) + [SqlText.Text(r.sql)] && args == old(args) + r.args && next == r.next
                    && said == old(said) + [FilledLexemes(r.sql, old(next), r.args)])
              && (!ok || IsBlank(cql) ==> where == old(where) && args == old(args) && said == old(said))
    {
      hide Clean, Filled, FilledLexemes, IsBlank, ParseFilter, Emit, Args, TrustedGeometry, PlainGeometry, Lex;
      var here := options.(start := next);
      ghost var t := TargetOf(d, options);
      assert TargetOf(d, here) == t && StartIndex(here) == next;
      var r;
      if d.PostGIS? {
        r := PostgisCompiler.Compile(cql, here);
      } else {
        r := DuckdbCompiler.CompileForDuckDB(cql, here);
      }
      if r.Rejected? {
        return false;
      }
      var text := SqlText.Text(r.sql);
      if !IsBlank(cql) {
        AcceptedIsComplete(t, next, cql);
        FilledText(r.sql, next, r.args);
      } else {
        assert text == "";
      }
      if text != "" {
        Append(text, r.args);
      }
      return true;
    }

    /** LimitOffsetClause: the last clause; it binds two more arguments and leaves `next` behind. */
    method LimitOffset(limit: int, offset: int) returns (text: string)
      requires Valid()
      modifies this`args
      ensures args == old(args) + [NumArg(limit as real), NumArg(offset as real)]
      ensures Filled(text, 1, args) ==
              FilledLexemes(LimitClause(next), next, [NumArg(limit as real), NumArg(offset as real)])
      ensures Complete(Filled(text, 1, args))
      ensures forall i :: 0 <= i < |where| ==> Filled(where[i], 1, args) == said[i]
    {
      hide Clean, Filled, FilledLexemes, IsWord;
      var values := [NumArg(limit as real), NumArg(offset as real)];
      var sql := LimitClause(next);
      text := SqlText.Text(sql);
      LimitClean(next);
      WithinComplete(sql, next, values);
      FilledText(sql, next, values);
      var args' := args + values;
      assert args'[next - 1..next - 1 + |values|] == values;
      FilledWider(text, next, values, args');
      forall i | 0 <= i < |where| ensures Filled(where[i], 1, args') == said[i] {
        assert args'[..|args|] == args;
        FilledWider(where[i], 1, args, args');
      }
      args := args';
    }
  }

  lemma {:induction false} LimitClean(n: nat)
    ensures Clean(LimitClause(n)) && Within(LimitClause(n), n, 2)
  {
  }

  lemma {:induction false} CornersLength(bs: seq<BBox>)
    ensures |CornersOf(bs)| == 4 * |bs|
    decreases |bs|
  {
    if |bs| > 0 {
      CornersLength(bs[..|bs| - 1]);
    }
  }

  /** A rebased predicate is never empty, so the source's test for an empty text always appends it. */
  lemma {:induction false} RebasedNotEmpty(s: string, from: int, to: nat, count: nat)
    requires s != "" && Rebased(s, from, to, count).Some?
    ensures Rebased(s, from, to, count).value != ""
  {
    FirstByteKept(s, from, to, count);
  }

  // ---------------------------------------------------------------- the WHERE clause

  function JoinAnd(clauses: seq<string>): string
    requires |clauses| > 0
  {
    if |clauses| == 1 then clauses[0] else JoinAnd(clauses[..|clauses| - 1]) + " AND " + clauses[|clauses| - 1]
  }

  function WhereClause(predicates: seq<string>): string {
    if |predicates| == 0 then "" else "WHERE " + JoinAnd(predicates)
  }

  function Conjunction(trees: seq<Sql>): Sql
    requires |trees| > 0
  {
    if |trees| == 1 then trees[0] else QAnd(Conjunction(trees[..|trees| - 1]), trees[|trees| - 1])
  }

  /** Clean SQL that reads as one tree wherever a condition may stand. */
  ghost predicate ReadsAs(ls: seq<Lexeme>, e: Sql) {
    |ls| > 0 && Clean(ls) && forall k :: EndsTest(k) ==> Reads(Strip(ls, k), e, k)
  }

  lemma {:induction false} FilterReadsAs(t: Target, e: Expr, n: nat)
    requires TrustedGeometry(t) && ValidExpr(t.opt, e)
    ensures ReadsAs(Emit(t, e, n), Tree(t, e, n))
  {
    hide Emit, Tree, ToksExpr, ValidExpr, GeometrySqlOk, Reads;
    ExprWrites(t, e, n, Nil);
    forall k | EndsTest(k) ensures Reads(Strip(Emit(t, e, n), k), Tree(t, e, n), k) {
      ExprWrites(t, e, n, k);
      ExprReads(t, e, n, k);
    }
  }

  /** Joined by AND, clauses keep to themselves: the database reads their conjunction, whatever
      operators each of them holds. */
  lemma {:induction false} WhereReadsAsConjunction(clauses: seq<seq<Lexeme>>, trees: seq<Sql>)
    requires |clauses| == |trees| > 0 && forall i :: 0 <= i < |clauses| ==> ReadsAs(clauses[i], trees[i])
    ensures var where := WhereClause(seq(|clauses|, i requires 0 <= i < |clauses| => SqlText.Text(clauses[i])));
            "WHERE " <= where && ReadSql(where[6..]) == Some(Conjunction(trees))
  {
    hide ReadExpr, Reads, Strip, Clean;
    var texts := seq(|clauses|, i requires 0 <= i < |clauses| => SqlText.Text(clauses[i]));
    assert WhereClause(texts)[6..] == JoinAnd(texts);
    var ls := JoinedReads(clauses, trees, texts);
    TextReads(ls);
    assert ReadExpr(1, Strip(ls, Nil)) == Climb(1, Conjunction(trees), Nil);
  }

  lemma {:induction false} JoinedReads(clauses: seq<seq<Lexeme>>, trees: seq<Sql>, texts: seq<string>)
      returns (ls: seq<Lexeme>)
    requires |clauses| == |trees| == |texts| > 0
    requires forall i :: 0 <= i < |clauses| ==> ReadsAs(clauses[i], trees[i]) && texts[i] == SqlText.Text(clauses[i])
    ensures |ls| > 0 && Clean(ls) && SqlText.Text(ls) == JoinAnd(texts)
    ensures forall k :: EndsConjunct(k) ==> ReadExpr(1, Strip(ls, k)) == Climb(1, Conjunction(trees), k)
    decreases |clauses|
  {
    hide Strip, Clean, ReadExpr, Climb, Reads, EndsTest;
    var m := |clauses| - 1;
    if m == 0 {
      ls := clauses[0];
      forall k | EndsConjunct(k) ensures ReadExpr(1, Strip(ls, k)) == Climb(1, Conjunction(trees), k) {
        LoneConjunct(ls, trees[0], k);
      }
    } else {
      var front := JoinedReads(clauses[..m], trees[..m], texts[..m]);
      var join := [Sp, Word("AND"), Sp];
      ls := front + join + clauses[m];
      JoinClean(front, join, clauses[m]);
      TextConcat(front + join, clauses[m]);
      TextConcat(front, join);
      AndText();
      forall k | EndsConjunct(k) ensures ReadExpr(1, Strip(ls, k)) == Climb(1, Conjunction(trees), k) {
        NextConjunct(front, Conjunction(trees[..m]), clauses[m], trees[m], k);
      }
    }
  }

  lemma {:induction false} LoneConjunct(ls: seq<Lexeme>, e: Sql, k: Toks)
    requires ReadsAs(ls, e) && EndsConjunct(k)
    ensures ReadExpr(1, Strip(ls, k)) == Climb(1, e, k)
  {
    hide Strip, Clean, ReadExpr, Climb;
    assert Reads(Strip(ls, k), e, k);
  }

  predicate EndsConjunct(k: Toks) { k.Nil? || k.head == SAnd }

  lemma {:induction false} AndText()
    ensures SqlText.Text([Sp, Word("AND"), Sp]) == " AND " && Clean([Sp, Word("AND"), Sp]) && TokOf(Word("AND")) == SAnd
  {
    assert [Sp, Word("AND"), Sp][1..] == [Word("AND"), Sp] && [Word("AND"), Sp][1..] == [Sp] && [Sp][1..] == [];
  }

  lemma {:induction false} JoinClean(a: seq<Lexeme>, join: seq<Lexeme>, b: seq<Lexeme>)
    requires Clean(a) && Clean(b) && join == [Sp, Word("AND"), Sp]
    ensures Clean(a + join + b)
  {
    hide Clean;
    AndText();
    CleanConcat(a, join);
    CleanConcat(a + join, b);
  }

  /** One more clause behind a conjunction. */
  lemma {:induction false} NextConjunct(front: seq<Lexeme>, l: Sql, last: seq<Lexeme>, r: Sql, k: Toks)
    requires forall k :: EndsConjunct(k) ==> ReadExpr(1, Strip(front, k)) == Climb(1, l, k)
    requires ReadsAs(last, r) && EndsConjunct(k)
    ensures ReadExpr(1, Strip(front + [Sp, Word("AND"), Sp] + last, k)) == Climb(1, QAnd(l, r), k)
  {
    hide Strip, Clean, ReadExpr, Climb;
    var join := [Sp, Word("AND"), Sp];
    StripConcat(front + join, last, k);
    StripConcat(front, join, Strip(last, k));
    Strip3(Sp, Word("AND"), Sp, Strip(last, k));
    AndText();
    assert Reads(Strip(last, k), r, k);
    ClimbsAnd(l, Strip(last, k), r, k);
  }

  lemma {:induction false} ClimbsAnd(l: Sql, ts: Toks, r: Sql, k: Toks)
    requires Reads(ts, r, k) && EndsConjunct(k)
    ensures Climb(1, l, Tok(SAnd, ts)) == Climb(1, QAnd(l, r), k)
  {
    hide ReadPrimary, ReadTest;
    assert ReadExpr(3, ts) == Climb(3, r, k) == Got(r, k);
  }
}
