/** From lexemes to bytes and back: text made of cleanly separated lexemes is read by the
    database as exactly those lexemes, so nothing inside an identifier or literal leaks out. */
module SqlLexing {
  import opened Base
  import opened Lexing
  import opened Scanning
  import opened SqlText
  import opened SqlReading
  import opened SqlFidelity

  predicate IsSqlWordChar(c: char) { IsAlpha(c) || IsDigit(c) || c == '_' }

  // ---------------------------------------------------------------- the database's lexer

  datatype First = First(tok: SqlTok, len: nat)

  /** The token at the front of s, which is not a space. */
  function FirstToken(s: string): (r: First)
    requires s != ""
    ensures 0 < r.len <= |s|
  {
    var two := if |s| > 1 then s[..2] else "";
    if s[0] == '(' then First(SLp, 1)
    else if s[0] == ')' then First(SRp, 1)
    else if s[0] == ',' then First(SComma, 1)
    else if s[0] == '"' then
      (match QuotedBody(s, 1, '"')
       case Closed(text, end) => First(SIdent(text), end)
       case Unterminated => First(SBad, |s|))
    else if s[0] == '\'' then
      (match QuotedBody(s, 1, '\'')
       case Closed(text, end) => First(SStr(text), end)
       case Unterminated => First(SBad, |s|))
    else if s[0] == '$' then
      var e := RunEnd(s, 1, IsDigit);
      if e == 1 then First(SBad, 1) else First(SParam(Atoi(s[1..e])), e)
    else if IsDigit(s[0]) then First(SInt(Atoi(s[..RunEnd(s, 0, IsDigit)])), RunEnd(s, 0, IsDigit))
    else if IsAlpha(s[0]) || s[0] == '_' then
      var e := RunEnd(s, 1, IsSqlWordChar);
      First(WordTok(s[..e]), e)
    else if two in {"<=", "<>", ">=", "::", ":="} then First(OpTok(two), 2)
    else First(OpTok(s[..1]), 1)
  }

  function LexSql(s: string): Toks
    decreases |s|
  {
    if s == "" then Nil
    else if s[0] == ' ' then LexSql(s[1..])
    else Tok(FirstToken(s).tok, LexSql(s[FirstToken(s).len..]))
  }

  // ---------------------------------------------------------------- clean lexeme sequences

  predicate IsWord(w: string) {
    |w| > 0 && !IsDigit(w[0]) && forall i :: 0 <= i < |w| ==> IsSqlWordChar(w[i])
  }

  predicate WellFormed(l: Lexeme) {
    match l
    case Op(op) => op in {"=", "<>", "<", ">", "<=", ">=", "+", "-", "*", "/", "::", ":=", "."}
    case Word(w) => IsWord(w)
    case _ => true
  }

  predicate Tight(l: Lexeme) { l.Word? || l.Int? || l.Param? }

  /** Two neighbours that cannot run together. */
  predicate Apart(a: Lexeme, b: Lexeme) {
    && !(Tight(a) && Tight(b)) && !(a.Op? && b.Op?)
    && !(a.Quoted? && b.Quoted?) && !(a.Str? && b.Str?)
  }

  predicate Clean(ls: seq<Lexeme>) {
    && (forall i :: 0 <= i < |ls| ==> WellFormed(ls[i]))
    && (forall i :: 0 < i < |ls| ==> Apart(ls[i - 1], ls[i]))
  }

  /** Nothing runs into a space or a punctuation mark. */
  predicate Open(l: Lexeme) { l.Sp? || l.LP? || l.RP? || l.Comma? }

  lemma {:induction false} CleanConcat(a: seq<Lexeme>, b: seq<Lexeme>)
    requires Clean(a) && Clean(b)
    requires |a| > 0 && |b| > 0 ==> Open(a[|a| - 1]) || Open(b[0])
    ensures Clean(a + b)
  {
  }

  // ---------------------------------------------------------------- reading one lexeme

  /** The text after l does not extend it. */
  predicate Detached(l: Lexeme, rest: string) {
    rest == "" ||
    match l
    case Op(_) => rest[0] !in {'=', '>', ':'}
    case Word(_) => !IsSqlWordChar(rest[0])
    case Int(_) => !IsDigit(rest[0])
    case Param(_) => !IsDigit(rest[0])
    case Quoted(_) => rest[0] != '"'
    case Str(_) => rest[0] != '\''
    case _ => true
  }

  lemma {:induction false} NumeralFirst(pre: string, n: nat, rest: string)
    requires rest == "" || !IsDigit(rest[0])
    ensures var s := pre + Itoa(n) + rest;
            RunEnd(s, |pre|, IsDigit) == |pre| + |Itoa(n)| && s[|pre|..|pre| + |Itoa(n)|] == Itoa(n)
              && Atoi(Itoa(n)) == n
  {
    var s := pre + Itoa(n) + rest;
    AtoiItoa(n);
    assert forall k :: |pre| <= k < |pre| + |Itoa(n)| ==> s[k] == Itoa(n)[k - |pre|];
    RunStops(s, |pre|, |pre| + |Itoa(n)|, IsDigit);
  }

  lemma {:induction false} IntFirst(n: nat, rest: string)
    requires rest == "" || !IsDigit(rest[0])
    ensures FirstToken(Itoa(n) + rest) == First(SInt(n), |Itoa(n)|)
  {
    hide QuotedBody, RunEnd, WordTok, OpTok, Itoa, Atoi;
    NumeralFirst("", n, rest);
    var s := Itoa(n) + rest;
    assert "" + Itoa(n) + rest == s;
    assert s[..|Itoa(n)|] == Itoa(n) && s[0] == Itoa(n)[0];
    assert IsDigit(s[0]) && s[0] !in {'(', ')', ',', '"', '\'', '$'};
  }

  lemma {:induction false} ParamFirst(n: nat, rest: string)
    requires rest == "" || !IsDigit(rest[0])
    ensures FirstToken("$" + Itoa(n) + rest) == First(SParam(n), |"$" + Itoa(n)|)
  {
    hide QuotedBody, RunEnd, WordTok, OpTok, Itoa, Atoi;
    NumeralFirst("$", n, rest);
    assert ("$" + Itoa(n) + rest)[0] == '$';
  }

  lemma {:induction false} WordFirst(w: string, rest: string)
    requires IsWord(w) && (rest == "" || !IsSqlWordChar(rest[0]))
    ensures FirstToken(w + rest) == First(WordTok(w), |w|)
  {
    hide QuotedBody, OpTok, WordTok;
    var s := w + rest;
    assert forall k :: 0 <= k < |w| ==> s[k] == w[k];
    RunStops(s, 1, |w|, IsSqlWordChar);
    assert s[..|w|] == w;
    assert IsSqlWordChar(s[0]);
  }

  lemma {:induction false} OpFirst(op: string, rest: string)
    requires WellFormed(Op(op)) && (rest == "" || rest[0] !in {'=', '>', ':'})
    ensures FirstToken(op + rest) == First(OpTok(op), |op|)
  {
    var s := op + rest;
    if |op| == 2 {
      assert s[..2] == op;
    } else {
      assert s[..1] == op;
      if |s| > 1 {
        assert s[..2][1] == rest[0];
      }
    }
  }

  lemma {:induction false} LexemeFirst(l: Lexeme, rest: string)
    requires WellFormed(l) && !l.Sp? && Detached(l, rest)
    ensures FirstToken(LexemeText(l) + rest) == First(TokOf(l), |LexemeText(l)|)
  {
    hide FirstToken, QuotedBody, RunEnd;
    match l {
      case Word(w) => WordFirst(w, rest);
      case Op(op) => OpFirst(op, rest);
      case Quoted(name) => QuoteFirst(name, '"', rest);
      case Str(text) => QuoteFirst(text, '\'', rest);
      case Int(n) => IntFirst(n, rest);
      case Param(n) => ParamFirst(n, rest);
      case _ => MarkFirst(l, rest);
    }
  }

  lemma {:induction false} QuoteFirst(text: string, q: char, rest: string)
    requires (q == '"' || q == '\'') && (rest == "" || rest[0] != q)
    ensures FirstToken(Quote(text, q) + rest) == First(if q == '"' then SIdent(text) else SStr(text), |Quote(text, q)|)
  {
    hide QuotedBody, RunEnd, WordTok, OpTok, Doubled;
    QuotedFirst(text, q, rest);
    assert (Quote(text, q) + rest)[0] == q;
  }

  lemma {:induction false} MarkFirst(l: Lexeme, rest: string)
    requires l.LP? || l.RP? || l.Comma?
    ensures FirstToken(LexemeText(l) + rest) == First(TokOf(l), |LexemeText(l)|)
  {
    hide QuotedBody, RunEnd, WordTok, OpTok;
    assert (LexemeText(l) + rest)[0] == LexemeText(l)[0];
  }

  // ---------------------------------------------------------------- reading a whole text

  /** The first byte of a lexeme tells what it cannot extend. */
  lemma {:induction false} ApartDetached(a: Lexeme, b: Lexeme, rest: string)
    requires WellFormed(a) && WellFormed(b) && Apart(a, b)
    ensures LexemeText(b) != "" && Detached(a, LexemeText(b) + rest)
  {
    if b.Int? {
      assert IsDigit((LexemeText(b) + rest)[0]);
    }
    if b.Word? {
      assert IsSqlWordChar((LexemeText(b) + rest)[0]) && !IsDigit((LexemeText(b) + rest)[0]);
    }
  }

  /** Clean text is read as its lexemes. */
  lemma {:induction false} TextReads(ls: seq<Lexeme>)
    requires Clean(ls)
    ensures LexSql(Text(ls)) == Strip(ls, Nil)
    decreases |ls|
  {
    if |ls| > 0 {
      var l, rest := ls[0], Text(ls[1..]);
      assert Clean(ls[1..]);
      TextReads(ls[1..]);
      if |ls| > 1 {
        ApartDetached(l, ls[1], Text(ls[1..][1..]));
      }
      var s := LexemeText(l) + rest;
      if l.Sp? {
        assert s[1..] == rest;
      } else {
        LexemeFirst(l, rest);
        assert s[|LexemeText(l)|..] == rest;
        assert s[0] != ' ' by { NotSpace(l, rest); }
      }
    }
  }

  lemma {:induction false} NotSpace(l: Lexeme, rest: string)
    requires WellFormed(l) && !l.Sp?
    ensures LexemeText(l) != "" && (LexemeText(l) + rest)[0] != ' '
  {
    if l.Int? {
      assert IsDigit((LexemeText(l) + rest)[0]);
    }
    if l.Word? {
      assert IsSqlWordChar((LexemeText(l) + rest)[0]);
    }
  }
}
