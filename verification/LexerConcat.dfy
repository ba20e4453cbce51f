/** Lexing texts that are put together from other texts. */
module LexerConcat {
  import opened Base
  import opened Tokens
  import opened Lexing
  import opened Scanning
  import opened Cql2Grammar
  import opened SqlText

  // ---------------------------------------------------------------- only the rest of the text matters

  lemma {:induction false} RunShift(a: string, b: string, i: nat, p: char -> bool)
    requires i <= |b|
    ensures RunEnd(a + b, |a| + i, p) == |a| + RunEnd(b, i, p)
    decreases |b| - i
  {
    if i < |b| {
      assert (a + b)[|a| + i] == b[i];
      if p(b[i]) {
        RunShift(a, b, i + 1, p);
      }
    }
  }

  lemma {:induction false} QuoteShift(a: string, b: string, i: nat, q: char)
    requires i <= |b|
    ensures QuotedBody(a + b, |a| + i, q) ==
            match QuotedBody(b, i, q)
            case Unterminated => Unterminated
            case Closed(text, end) => Closed(text, |a| + end)
    decreases |b| - i
  {
    if i < |b| {
      assert (a + b)[|a| + i] == b[i];
      if b[i] != q {
        QuoteShift(a, b, i + 1, q);
      } else if i + 1 < |b| && b[i + 1] == q {
        QuoteShift(a, b, i + 2, q);
      }
    }
  }

  lemma {:induction false} SignShift(a: string, b: string, i: nat)
    requires i <= |b|
    ensures SignEnd(a + b, |a| + i) == |a| + SignEnd(b, i)
  {
    assert i < |b| ==> (a + b)[|a| + i] == b[i];
  }

  lemma {:induction false} ExponentShift(a: string, b: string, i: nat)
    requires i <= |b|
    ensures ExponentEnd(a + b, |a| + i) == |a| + ExponentEnd(b, i)
  {
    hide RunEnd, SignEnd;
    if i < |b| {
      assert (a + b)[|a| + i] == b[i];
      SignShift(a, b, i + 1);
      RunShift(a, b, SignEnd(b, i + 1), IsDigit);
    }
  }

  lemma {:induction false} NumberShift(a: string, b: string, i: nat)
    requires i <= |b|
    ensures NumberEnd(a + b, |a| + i) == |a| + NumberEnd(b, i)
  {
    hide RunEnd, SignEnd, ExponentEnd;
    var j := SignEnd(b, i);
    SignShift(a, b, i);
    RunShift(a, b, j, IsNumberChar);
    ExponentShift(a, b, RunEnd(b, j, IsNumberChar));
  }

  lemma {:induction false} SliceShift(a: string, b: string, i: nat, j: nat)
    requires i <= j <= |b|
    ensures (a + b)[|a| + i..|a| + j] == b[i..j]
  {
  }

  lemma {:induction false} NumericShift(a: string, b: string, i: nat)
    requires i < |b| && IsNumberChar(b[i])
    ensures NumberOrTemporal(a + b, |a| + i) == Lexed(NumberOrTemporal(b, i).tok, |a| + NumberOrTemporal(b, i).end)
  {
    hide RunEnd, LooksLikeDate, NumberEnd;
    RunShift(a, b, i, IsTemporalChar);
    SliceShift(a, b, i, RunEnd(b, i, IsTemporalChar));
    NumberShift(a, b, i);
    SliceShift(a, b, i, NumberEnd(b, i));
  }

  lemma {:induction false} OperatorShift(a: string, b: string, i: nat)
    requires i < |b|
    ensures Operator(a + b, |a| + i) ==
            match Operator(b, i) case None => None case Some(r) => Some(Lexed(r.tok, |a| + r.end))
  {
    hide NumberEnd;
    assert (a + b)[|a| + i] == b[i] && (i + 1 < |b| ==> (a + b)[|a| + i + 1] == b[i + 1]);
    NumberShift(a, b, i);
    SliceShift(a, b, i, NumberEnd(b, i));
  }

  lemma {:induction false} TokenShift(a: string, b: string, i: nat)
    requires i < |b|
    ensures TokenAt(a + b, |a| + i) == Lexed(TokenAt(b, i).tok, |a| + TokenAt(b, i).end)
  {
    hide RunEnd, QuotedToken, WordToken, NumberOrTemporal, Operator, IsNumberChar, IsAlpha, ByteText;
    OperatorShift(a, b, i);
    assert (a + b)[|a| + i] == b[i];
    if b[i] == '\'' || b[i] == '"' {
      QuotedShift(a, b, i, TString);
      QuotedShift(a, b, i, TIdent);
    } else if IsNumberChar(b[i]) {
      NumericShift(a, b, i);
    } else if IsAlpha(b[i]) {
      WordShift(a, b, i);
    }
  }

  lemma {:induction false} WordShift(a: string, b: string, i: nat)
    requires i < |b|
    ensures RunEnd(a + b, |a| + i + 1, IsWordChar) == |a| + RunEnd(b, i + 1, IsWordChar)
    ensures (a + b)[|a| + i..RunEnd(a + b, |a| + i + 1, IsWordChar)] == b[i..RunEnd(b, i + 1, IsWordChar)]
  {
    hide RunEnd;
    RunShift(a, b, i + 1, IsWordChar);
    SliceShift(a, b, i, RunEnd(b, i + 1, IsWordChar));
  }

  lemma {:induction false} QuotedShift(a: string, b: string, i: nat, typ: Typ)
    requires i < |b|
    ensures QuotedToken(a + b, |a| + i, typ) == Lexed(QuotedToken(b, i, typ).tok, |a| + QuotedToken(b, i, typ).end)
  {
    hide QuotedBody;
    assert (a + b)[|a| + i] == b[i];
    QuoteShift(a, b, i + 1, b[i]);
    SliceShift(a, b, i, |b|);
  }

  lemma {:induction false} LexShift(a: string, b: string, i: nat)
    requires i <= |b|
    ensures Lex(a + b, |a| + i) == Lex(b, i)
    decreases |b| - i
  {
    hide TokenAt, RunEnd;
    RunShift(a, b, i, IsSpace);
    var j := RunEnd(b, i, IsSpace);
    if j < |b| {
      TokenShift(a, b, j);
      LexShift(a, b, TokenAt(b, j).end);
    }
  }

  // ---------------------------------------------------------------- a text closed off by a parenthesis

  /** The last token is an invalid one, as after a quote that is never closed. */
  predicate EndsInvalid(ts: Stream) {
    ts.Cons? && (if ts.tail.End? then ts.head.typ == TInvalid else EndsInvalid(ts.tail))
  }

  lemma {:induction false} RunClosed(s: string, u: string, i: nat, p: char -> bool)
    requires i <= |s| && u != "" && !p(u[0])
    ensures RunEnd(s + u, i, p) == RunEnd(s, i, p)
    decreases |s| - i
  {
    if i < |s| && p(s[i]) {
      RunClosed(s, u, i + 1, p);
    }
  }

  lemma {:induction false} QuoteClosed(s: string, u: string, i: nat, q: char)
    requires i <= |s| && u != "" && u[0] != q && QuotedBody(s, i, q).Closed?
    ensures QuotedBody(s + u, i, q) == QuotedBody(s, i, q)
    decreases |s| - i
  {
    if s[i] != q {
      QuoteClosed(s, u, i + 1, q);
    } else if i + 1 < |s| && s[i + 1] == q {
      QuoteClosed(s, u, i + 2, q);
    }
  }

  lemma {:induction false} ExponentClosed(s: string, u: string, i: nat)
    requires i <= |s| && u != "" && u[0] == ')'
    ensures ExponentEnd(s + u, i) == ExponentEnd(s, i)
  {
    hide RunEnd;
    if i < |s| {
      RunClosed(s, u, SignEnd(s, i + 1), IsDigit);
    }
  }

  lemma {:induction false} NumberClosed(s: string, u: string, i: nat)
    requires i <= |s| && u != "" && u[0] == ')'
    ensures NumberEnd(s + u, i) == NumberEnd(s, i)
  {
    hide RunEnd, ExponentEnd;
    var j := SignEnd(s, i);
    RunClosed(s, u, j, IsNumberChar);
    ExponentClosed(s, u, RunEnd(s, j, IsNumberChar));
  }

  lemma {:induction false} SliceClosed(s: string, u: string, i: nat, j: nat)
    requires i <= j <= |s|
    ensures (s + u)[i..j] == s[i..j]
  {
  }

  lemma {:induction false} NumericClosed(s: string, u: string, i: nat)
    requires i < |s| && IsNumberChar(s[i]) && u != "" && u[0] == ')'
    ensures NumberOrTemporal(s + u, i) == NumberOrTemporal(s, i)
  {
    hide RunEnd, LooksLikeDate, NumberEnd;
    RunClosed(s, u, i, IsTemporalChar);
    SliceClosed(s, u, i, RunEnd(s, i, IsTemporalChar));
    NumberClosed(s, u, i);
    SliceClosed(s, u, i, NumberEnd(s, i));
  }

  lemma {:induction false} OperatorClosed(s: string, u: string, i: nat)
    requires i < |s| && u != "" && u[0] == ')'
    ensures Operator(s + u, i) == Operator(s, i)
  {
    hide NumberEnd;
    assert (s + u)[i] == s[i] && (i + 1 < |s| ==> (s + u)[i + 1] == s[i + 1]);
    NumberClosed(s, u, i);
    SliceClosed(s, u, i, NumberEnd(s, i));
  }

  predicate OpensQuote(c: char) { c == '\'' || c == '"' }

  lemma {:induction false} TokenClosed(s: string, u: string, i: nat)
    requires i < |s| && u != "" && u[0] == ')'
    requires OpensQuote(s[i]) ==> QuotedBody(s, i + 1, s[i]).Closed?
    ensures TokenAt(s + u, i) == TokenAt(s, i)
  {
    hide RunEnd, QuotedBody, WordToken, NumberOrTemporal, Operator;
    OperatorClosed(s, u, i);
    assert (s + u)[i] == s[i];
    if IsNumberChar(s[i]) {
      NumericClosed(s, u, i);
    } else if IsAlpha(s[i]) {
      RunClosed(s, u, i + 1, IsWordChar);
      SliceClosed(s, u, i, RunEnd(s, i + 1, IsWordChar));
    } else if OpensQuote(s[i]) {
      QuoteClosed(s, u, i + 1, s[i]);
    }
  }

  lemma {:induction false} QuoteOpen(s: string, i: nat)
    requires i < |s|
    ensures OpensQuote(s[i]) && QuotedBody(s, i + 1, s[i]).Unterminated? ==>
              TokenAt(s, i).tok.typ == TInvalid && TokenAt(s, i).end == |s|
  {
  }

  // ---------------------------------------------------------------- one token and the rest

  lemma {:induction false} LexFirst(w: string, u: string, tok: Token)
    requires w != "" && !IsSpace(w[0]) && TokenAt(w + u, 0) == Lexed(tok, |w|)
    ensures Lex(w + u, 0) == Cons(tok, Lex(u, 0))
  {
    hide TokenAt;
    assert (w + u)[0] == w[0];
    LexShift(w, u, 0);
  }

  lemma {:induction false} LexSpace(u: string)
    ensures Lex(" " + u, 0) == Lex(u, 0)
  {
    hide TokenAt;
    LexShift(" ", u, 0);
    assert RunEnd(" " + u, 0, IsSpace) == RunEnd(" " + u, 1, IsSpace);
  }

  lemma {:induction false} LexParen(c: char, u: string)
    requires c == '(' || c == ')'
    ensures Lex([c] + u, 0) == Cons(if c == '(' then LPAREN else RPAREN, Lex(u, 0))
  {
    LexFirst([c], u, if c == '(' then LPAREN else RPAREN);
  }

  lemma {:induction false} LexComparison(op: Typ, u: string)
    requires op in {TEq, TLte, TGte}
    ensures Lex(Fixed(op).raw + (" " + u), 0) == Cons(Fixed(op), Lex(u, 0))
  {
    LexFirst(Fixed(op).raw, " " + u, Fixed(op));
    LexSpace(u);
  }

  predicate Breaks(u: string) { u == "" || u[0] == ' ' || u[0] == ')' }

  lemma {:induction false} KeywordToken(w: string, typ: Typ)
    requires (w == "AND" && typ == TAnd) || (w == "OR" && typ == TOr) || (w == "IS" && typ == TIs)
             || (w == "NULL" && typ == TNull)
    ensures WordToken(w) == Token(typ, w) && IsAlpha(w[0]) && forall i :: 0 <= i < |w| ==> IsWordChar(w[i])
  {
    hide LooksLikeDate, SpatialWords, GeometryWord;
    assert Upper(w) == w;
  }

  lemma {:induction false} LexWord(w: string, typ: Typ, u: string)
    requires (w == "AND" && typ == TAnd) || (w == "OR" && typ == TOr) || (w == "IS" && typ == TIs)
             || (w == "NULL" && typ == TNull)
    requires Breaks(u)
    ensures Lex(w + u, 0) == Cons(Token(typ, w), Lex(u, 0))
  {
    hide LooksLikeDate, SpatialWords, QuotedBody, NumberEnd, NumberOrTemporal, WordToken;
    RunStops(w + u, 1, |w|, IsWordChar);
    KeywordToken(w, typ);
    assert (w + u)[0..|w|] == w;
    LexFirst(w, u, Token(typ, w));
  }

  lemma {:induction false} LexInstant(stamp: string, u: string)
    requires LooksLikeDate(stamp) && (forall j :: 0 <= j < |stamp| ==> IsTemporalChar(stamp[j])) && Breaks(u)
    ensures Lex(stamp + u, 0) == Cons(Token(TTemporal, stamp), Lex(u, 0))
  {
    hide QuotedBody, NumberEnd, WordToken;
    RunStops(stamp + u, 0, |stamp|, IsTemporalChar);
    assert (stamp + u)[0..|stamp|] == stamp && (stamp + u)[0] == stamp[0];
    LexFirst(stamp, u, Token(TTemporal, stamp));
  }

  // ---------------------------------------------------------------- quoting

  /** Quoting round-trips: a text in doubled quotes lexes as one token that holds the text itself,
      whatever quotes it contains. */
  lemma {:induction false} QuotingRoundTrips(text: string, q: char, u: string)
    requires OpensQuote(q) && (u == "" || u[0] != q)
    ensures Lex(Quote(text, q) + u, 0) == Cons(Token(if q == '"' then TIdent else TString, text), Lex(u, 0))
  {
    hide QuotedBody, RunEnd, WordToken, Doubled, NumberEnd;
    QuotedFirst(text, q, u);
    assert (Quote(text, q) + u)[0] == q;
    LexFirst(Quote(text, q), u, Token(if q == '"' then TIdent else TString, text));
  }
}
