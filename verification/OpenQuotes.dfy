/** When a text leaves a quote open. Outside quotes either quote opens one; inside, only the same
    quote closes it. So each byte permutes three modes, and a text that leads from outside to
    outside can never close a quote that was open before it. */
module OpenQuotes {
  import opened Tokens
  import opened Lexing
  import opened LexerConcat

  datatype Mode = Outside | Single | Double

  function Step(c: char, m: Mode): Mode {
    if c == '\'' then (match m case Outside => Single case Single => Outside case Double => Double)
    else if c == '"' then (match m case Outside => Double case Double => Outside case Single => Single)
    else m
  }

  /** The mode after s. A doubled quote closes and opens again, which changes nothing. */
  function After(s: string, m: Mode): Mode {
    if s == "" then m else After(s[1..], Step(s[0], m))
  }

  lemma {:induction false} AfterConcat(a: string, b: string, m: Mode)
    ensures After(a + b, m) == After(b, After(a, m))
    decreases |a|
  {
    if a == "" {
      assert a + b == b;
    } else {
      assert (a + b)[1..] == a[1..] + b;
      AfterConcat(a[1..], b, Step(a[0], m));
    }
  }

  /** A text permutes the modes. */
  lemma {:induction false} AfterInjective(s: string, m: Mode, n: Mode)
    requires After(s, m) == After(s, n)
    ensures m == n
    decreases |s|
  {
    if s != "" {
      AfterInjective(s[1..], Step(s[0], m), Step(s[0], n));
    }
  }

  predicate QuoteFree(s: string) { forall i :: 0 <= i < |s| ==> !OpensQuote(s[i]) }

  lemma {:induction false} QuoteFreeAfter(s: string, m: Mode)
    requires QuoteFree(s)
    ensures After(s, m) == m
    decreases |s|
  {
    if s != "" {
      QuoteFreeAfter(s[1..], m);
    }
  }

  function ModeOf(q: char): Mode
    requires OpensQuote(q)
  {
    if q == '"' then Double else Single
  }

  /** A quoted body leads outside where it closes, and leaves the quote open where it does not. */
  lemma {:induction false} BodyAfter(s: string, i: nat, q: char)
    requires i <= |s| && OpensQuote(q)
    ensures match QuotedBody(s, i, q)
            case Closed(_, end) => After(s[i..end], ModeOf(q)) == Outside
            case Unterminated => After(s[i..], ModeOf(q)) == ModeOf(q)
    decreases |s| - i
  {
    var r := QuotedBody(s, i, q);
    var end := if r.Closed? then r.end else |s|;
    var rest := s[i..end];
    assert r.Unterminated? ==> rest == s[i..];
    if i < |s| {
      assert rest[0] == s[i];
      if s[i] != q {
        BodyAfter(s, i + 1, q);
        assert rest[1..] == s[i + 1..end] && s[i + 1..|s|] == s[i + 1..];
      } else if i + 1 < |s| && s[i + 1] == q {
        BodyAfter(s, i + 2, q);
        assert rest[1] == q && rest[1..][1..] == s[i + 2..end] && s[i + 2..|s|] == s[i + 2..];
      } else {
        assert rest == [q] && rest[1..] == "";
      }
    }
  }

  // ---------------------------------------------------------------- tokens

  lemma {:induction false} NumberFree(s: string, i: nat)
    requires i <= |s|
    ensures QuoteFree(s[i..NumberEnd(s, i)])
  {
    var j := SignEnd(s, i);
    var k := RunEnd(s, j, IsNumberChar);
    var e := ExponentEnd(s, k);
    forall p | i <= p < e ensures !OpensQuote(s[p]) {
    }
  }

  lemma {:induction false} OperatorFree(s: string, i: nat)
    requires i < |s| && Operator(s, i).Some?
    ensures QuoteFree(s[i..Operator(s, i).value.end])
  {
    hide NumberEnd;
    NumberFree(s, i);
  }

  /** A token that starts with no quote holds none. */
  lemma {:induction false} TokenFree(s: string, i: nat)
    requires i < |s| && !OpensQuote(s[i])
    ensures QuoteFree(s[i..TokenAt(s, i).end])
  {
    hide Operator, NumberEnd, WordToken, LooksLikeDate;
    if Operator(s, i).Some? {
      OperatorFree(s, i);
    } else {
      NumberFree(s, i);
    }
  }

  lemma {:induction false} QuotedOperator(s: string, i: nat)
    requires i < |s| && OpensQuote(s[i])
    ensures Operator(s, i).None?
  {
  }

  /** Lexing from i reaches a quote that is never closed. */
  predicate LeavesOpen(s: string, i: nat)
    requires i <= |s|
    decreases |s| - i
  {
    var j := RunEnd(s, i, IsSpace);
    j < |s| && ((OpensQuote(s[j]) && QuotedBody(s, j + 1, s[j]).Unterminated?) || LeavesOpen(s, TokenAt(s, j).end))
  }

  lemma {:induction false} TokenAfter(s: string, j: nat)
    requires j < |s| && !(OpensQuote(s[j]) && QuotedBody(s, j + 1, s[j]).Unterminated?)
    ensures After(s[j..TokenAt(s, j).end], Outside) == Outside
  {
    hide After;
    var e := TokenAt(s, j).end;
    if OpensQuote(s[j]) {
      hide Operator, QuotedBody;
      QuotedOperator(s, j);
      BodyAfter(s, j + 1, s[j]);
      OneByte(s[j], s[j + 1..e]);
      assert s[j..e] == [s[j]] + s[j + 1..e];
    } else {
      hide TokenAt;
      TokenFree(s, j);
      QuoteFreeAfter(s[j..e], Outside);
    }
  }

  lemma {:induction false} OneByte(q: char, rest: string)
    requires OpensQuote(q)
    ensures After([q] + rest, Outside) == After(rest, ModeOf(q))
  {
    assert ([q] + rest)[1..] == rest;
  }

  /** The lexer is left in an open quote exactly when the modes say so. */
  lemma {:induction false} LeavesOpenIff(s: string, i: nat)
    requires i <= |s|
    ensures LeavesOpen(s, i) <==> After(s[i..], Outside) != Outside
    decreases |s| - i
  {
    hide After, TokenAt, QuotedBody, IsSpace;
    var j := RunEnd(s, i, IsSpace);
    SpacesFree(s, i, j);
    assert s[i..] == s[i..j] + s[j..];
    AfterConcat(s[i..j], s[j..], Outside);
    QuoteFreeAfter(s[i..j], Outside);
    if j == |s| {
      assert s[j..] == "";
      QuoteFreeAfter("", Outside);
    } else if OpensQuote(s[j]) && QuotedBody(s, j + 1, s[j]).Unterminated? {
      BodyAfter(s, j + 1, s[j]);
      assert s[j..] == [s[j]] + s[j + 1..];
      OneByte(s[j], s[j + 1..]);
    } else {
      var e := TokenAt(s, j).end;
      TokenAfter(s, j);
      LeavesOpenIff(s, e);
      assert s[j..] == s[j..e] + s[e..];
      AfterConcat(s[j..e], s[e..], Outside);
    }
  }

  lemma {:induction false} SpacesFree(s: string, i: nat, j: nat)
    requires i <= |s| && j == RunEnd(s, i, IsSpace)
    ensures QuoteFree(s[i..j])
  {
  }

  /** A text that leaves a quote open ends in an invalid token, so no filter with one is accepted. */
  lemma {:induction false} OpenEndsInvalid(s: string, i: nat)
    requires i <= |s| && LeavesOpen(s, i)
    ensures EndsInvalid(Lex(s, i))
    decreases |s| - i
  {
    hide TokenAt, QuotedBody;
    var j := RunEnd(s, i, IsSpace);
    var e := TokenAt(s, j).end;
    QuoteOpen(s, j);
    assert Lex(s, i) == Cons(TokenAt(s, j).tok, Lex(s, e));
    if !(OpensQuote(s[j]) && QuotedBody(s, j + 1, s[j]).Unterminated?) {
      OpenEndsInvalid(s, e);
    }
  }

  /** A quote left open stays open behind any text that closes its own. */
  lemma {:induction false} OpenStaysOpen(a: string, b: string)
    requires LeavesOpen(a, 0) && !LeavesOpen(b, 0)
    ensures LeavesOpen(a + b, 0)
  {
    hide After, LeavesOpen;
    assert a[0..] == a && b[0..] == b && (a + b)[0..] == a + b;
    LeavesOpenIff(a, 0);
    LeavesOpenIff(b, 0);
    LeavesOpenIff(a + b, 0);
    AfterConcat(a, b, Outside);
    if After(b, After(a, Outside)) == Outside {
      AfterInjective(b, After(a, Outside), Outside);
    }
  }

  /** Whatever follows a closing parenthesis cannot disturb the tokens before it, unless a quote is open. */
  lemma {:induction false} LexClosed(s: string, u: string, i: nat)
    requires i <= |s| && u != "" && u[0] == ')' && !LeavesOpen(s, i)
    ensures Lex(s + u, i) == Append(Lex(s, i), Lex(u, 0))
    decreases |s| - i
  {
    hide TokenAt, RunEnd;
    RunClosed(s, u, i, IsSpace);
    var j := RunEnd(s, i, IsSpace);
    if j == |s| {
      LexShift(s, u, 0);
      assert RunEnd(s + u, |s|, IsSpace) == |s|;
      assert Lex(s + u, i) == Lex(s + u, |s|);
    } else {
      assert Lex(s, i) == Cons(TokenAt(s, j).tok, Lex(s, TokenAt(s, j).end));
      TokenClosed(s, u, j);
      LexClosed(s, u, TokenAt(s, j).end);
    }
  }
}
