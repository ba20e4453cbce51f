/** The CQL2 lexer. A Go string is modelled as a sequence of chars, one per byte.
    Token positions appear only in error messages and are not modelled. */
module Tokens {

  datatype Typ =
    | TEof | TInvalid | TIdent | TString | TNumber | TBool | TTemporal
    | TLParen | TRParen | TComma
    | TAnd | TOr | TNot
    | TEq | TNeq | TLt | TGt | TLte | TGte
    | TPlus | TMinus | TMul | TDiv
    | TLike | TILike | TBetween | TIn | TIs | TNull
    | TSpatialOp | TDWithin
    | TPoint | TLineString | TPolygon | TMultiPoint | TMultiLineString | TMultiPolygon
    | TGeometryCollection | TEnvelope

  datatype Token = Token(typ: Typ, raw: string)

  const EOF := Token(TEof, "")

  /** The tokens a parser has not read yet. */
  datatype Stream = End | Cons(head: Token, tail: Stream)

  function Head(ts: Stream): Token { if ts.Cons? then ts.head else EOF }

  function Tail(ts: Stream): Stream { if ts.Cons? then ts.tail else End }

  /** The token after the current one. */
  function Peek(ts: Stream): Token { Head(Tail(ts)) }

  function Size(ts: Stream): nat { if ts.Cons? then 1 + Size(ts.tail) else 0 }

  /** The tokens of ts followed by more. */
  function Append(ts: Stream, more: Stream): Stream {
    match ts case End => more case Cons(t, tail) => Cons(t, Append(tail, more))
  }

  function UpperChar(c: char): char {
    if 'a' <= c <= 'z' then (c as int - 'a' as int + 'A' as int) as char else c
  }

  function LowerChar(c: char): char {
    if 'A' <= c <= 'Z' then (c as int - 'A' as int + 'a' as int) as char else c
  }

  /** strings.ToUpper on the ASCII words the lexer builds. */
  function Upper(s: string): (r: string)
    ensures |r| == |s|
  {
    seq(|s|, i requires 0 <= i < |s| => UpperChar(s[i]))
  }

  /** strings.ToLower on the ASCII words the lexer builds. */
  function Lower(s: string): (r: string)
    ensures |r| == |s|
  {
    seq(|s|, i requires 0 <= i < |s| => LowerChar(s[i]))
  }
}

module Lexing {
  import opened Base
  import opened Tokens

  // ---------------------------------------------------------------- character classes

  /** unicode.IsSpace on a single byte, that is, on a Latin-1 code point. */
  predicate IsSpace(c: char) {
    '\t' <= c <= '\r' || c == ' ' || c == '\U{85}' || c == '\U{A0}'
  }

  predicate IsWordChar(c: char) {
    IsAlpha(c) || IsDigit(c) || c == '_' || c == ':' || c == '$'
  }

  predicate IsNumberChar(c: char) { IsDigit(c) || c == '.' }

  predicate IsTemporalChar(c: char) {
    IsDigit(c) || IsAlpha(c) || c == '-' || c == '+' || c == ':' || c == '.'
  }

  /** The length of the UTF-8 encoded Unicode space s starts with; 0 when it starts with none. */
  function SpacePrefix(s: string): (k: nat)
    ensures k <= |s|
  {
    if |s| >= 1 && ('\t' <= s[0] <= '\r' || s[0] == ' ') then 1
    else if |s| >= 2 && s[0] == '\U{C2}' && (s[1] == '\U{85}' || s[1] == '\U{A0}') then 2
    else if |s| >= 3 && s[0] == '\U{E1}' && s[1] == '\U{9A}' && s[2] == '\U{80}' then 3
    else if |s| >= 3 && s[0] == '\U{E2}' && s[1] == '\U{80}' &&
            ('\U{80}' <= s[2] <= '\U{8A}' || s[2] == '\U{A8}' || s[2] == '\U{A9}' || s[2] == '\U{AF}') then 3
    else if |s| >= 3 && s[0] == '\U{E2}' && s[1] == '\U{81}' && s[2] == '\U{9F}' then 3
    else if |s| >= 3 && s[0] == '\U{E3}' && s[1] == '\U{80}' && s[2] == '\U{80}' then 3
    else 0
  }

  /** strings.TrimSpace(s) == "": s is nothing but UTF-8 encoded Unicode spaces. */
  predicate IsBlank(s: string) {
    s == "" || (SpacePrefix(s) > 0 && IsBlank(s[SpacePrefix(s)..]))
  }

  /** Go's "looksLikeDateOrDateTime": the text starts YYYY-MM-DD. */
  predicate LooksLikeDate(s: string) {
    && |s| >= 10
    && s[4] == '-' && s[7] == '-'
    && IsDigit(s[0]) && IsDigit(s[1]) && IsDigit(s[2]) && IsDigit(s[3])
    && IsDigit(s[5]) && IsDigit(s[6]) && IsDigit(s[8]) && IsDigit(s[9])
  }

  /** Go's string(b) of a byte: one byte below 0x80, the two bytes of its UTF-8 encoding above. */
  function ByteText(c: char): (s: string)
    ensures |s| == 1 || |s| == 2
  {
    if c < '\U{80}' then [c] else [(0xC0 + c as int / 64) as char, (0x80 + c as int % 64) as char]
  }

  // ---------------------------------------------------------------- the reference lexer

  /** The end of the longest run of p-characters starting at i. */
  function RunEnd(s: string, i: nat, p: char -> bool): (j: nat)
    requires i <= |s|
    ensures i <= j <= |s|
    ensures forall k :: i <= k < j ==> p(s[k])
    ensures j < |s| ==> !p(s[j])
    decreases |s| - i
  {
    if i < |s| && p(s[i]) then RunEnd(s, i + 1, p) else i
  }

  datatype Quoted = Unterminated | Closed(text: string, end: nat)

  /** Reads a quoted body from i, just after the opening quote q; a doubled q stands for one. */
  function QuotedBody(s: string, i: nat, q: char): (r: Quoted)
    requires i <= |s|
    ensures r.Closed? ==> i < r.end <= |s|
    decreases |s| - i
  {
    if i == |s| then Unterminated
    else if s[i] != q then
      match QuotedBody(s, i + 1, q)
      case Unterminated => Unterminated
      case Closed(text, end) => Closed([s[i]] + text, end)
    else if i + 1 < |s| && s[i + 1] == q then
      match QuotedBody(s, i + 2, q)
      case Unterminated => Unterminated
      case Closed(text, end) => Closed([q] + text, end)
    else Closed("", i + 1)
  }

  /** The end of the numeric literal at i: sign, digits and periods, exponent. */
  function NumberEnd(s: string, i: nat): (j: nat)
    requires i <= |s|
    ensures i <= j <= |s|
    ensures i < |s| && (s[i] == '-' || IsNumberChar(s[i])) ==> i < j
  {
    ExponentEnd(s, RunEnd(s, SignEnd(s, i), IsNumberChar))
  }

  function SignEnd(s: string, i: nat): (j: nat)
    requires i <= |s|
    ensures i <= j <= |s|
  {
    if i < |s| && (s[i] == '+' || s[i] == '-') then i + 1 else i
  }

  function ExponentEnd(s: string, i: nat): (j: nat)
    requires i <= |s|
    ensures i <= j <= |s|
  {
    if i < |s| && (s[i] == 'e' || s[i] == 'E') then RunEnd(s, SignEnd(s, i + 1), IsDigit) else i
  }

  /** Classifies a bare word by its upper-cased spelling. */
  function WordToken(raw: string): (t: Token)
    ensures t.typ != TEof && t.typ != TInvalid && t.typ != TString && t.typ != TNumber
    ensures t.typ == TTemporal ==> t.raw == "NOW" || (LooksLikeDate(raw) && t.raw == raw)
    ensures t.typ == TIdent ==> t.raw == raw
  {
    var up := Upper(raw);
    if LogicWord(up).Some? then Token(LogicWord(up).value, raw)
    else if up == "TRUE" || up == "FALSE" then Token(TBool, Lower(up))
    else if up == "NOW" then Token(TTemporal, "NOW")
    else if up in SpatialWords then Token(TSpatialOp, Lower(up))
    else if up == "DWITHIN" then Token(TDWithin, Lower(up))
    else if GeometryWord(up).Some? then Token(GeometryWord(up).value, up)
    else if up == "ENVELOPE" || up == "BBOX" then Token(TEnvelope, "ENVELOPE")
    else if LooksLikeDate(raw) then Token(TTemporal, raw)
    else Token(TIdent, raw)
  }

  function LogicWord(up: string): (r: Option<Typ>)
    ensures r.Some? ==> r.value in {TAnd, TOr, TNot, TLike, TILike, TBetween, TIn, TIs, TNull}
  {
    if up == "AND" then Some(TAnd)
    else if up == "OR" then Some(TOr)
    else if up == "NOT" then Some(TNot)
    else if up == "LIKE" then Some(TLike)
    else if up == "ILIKE" then Some(TILike)
    else if up == "BETWEEN" then Some(TBetween)
    else if up == "IN" then Some(TIn)
    else if up == "IS" then Some(TIs)
    else if up == "NULL" then Some(TNull)
    else None
  }

  function GeometryWord(up: string): (r: Option<Typ>)
    ensures r.Some? ==>
            r.value in {TPoint, TLineString, TPolygon, TMultiPoint, TMultiLineString,
              TMultiPolygon, TGeometryCollection}
  {
    if up == "POINT" then Some(TPoint)
    else if up == "LINESTRING" then Some(TLineString)
    else if up == "POLYGON" then Some(TPolygon)
    else if up == "MULTIPOINT" then Some(TMultiPoint)
    else if up == "MULTILINESTRING" then Some(TMultiLineString)
    else if up == "MULTIPOLYGON" then Some(TMultiPolygon)
    else if up == "GEOMETRYCOLLECTION" then Some(TGeometryCollection)
    else None
  }

  const SpatialWords: set<string> :=
    {"EQUALS", "DISJOINT", "TOUCHES", "WITHIN", "OVERLAPS", "CROSSES", "INTERSECTS", "CONTAINS", "S_INTERSECTS"}

  datatype Lexed = Lexed(tok: Token, end: nat)

  function QuotedToken(s: string, i: nat, typ: Typ): (r: Lexed)
    requires i < |s|
    ensures i < r.end <= |s|
  {
    match QuotedBody(s, i + 1, s[i])
    case Closed(text, end) => Lexed(Token(typ, text), end)
    case Unterminated => Lexed(Token(TInvalid, s[i..]), |s|)
  }

  function NumberOrTemporal(s: string, i: nat): (r: Lexed)
    requires i < |s| && IsNumberChar(s[i])
    ensures i < r.end <= |s|
  {
    var e := RunEnd(s, i, IsTemporalChar);
    if LooksLikeDate(s[i..e]) then Lexed(Token(TTemporal, s[i..e]), e)
    else Lexed(Token(TNumber, s[i..NumberEnd(s, i)]), NumberEnd(s, i))
  }

  /** The one- and two-character operators; None when s[i] starts no operator. */
  function Operator(s: string, i: nat): (r: Option<Lexed>)
    requires i < |s|
    ensures r.Some? ==> i < r.value.end <= |s| && r.value.tok.raw == s[i..r.value.end]
    ensures r.Some? ==> r.value.tok.typ !in {TEof, TTemporal, TString, TIdent, TInvalid}
  {
    var two := if i + 1 < |s| then s[i + 1] else ' ';
    match s[i]
    case '(' => Some(Lexed(Token(TLParen, "("), i + 1))
    case ')' => Some(Lexed(Token(TRParen, ")"), i + 1))
    case ',' => Some(Lexed(Token(TComma, ","), i + 1))
    case '+' => Some(Lexed(Token(TPlus, "+"), i + 1))
    case '-' =>
      // A minus directly before a digit or period is the sign of a number.
      if i + 1 < |s| && IsNumberChar(two) then Some(Lexed(Token(TNumber, s[i..NumberEnd(s, i)]), NumberEnd(s, i)))
      else Some(Lexed(Token(TMinus, "-"), i + 1))
    case '*' => Some(Lexed(Token(TMul, "*"), i + 1))
    case '/' => Some(Lexed(Token(TDiv, "/"), i + 1))
    case '<' =>
      if two == '=' then Some(Lexed(Token(TLte, "<="), i + 2))
      else if two == '>' then Some(Lexed(Token(TNeq, "<>"), i + 2))
      else Some(Lexed(Token(TLt, "<"), i + 1))
    case '>' =>
      if two == '=' then Some(Lexed(Token(TGte, ">="), i + 2))
      else Some(Lexed(Token(TGt, ">"), i + 1))
    case '=' => Some(Lexed(Token(TEq, "="), i + 1))
    case _ => None
  }

  /** The token that starts at i, which is not a space. */
  function TokenAt(s: string, i: nat): (r: Lexed)
    requires i < |s|
    ensures i < r.end <= |s|
    ensures r.tok.typ != TEof
  {
    match Operator(s, i)
    case Some(r) => r
    case None =>
      if s[i] == '\'' then QuotedToken(s, i, TString)
      else if s[i] == '"' then QuotedToken(s, i, TIdent)
      else if IsNumberChar(s[i]) then NumberOrTemporal(s, i)
      else if IsAlpha(s[i]) then
        var e := RunEnd(s, i + 1, IsWordChar);
        Lexed(WordToken(s[i..e]), e)
      else Lexed(Token(TInvalid, ByteText(s[i])), i + 1)
  }

  /** Every token from position i up to the end of the input, without the final EOF. */
  function Lex(s: string, i: nat): (ts: Stream)
    requires i <= |s|
    decreases |s| - i
  {
    var j := RunEnd(s, i, IsSpace);
    if j == |s| then End
    else
      var r := TokenAt(s, j);
      Cons(r.tok, Lex(s, r.end))
  }

  // ---------------------------------------------------------------- the stateful lexer

  /** The lexer object: the input and a cursor that every call moves forward. */
  class Lexer {
    const s: string
    var i: nat

    constructor (input: string)
      ensures s == input && i == 0
    {
      s := input;
      i := 0;
    }

    ghost predicate Valid()
      reads this
    {
      i <= |s|
    }

    /** One call of next: the head of the remaining token sequence, or EOF when
        nothing is left; each call before EOF moves the cursor. */
    method Next() returns (tok: Token)
      requires Valid()
      modifies this
      ensures Valid() && old(i) <= i
      ensures tok == Head(Lex(s, old(i)))
      ensures Lex(s, i) == Tail(Lex(s, old(i)))
      ensures tok.typ != TEof ==> old(i) < i
      ensures tok.typ == TEof ==> i == |s|
    {
      SkipWhile(IsSpace);
      if i == |s| {
        return EOF;
      }
      tok := LexToken();
    }

    method LexToken() returns (tok: Token)
      requires i < |s|
      modifies this
      ensures Valid()
      ensures Lexed(tok, i) == TokenAt(s, old(i))
    {
      hide QuotedToken, NumberOrTemporal, WordToken, RunEnd, NumberEnd;
      if s[i] == '\'' {
        tok := LexQuoted(TString);
      } else if s[i] == '"' {
        tok := LexQuoted(TIdent);
      } else if IsNumberChar(s[i]) {
        tok := LexNumeric();
      } else if IsAlpha(s[i]) {
        tok := LexWord();
      } else {
        tok := LexOperator();
      }
    }

    /** The scanning loop of skipWS, lexNumber and lexWord. */
    method SkipWhile(p: char -> bool)
      requires Valid()
      modifies this
      ensures Valid()
      ensures i == RunEnd(s, old(i), p)
    {
      while i < |s| && p(s[i])
        invariant i <= |s|
        invariant RunEnd(s, i, p) == RunEnd(s, old(i), p)
      {
        i := i + 1;
      }
    }

    /** lexString and lexQuotedIdent: they differ only in the quote and the token type. */
    method LexQuoted(typ: Typ) returns (tok: Token)
      requires i < |s|
      modifies this
      ensures Valid()
      ensures Lexed(tok, i) == QuotedToken(s, old(i), typ)
    {
      var pos := i;
      var q := s[i];
      i := i + 1;
      var text := "";
      while i < |s|
        invariant pos < i <= |s|
        invariant QuotedBody(s, pos + 1, q) ==
                  match QuotedBody(s, i, q)
                  case Unterminated => Unterminated
                  case Closed(t, end) => Closed(text + t, end)
      {
        if s[i] == q {
          if i + 1 < |s| && s[i + 1] == q {
            TextSnoc(text, q, QuotedBody(s, i + 2, q));
            text := text + [q];
            i := i + 2;
          } else {
            i := i + 1;
            assert text + "" == text;
            return Token(typ, text);
          }
        } else {
          TextSnoc(text, s[i], QuotedBody(s, i + 1, q));
          text := text + [s[i]];
          i := i + 1;
        }
      }
      return Token(TInvalid, s[pos..]);
    }

    method SkipSign()
      requires Valid()
      modifies this
      ensures Valid()
      ensures i == SignEnd(s, old(i))
    {
      if i < |s| && (s[i] == '+' || s[i] == '-') {
        i := i + 1;
      }
    }

    method LexNumber() returns (tok: Token)
      requires i < |s|
      modifies this
      ensures Valid()
      ensures i == NumberEnd(s, old(i)) && tok == Token(TNumber, s[old(i)..i])
    {
      var start := i;
      SkipSign();
      SkipWhile(IsNumberChar);
      if i < |s| && (s[i] == 'e' || s[i] == 'E') {
        i := i + 1;
        SkipSign();
        SkipWhile(IsDigit);
      }
      tok := Token(TNumber, s[start..i]);
    }

    /** lexTemporalCandidate, falling back to lexNumber. */
    method LexNumeric() returns (tok: Token)
      requires i < |s| && IsNumberChar(s[i])
      modifies this
      ensures Valid()
      ensures Lexed(tok, i) == NumberOrTemporal(s, old(i))
    {
      var end := i;
      while end < |s| && IsTemporalChar(s[end])
        invariant i <= end <= |s|
        invariant RunEnd(s, end, IsTemporalChar) == RunEnd(s, i, IsTemporalChar)
      {
        end := end + 1;
      }
      var raw := s[i..end];
      if LooksLikeDate(raw) {
        i := end;
        return Token(TTemporal, raw);
      }
      tok := LexNumber();
    }

    method LexWord() returns (tok: Token)
      requires i < |s|
      modifies this
      ensures Valid()
      ensures i == RunEnd(s, old(i) + 1, IsWordChar) && tok == WordToken(s[old(i)..i])
    {
      var start := i;
      i := i + 1;
      SkipWhile(IsWordChar);
      tok := WordToken(s[start..i]);
    }

    method LexOperator() returns (tok: Token)
      requires i < |s|
      modifies this
      ensures Valid()
      ensures match Operator(s, old(i))
              case Some(r) => Lexed(tok, i) == r
              case None => Lexed(tok, i) == Lexed(Token(TInvalid, ByteText(s[old(i)])), old(i) + 1)
    {
      var ch := s[i];
      if ch == '-' && i + 1 < |s| && IsNumberChar(s[i + 1]) {
        tok := LexNumber();
        return;
      }
      i := i + 1;
      match ch {
        case '(' => tok := Token(TLParen, "(");
        case ')' => tok := Token(TRParen, ")");
        case ',' => tok := Token(TComma, ",");
        case '+' => tok := Token(TPlus, "+");
        case '-' => tok := Token(TMinus, "-");
        case '*' => tok := Token(TMul, "*");
        case '/' => tok := Token(TDiv, "/");
        case '=' => tok := Token(TEq, "=");
        case '<' =>
          if i < |s| && s[i] == '=' {
            i := i + 1;
            tok := Token(TLte, "<=");
          } else if i < |s| && s[i] == '>' {
            i := i + 1;
            tok := Token(TNeq, "<>");
          } else {
            tok := Token(TLt, "<");
          }
        case '>' =>
          if i < |s| && s[i] == '=' {
            i := i + 1;
            tok := Token(TGte, ">=");
          } else {
            tok := Token(TGt, ">");
          }
        case _ => tok := Token(TInvalid, ByteText(ch));
      }
    }
  }

  lemma {:induction false} TextSnoc(text: string, c: char, r: Quoted)
    ensures r.Closed? ==> (text + [c]) + r.text == text + ([c] + r.text)
  {
  }
}
