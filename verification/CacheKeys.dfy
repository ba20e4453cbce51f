/** Cache keys: base64url scopes, length-prefixed fields, and the scope an invalidation looks for.
    A byte is a char below 256. */
module CacheKeys {
  import opened Base

  predicate IsByte(c: char) { c as int < 256 }

  predicate AllBytes(s: string) { forall i :: 0 <= i < |s| ==> IsByte(s[i]) }

  // ---------------------------------------------------------------- base64.RawURLEncoding

  function Letter(n: nat): char
    requires n < 64
  {
    if n < 26 then ('A' as int + n) as char
    else if n < 52 then ('a' as int + n - 26) as char
    else if n < 62 then ('0' as int + n - 52) as char
    else if n == 62 then '-' else '_'
  }

  predicate IsLetter(c: char) { IsAlpha(c) || IsDigit(c) || c == '-' || c == '_' }

  function Sextet(c: char): (n: nat)
    requires IsLetter(c)
    ensures n < 64
  {
    if 'A' <= c <= 'Z' then c as int - 'A' as int
    else if 'a' <= c <= 'z' then c as int - 'a' as int + 26
    else if IsDigit(c) then c as int - '0' as int + 52
    else if c == '-' then 62 else 63
  }

  lemma SextetLetter(n: nat)
    requires n < 64
    ensures IsLetter(Letter(n)) && Sextet(Letter(n)) == n
  {
  }

  /** Three bytes, the missing ones taken as 0, as four letters. */
  function Group(a: nat, b: nat, c: nat): (s: string)
    requires a < 256 && b < 256 && c < 256
    ensures |s| == 4
  {
    [Letter(a / 4), Letter(a % 4 * 16 + b / 16), Letter(b % 16 * 4 + c / 64), Letter(c % 64)]
  }

  function Encode(bytes: string): (s: string)
    requires AllBytes(bytes)
  {
    if |bytes| == 0 then ""
    else if |bytes| == 1 then Group(bytes[0] as int, 0, 0)[..2]
    else if |bytes| == 2 then Group(bytes[0] as int, bytes[1] as int, 0)[..3]
    else Group(bytes[0] as int, bytes[1] as int, bytes[2] as int) + Encode(bytes[3..])
  }

  function Ungroup(w: nat, x: nat, y: nat, z: nat): (s: string)
    requires w < 64 && x < 64 && y < 64 && z < 64
    ensures |s| == 3 && AllBytes(s)
  {
    [(w * 4 + x / 16) as char, (x % 16 * 16 + y / 4) as char, (y % 4 * 64 + z) as char]
  }

  /** The decoder skips line breaks and refuses other foreign characters and a lone last letter. */
  function Decode(s: string): Option<string> { DecodeLetters(Unbroken(s)) }

  function Unbroken(s: string): string {
    if s == "" then "" else (if s[0] == '\r' || s[0] == '\n' then "" else [s[0]]) + Unbroken(s[1..])
  }

  function DecodeLetters(s: string): Option<string> {
    if exists i :: 0 <= i < |s| && !IsLetter(s[i]) then None
    else if |s| == 0 then Some("")
    else if |s| == 1 then None
    else if |s| == 2 then Some(Ungroup(Sextet(s[0]), Sextet(s[1]), 0, 0)[..1])
    else if |s| == 3 then Some(Ungroup(Sextet(s[0]), Sextet(s[1]), Sextet(s[2]), 0)[..2])
    else match DecodeLetters(s[4..])
      case None => None
      case Some(rest) => Some(Ungroup(Sextet(s[0]), Sextet(s[1]), Sextet(s[2]), Sextet(s[3])) + rest)
  }

  predicate AllLetters(s: string) { forall i :: 0 <= i < |s| ==> IsLetter(s[i]) }

  lemma Packed(q: nat, r: nat)
    ensures r < 16 ==> (q * 16 + r) / 16 == q && (q * 16 + r) % 16 == r
    ensures r < 4 ==> (q * 4 + r) / 4 == q && (q * 4 + r) % 4 == r
  {
  }

  lemma {:induction false} GroupLetters(a: nat, b: nat, c: nat)
    requires a < 256 && b < 256 && c < 256
    ensures AllLetters(Group(a, b, c))
    ensures var s := Group(a, b, c);
            Ungroup(Sextet(s[0]), Sextet(s[1]), Sextet(s[2]), Sextet(s[3])) == [a as char, b as char, c as char]
  {
    hide Letter, Sextet, IsLetter;
    SextetLetter(a / 4);
    SextetLetter(a % 4 * 16 + b / 16);
    SextetLetter(b % 16 * 4 + c / 64);
    SextetLetter(c % 64);
    Packed(a % 4, b / 16);
    Packed(b % 16, c / 64);
    var s := Group(a, b, c);
    assert s[0] == Letter(a / 4) && s[1] == Letter(a % 4 * 16 + b / 16);
    assert s[2] == Letter(b % 16 * 4 + c / 64) && s[3] == Letter(c % 64);
    assert a / 4 * 4 + a % 4 == a && b / 16 * 16 + b % 16 == b && c / 64 * 64 + c % 64 == c;
  }

  lemma {:induction false} EncodeLetters(bytes: string)
    requires AllBytes(bytes)
    ensures AllLetters(Encode(bytes)) && DecodeLetters(Encode(bytes)) == Some(bytes)
    decreases |bytes|
  {
    hide Group, Ungroup;
    if |bytes| > 0 {
      var a := bytes[0] as int;
      var b, c := if |bytes| > 1 then bytes[1] as int else 0, if |bytes| > 2 then bytes[2] as int else 0;
      GroupLetters(a, b, c);
      var g, s := Group(a, b, c), Encode(bytes);
      if |bytes| == 1 {
        Zeros(a, b, c);
        assert s == [g[0], g[1]];
        assert DecodeLetters(s).value == [a as char, b as char, c as char][..1];
        assert bytes == [a as char, b as char, c as char][..1];
      } else if |bytes| == 2 {
        Zeros(a, b, c);
        assert s == [g[0], g[1], g[2]];
        assert DecodeLetters(s).value == [a as char, b as char, c as char][..2];
        assert bytes == [a as char, b as char, c as char][..2];
      } else {
        EncodeLetters(bytes[3..]);
        assert s[..4] == g && s[4..] == Encode(bytes[3..]);
        assert AllLetters(s) && s[0] == g[0] && s[1] == g[1] && s[2] == g[2] && s[3] == g[3];
        assert bytes == [bytes[0], bytes[1], bytes[2]] + bytes[3..];
      }
    }
  }

  /** Missing bytes leave zero letters behind. */
  lemma {:induction false} Zeros(a: nat, b: nat, c: nat)
    requires a < 256 && b < 256 && c == 0
    ensures Sextet(Group(a, b, c)[3]) == 0 && (b == 0 ==> Sextet(Group(a, b, c)[2]) == 0)
  {
    SextetLetter(0);
  }

  lemma {:induction false} LettersUnbroken(s: string)
    requires AllLetters(s)
    ensures Unbroken(s) == s
    decreases |s|
  {
    if s != "" {
      LettersUnbroken(s[1..]);
    }
  }

  /** Every byte string survives the encoding. */
  lemma {:induction false} DecodeEncode(bytes: string)
    requires AllBytes(bytes)
    ensures Decode(Encode(bytes)) == Some(bytes)
  {
    EncodeLetters(bytes);
    LettersUnbroken(Encode(bytes));
  }

  // ---------------------------------------------------------------- fields

  /** n as k bytes, most significant first. */
  function BigEndian(n: nat, k: nat): (s: string)
    ensures |s| == k && AllBytes(s)
    decreases k
  {
    if k == 0 then "" else BigEndian(n / 256, k - 1) + [(n % 256) as char]
  }

  function Power256(k: nat): nat { if k == 0 then 1 else 256 * Power256(k - 1) }

  lemma {:induction false} BigEndianInjective(m: nat, n: nat, k: nat)
    requires m < Power256(k) && n < Power256(k) && BigEndian(m, k) == BigEndian(n, k)
    ensures m == n
    decreases k
  {
    if k > 0 {
      var a, b := BigEndian(m, k), BigEndian(n, k);
      assert a[..k - 1] == BigEndian(m / 256, k - 1) && b[..k - 1] == BigEndian(n / 256, k - 1);
      assert a[k - 1] == (m % 256) as char && b[k - 1] == (n % 256) as char;
      BigEndianInjective(m / 256, n / 256, k - 1);
    }
  }

  /** What scopedKey hashes: every field after its length. */
  function Preimage(fields: seq<string>): string {
    if |fields| == 0 then "" else BigEndian(|fields[0]|, 8) + fields[0] + Preimage(fields[1..])
  }

  predicate Lengths(fields: seq<string>) { forall i :: 0 <= i < |fields| ==> |fields[i]| < Power256(8) }

  /** No two field lists are hashed from the same bytes, not even lists of different lengths. */
  lemma {:induction false} PreimageInjective(a: seq<string>, b: seq<string>)
    requires Lengths(a) && Lengths(b) && Preimage(a) == Preimage(b)
    ensures a == b
    decreases |a|
  {
    hide Power256, BigEndian;
    if |a| > 0 && |b| > 0 {
      var p := Preimage(a);
      assert p[..8] == BigEndian(|a[0]|, 8) && p[..8] == BigEndian(|b[0]|, 8);
      BigEndianInjective(|a[0]|, |b[0]|, 8);
      var n := 8 + |a[0]|;
      assert p[8..n] == a[0] && p[8..n] == b[0];
      assert p[n..] == Preimage(a[1..]) && p[n..] == Preimage(b[1..]);
      PreimageInjective(a[1..], b[1..]);
      assert a == [a[0]] + a[1..] && b == [b[0]] + b[1..];
    }
  }

  // ---------------------------------------------------------------- keys and their scope

  /** strings.Split(s, ":"). */
  function Split(s: string): (parts: seq<string>)
    ensures |parts| > 0
  {
    if s == "" then [""]
    else if s[0] == ':' then [""] + Split(s[1..])
    else var rest := Split(s[1..]); [[s[0]] + rest[0]] + rest[1..]
  }

  predicate NoColon(s: string) { ':' !in s }

  lemma {:induction false} SplitFirst(a: string, rest: string)
    requires NoColon(a)
    ensures Split(a + ":" + rest) == [a] + Split(rest)
    decreases |a|
  {
    var s := a + ":" + rest;
    if a == "" {
      assert s[1..] == rest;
    } else {
      assert s[1..] == a[1..] + ":" + rest;
      SplitFirst(a[1..], rest);
      assert a == [a[0]] + a[1..];
    }
  }

  const LegacyKinds: set<string> :=
    {"capabilities", "collections", "collection", "features", "feature", "tiles", "wfs-features",
      "counts", "mvt", "maptile"}

  function CacheScope(key: string): string {
    var parts := Split(key);
    if |parts| >= 4 && parts[0] == "v2" then
      (match Decode(parts[1]) case Some(scope) => scope case None => "")
    else if |parts| > 1 && parts[0] in LegacyKinds then parts[1]
    else parts[0]
  }

  /** scopedKey; `digest` stands for the hexadecimal SHA-256. */
  function ScopedKey(digest: string -> string, kind: string, workspace: string, fields: seq<string>): string
    requires AllBytes(workspace)
  {
    "v2:" + Encode(workspace) + ":" + kind + ":" + digest(Preimage(fields))
  }

  lemma {:induction false} ScopedKeyParts(digest: string -> string, kind: string,
      workspace: string, fields: seq<string>)
    requires AllBytes(workspace)
    ensures Split(ScopedKey(digest, kind, workspace, fields)) ==
            ["v2", Encode(workspace)] + Split(kind + ":" + digest(Preimage(fields)))
  {
    hide Encode, Preimage, Split;
    var code, rest := Encode(workspace), kind + ":" + digest(Preimage(fields));
    EncodeLetters(workspace);
    assert ScopedKey(digest, kind, workspace, fields) == "v2" + ":" + (code + ":" + rest);
    SplitFirst("v2", code + ":" + rest);
    SplitFirst(code, rest);
    assert ["v2"] + ([code] + Split(rest)) == ["v2", code] + Split(rest);
  }

  lemma {:induction false} SplitTwo(a: string, b: string)
    ensures |Split(a + ":" + b)| >= 2
    decreases |a|
  {
    var s := a + ":" + b;
    if a == "" {
      assert s[1..] == b;
    } else {
      assert s[1..] == a[1..] + ":" + b;
      SplitTwo(a[1..], b);
    }
  }

  /** The scope of a key is its workspace, byte for byte, whatever the workspace is called. */
  lemma {:induction false} ScopeIsWorkspace(digest: string -> string, kind: string,
      workspace: string, fields: seq<string>)
    requires AllBytes(workspace)
    ensures CacheScope(ScopedKey(digest, kind, workspace, fields)) == workspace
  {
    hide Encode, Preimage, Split, ScopedKey;
    ScopedKeyParts(digest, kind, workspace, fields);
    SplitTwo(kind, digest(Preimage(fields)));
    DecodeEncode(workspace);
  }

  /** Equal keys come from the same kind, workspace and fields, unless the digest collides. */
  lemma {:induction false} ScopedKeyIdentity(digest: string -> string, k1: string, w1: string, f1: seq<string>,
                                             k2: string, w2: string, f2: seq<string>)
    requires AllBytes(w1) && AllBytes(w2) && NoColon(k1) && NoColon(k2) && Lengths(f1) && Lengths(f2)
    requires NoColon(digest(Preimage(f1))) && NoColon(digest(Preimage(f2)))
    requires digest(Preimage(f1)) == digest(Preimage(f2)) ==> Preimage(f1) == Preimage(f2)
    ensures ScopedKey(digest, k1, w1, f1) == ScopedKey(digest, k2, w2, f2) <==> k1 == k2 && w1 == w2 && f1 == f2
  {
    hide Encode, Decode, Preimage, Split, ScopedKey, Lengths;
    if ScopedKey(digest, k1, w1, f1) == ScopedKey(digest, k2, w2, f2) {
      var d1, d2 := digest(Preimage(f1)), digest(Preimage(f2));
      ScopedKeyParts(digest, k1, w1, f1);
      ScopedKeyParts(digest, k2, w2, f2);
      SplitFirst(k1, d1);
      SplitFirst(k2, d2);
      SplitWhole(d1);
      SplitWhole(d2);
      var p1 := ["v2", Encode(w1)] + ([k1] + [d1]);
      var p2 := ["v2", Encode(w2)] + ([k2] + [d2]);
      assert p1[1] == p2[1] && p1[2] == p2[2] && p1[3] == p2[3];
      DecodeEncode(w1);
      DecodeEncode(w2);
      PreimageInjective(f1, f2);
    }
  }

  lemma {:induction false} SplitWhole(s: string)
    requires NoColon(s)
    ensures Split(s) == [s]
    decreases |s|
  {
    if s != "" {
      SplitWhole(s[1..]);
      assert s == [s[0]] + s[1..];
    }
  }
}
