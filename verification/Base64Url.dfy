// The unpadded base64url encoding of section 5 of RFC 4648.
module Base64Url {
  import opened Wrappers

  newtype Byte = x: int | 0 <= x < 256

  function Symbol(v: nat): (c: char)
    requires v < 64
    ensures IsSymbol(c)
  {
    if v < 26 then 'A' + v as char
    else if v < 52 then 'a' + (v - 26) as char
    else if v < 62 then '0' + (v - 52) as char
    else if v == 62 then '-'
    else '_'
  }

  predicate IsSymbol(c: char) {
    'A' <= c <= 'Z' || 'a' <= c <= 'z' || '0' <= c <= '9' || c == '-' || c == '_'
  }

  function SymbolValue(c: char): (v: nat)
    requires IsSymbol(c)
    ensures v < 64 && Symbol(v) == c
  {
    if 'A' <= c <= 'Z' then (c - 'A') as nat
    else if 'a' <= c <= 'z' then (c - 'a') as nat + 26
    else if '0' <= c <= '9' then (c - '0') as nat + 52
    else if c == '-' then 62
    else 63
  }

  lemma SymbolInjective(v: nat)
    requires v < 64
    ensures SymbolValue(Symbol(v)) == v
  {
  }

  /** The four six-bit values of three bytes. */
  function Sextets(a: Byte, b: Byte, c: Byte): (nat, nat, nat, nat) {
    var (a, b, c) := (a as nat, b as nat, c as nat);
    (a / 4, a % 4 * 16 + b / 16, b % 16 * 4 + c / 64, c % 64)
  }

  predicate AreSextets(p: nat, q: nat, r: nat, t: nat) {
    p < 64 && q < 64 && r < 64 && t < 64
  }

  /** The three bytes of four six-bit values. */
  function Bytes(p: nat, q: nat, r: nat, t: nat): (Byte, Byte, Byte)
    requires AreSextets(p, q, r, t)
  {
    ((p * 4 + q / 16) as Byte, (q % 16 * 16 + r / 4) as Byte, (r % 4 * 64 + t) as Byte)
  }

  /** Regrouping three bytes as four six-bit values loses nothing. */
  lemma BytesOfSextets(a: Byte, b: Byte, c: Byte)
    ensures var (p, q, r, t) := Sextets(a, b, c); AreSextets(p, q, r, t) && Bytes(p, q, r, t) == (a, b, c)
  {
    var (a, b, c) := (a as nat, b as nat, c as nat);
    assert (a % 4 * 16 + b / 16) / 16 == a % 4;
    assert (a % 4 * 16 + b / 16) % 16 == b / 16;
    assert (b % 16 * 4 + c / 64) / 4 == b % 16;
    assert (b % 16 * 4 + c / 64) % 4 == c / 64;
  }

  /** Regrouping four six-bit values as three bytes loses nothing. */
  lemma SextetsOfBytes(p: nat, q: nat, r: nat, t: nat)
    requires AreSextets(p, q, r, t)
    ensures var (a, b, c) := Bytes(p, q, r, t); Sextets(a, b, c) == (p, q, r, t)
  {
    var (a, b, c) := (p * 4 + q / 16, q % 16 * 16 + r / 4, r % 4 * 64 + t);
    assert a / 4 == p && a % 4 == q / 16;
    assert b / 16 == q % 16 && b % 16 == r / 4;
    assert c / 64 == r % 4 && c % 64 == t;
  }

  /** The symbols of a group of up to three bytes; missing bytes count as zero. */
  function EncodeGroup(g: seq<Byte>): (s: string)
    requires 1 <= |g| <= 3
    ensures |s| == |g| + 1 && forall c :: c in s ==> IsSymbol(c)
  {
    var (a, b, c) := (g[0], if |g| > 1 then g[1] else 0, if |g| > 2 then g[2] else 0);
    BytesOfSextets(a, b, c);
    var (p, q, r, t) := Sextets(a, b, c);
    [Symbol(p), Symbol(q), Symbol(r), Symbol(t)][..|g| + 1]
  }

  /** The bytes of a group of symbols: no foreign symbols, no stray bits in the last one. */
  function DecodeGroup(s: string): (g: Option<seq<Byte>>)
    requires 2 <= |s| <= 4
    ensures g.Some? ==> |g.value| == |s| - 1
  {
    if !(forall c | c in s :: IsSymbol(c)) then None
    else
      var p, q := SymbolValue(s[0]), SymbolValue(s[1]);
      var r := if |s| > 2 then SymbolValue(s[2]) else 0;
      var t := if |s| > 3 then SymbolValue(s[3]) else 0;
      var (a, b, c) := Bytes(p, q, r, t);
      if |s| == 2 then (if b == 0 then Some([a]) else None)
      else if |s| == 3 then (if c == 0 then Some([a, b]) else None)
      else Some([a, b, c])
  }

  function Encode(bytes: seq<Byte>): string {
    if |bytes| == 0 then ""
    else if |bytes| <= 3 then EncodeGroup(bytes)
    else EncodeGroup(bytes[..3]) + Encode(bytes[3..])
  }

  /** The strict decoder: no padding and no text that no bytes encode to. */
  function Decode(s: string): Option<seq<Byte>> {
    if |s| == 0 then Some([])
    else if |s| == 1 then None
    else if |s| <= 4 then DecodeGroup(s)
    else
      match (DecodeGroup(s[..4]), Decode(s[4..]))
      case (Some(group), Some(rest)) => Some(group + rest)
      case _ => None
  }

  lemma DecodeEncodeGroup(g: seq<Byte>)
    requires 1 <= |g| <= 3
    ensures DecodeGroup(EncodeGroup(g)) == Some(g)
  {
    var (a, b, c) := (g[0], if |g| > 1 then g[1] else 0, if |g| > 2 then g[2] else 0);
    BytesOfSextets(a, b, c);
    var (p, q, r, t) := Sextets(a, b, c);
    SymbolInjective(p);
    SymbolInjective(q);
    SymbolInjective(r);
    SymbolInjective(t);
    assert (|g| < 2 ==> r == 0) && (|g| < 3 ==> t == 0);
    var s := EncodeGroup(g);
    assert s[0] == Symbol(p) && s[1] == Symbol(q);
    assert (|g| > 1 ==> s[2] == Symbol(r)) && (|g| > 2 ==> s[3] == Symbol(t));
    assert SymbolValue(s[0]) == p && SymbolValue(s[1]) == q;
    assert g == if |g| == 1 then [a] else if |g| == 2 then [a, b] else [a, b, c];
  }

  lemma EncodeDecodeGroup(s: string)
    requires 2 <= |s| <= 4 && DecodeGroup(s).Some?
    ensures EncodeGroup(DecodeGroup(s).value) == s
  {
    var p, q := SymbolValue(s[0]), SymbolValue(s[1]);
    var r := if |s| > 2 then SymbolValue(s[2]) else 0;
    var t := if |s| > 3 then SymbolValue(s[3]) else 0;
    SextetsOfBytes(p, q, r, t);
    assert s == [Symbol(p), Symbol(q), Symbol(r), Symbol(t)][..|s|];
  }

  lemma {:induction false} EncodeAlphabet(bytes: seq<Byte>)
    ensures forall c :: c in Encode(bytes) ==> IsSymbol(c)
  {
    if |bytes| <= 3 {
    } else {
      EncodeAlphabet(bytes[3..]);
    }
  }

  /** Decoding undoes encoding. */
  lemma {:induction false} DecodeEncode(bytes: seq<Byte>)
    ensures Decode(Encode(bytes)) == Some(bytes)
    ensures bytes != [] ==> |Encode(bytes)| >= 2
  {
    if bytes == [] {
    } else if |bytes| <= 3 {
      DecodeEncodeGroup(bytes);
    } else {
      DecodeEncodeGroup(bytes[..3]);
      DecodeEncode(bytes[3..]);
      var s := Encode(bytes);
      assert s[..4] == EncodeGroup(bytes[..3]) && s[4..] == Encode(bytes[3..]);
      assert bytes == bytes[..3] + bytes[3..];
    }
  }

  /** Every text that decodes is the encoding of what it decodes to. */
  lemma {:induction false} EncodeDecode(s: string)
    requires Decode(s).Some?
    ensures Encode(Decode(s).value) == s
    ensures s != "" ==> Decode(s).value != []
  {
    if s == "" {
    } else if |s| <= 4 {
      EncodeDecodeGroup(s);
    } else {
      EncodeDecodeGroup(s[..4]);
      EncodeDecode(s[4..]);
      var group, rest := DecodeGroup(s[..4]).value, Decode(s[4..]).value;
      assert (group + rest)[..3] == group && (group + rest)[3..] == rest;
      assert s == s[..4] + s[4..];
    }
  }
}
