// The GitHub App JWT in the compact form of section 7.1 of RFC 7515.
module Jwt {
  import opened Wrappers
  import opened Text
  import opened Base64Url

  const GITHUB_APP_JWT_TTL_SECONDS: nat := 9 * 60
  const CLOCK_SKEW_SECONDS: nat := 60
  const U64_LIMIT: nat := 0x1_0000_0000_0000_0000

  datatype JwtError = Overflow | SigningFailed

  datatype GithubAppClaims = GithubAppClaims(iat: nat, exp: nat, iss: string)

  /** The claims at an instant; `None` where the expiry does not fit in 64 bits. */
  function ClaimsAt(appId: nat, now: nat): Option<GithubAppClaims> {
    var issuedAt := if now < CLOCK_SKEW_SECONDS then 0 else now - CLOCK_SKEW_SECONDS;
    var exp := issuedAt + GITHUB_APP_JWT_TTL_SECONDS;
    if exp < U64_LIMIT then Some(GithubAppClaims(issuedAt, exp, Decimal(appId))) else None
  }

  const HEADER_TEXT := "{\"alg\":\"RS256\",\"typ\":\"JWT\"}"

  /** The claims as JSON, in the order of the fields. */
  function ClaimsText(claims: GithubAppClaims): string {
    Join(ClaimsParts(claims), ',')
  }

  const IAT := "{\"iat\":"
  const EXP := "\"exp\":"
  const ISS := "\"iss\":\""
  const END := "\"}"

  function ClaimsParts(claims: GithubAppClaims): seq<string> {
    [IAT + Decimal(claims.iat), EXP + Decimal(claims.exp), ISS + claims.iss + END]
  }

  lemma Quotes()
    ensures "," + EXP == ",\"exp\":" && "," + ISS == ",\"iss\":\"" && IAT == "{\"iat\":" && END == "\"}"
  {
  }

  lemma JoinThree(a: string, b: string, c: string, d: string, e: string, f: string)
    ensures Join([a, b + c, d + e + f], ',') == a + ("," + b) + c + ("," + d) + e + f
  {
    assert [a, b + c, d + e + f] == [a] + [b + c, d + e + f];
    JoinFirst(a, [b + c, d + e + f], ',');
    assert [b + c, d + e + f] == [b + c] + [d + e + f];
    JoinFirst(b + c, [d + e + f], ',');
    assert Join([d + e + f], ',') == d + e + f;
    assert a + "," + (b + c + "," + (d + e + f)) == a + ("," + b) + c + ("," + d) + e + f;
  }

  /** The claims part as it is written. */
  lemma ClaimsTextForm(claims: GithubAppClaims)
    ensures ClaimsText(claims) ==
      "{\"iat\":" + Decimal(claims.iat) + ",\"exp\":" + Decimal(claims.exp) + ",\"iss\":\"" + claims.iss + "\"}"
  {
    Quotes();
    JoinThree(IAT + Decimal(claims.iat), EXP, Decimal(claims.exp), ISS, claims.iss, END);
  }

  /** What stands between the two literals, if the text has that form. */
  function Between(s: string, before: string, after: string): Option<string> {
    if |before| + |after| <= |s| && s[..|before|] == before && s[|s| - |after|..] == after
    then Some(s[|before|..|s| - |after|])
    else None
  }

  lemma BetweenInside(before: string, middle: string, after: string)
    ensures Between(before + middle + after, before, after) == Some(middle)
  {
    var s := before + middle + after;
    assert s[..|before|] == before && s[|s| - |after|..] == after;
    assert s[|before|..|s| - |after|] == middle;
  }

  /** The claims that a text in this form stands for. */
  function ReadClaims(text: string): Option<GithubAppClaims> {
    var parts := Split(text, ',');
    if |parts| != 3 then None
    else
      match (Between(parts[0], IAT, ""), Between(parts[1], EXP, ""), Between(parts[2], ISS, END))
      case (Some(iat), Some(exp), Some(iss)) =>
        (match (ParseDecimal(iat), ParseDecimal(exp))
         case (Some(iat), Some(exp)) => Some(GithubAppClaims(iat, exp, iss))
         case _ => None)
      case _ => None
  }

  lemma ClaimsPartsReadBack(claims: GithubAppClaims)
    requires ',' !in claims.iss
    ensures Split(ClaimsText(claims), ',') == ClaimsParts(claims)
  {
    DecimalRoundTrip(claims.iat);
    DecimalRoundTrip(claims.exp);
    SplitJoin(ClaimsParts(claims), ',');
  }

  lemma ClaimsTextReadsBack(claims: GithubAppClaims)
    requires ',' !in claims.iss
    ensures ReadClaims(ClaimsText(claims)) == Some(claims)
  {
    ClaimsPartsReadBack(claims);
    var (iat, exp) := (Decimal(claims.iat), Decimal(claims.exp));
    BetweenInside(IAT, iat, "");
    assert IAT + iat + "" == IAT + iat;
    BetweenInside(EXP, exp, "");
    assert EXP + exp + "" == EXP + exp;
    BetweenInside(ISS, claims.iss, END);
    DecimalRoundTrip(claims.iat);
    DecimalRoundTrip(claims.exp);
  }

  /** The bytes of a text of ASCII characters. */
  function AsciiBytes(s: string): seq<Byte> {
    seq(|s|, i requires 0 <= i < |s| => if s[i] as int < 128 then s[i] as int as Byte else 0)
  }

  function AsciiText(bytes: seq<Byte>): string {
    seq(|bytes|, i requires 0 <= i < |bytes| => bytes[i] as int as char)
  }

  lemma AsciiRoundTrip(s: string)
    requires forall c :: c in s ==> c as int < 128
    ensures AsciiText(AsciiBytes(s)) == s
  {
    var r := AsciiText(AsciiBytes(s));
    forall i | 0 <= i < |s| ensures r[i] == s[i] {
      assert s[i] in s;
    }
  }

  lemma {:induction false} JoinIsAscii(parts: seq<string>, separator: char)
    requires separator as int < 128 && forall part, c :: part in parts && c in part ==> c as int < 128
    ensures forall c :: c in Join(parts, separator) ==> c as int < 128
  {
    if |parts| <= 1 {
    } else {
      JoinIsAscii(parts[1..], separator);
    }
  }

  lemma ClaimsTextIsAscii(claims: GithubAppClaims)
    requires forall c :: c in claims.iss ==> c as int < 128
    ensures forall c :: c in ClaimsText(claims) ==> c as int < 128
  {
    var parts := ClaimsParts(claims);
    forall part, c | part in parts && c in part ensures c as int < 128 {
      assert part == parts[0] || part == parts[1] || part == parts[2];
    }
    JoinIsAscii(parts, ',');
  }

  type Signer = seq<Byte> -> Option<seq<Byte>>

  function SigningInput(claims: GithubAppClaims): string {
    Encode(AsciiBytes(HEADER_TEXT)) + "." + Encode(AsciiBytes(ClaimsText(claims)))
  }

  function BuildGithubAppJwtAt(appId: nat, sign: Signer, now: nat): Result<string, JwtError> {
    match ClaimsAt(appId, now)
    case None => Err(Overflow)
    case Some(claims) =>
      match sign(AsciiBytes(SigningInput(claims)))
      case None => Err(SigningFailed)
      case Some(signature) => Ok(SigningInput(claims) + "." + Encode(signature))
  }

  lemma NoDot(bytes: seq<Byte>)
    ensures '.' !in Encode(bytes)
  {
    EncodeAlphabet(bytes);
  }

  lemma ThreeParts(a: seq<Byte>, b: seq<Byte>, c: seq<Byte>)
    ensures Split(Encode(a) + "." + Encode(b) + "." + Encode(c), '.') == [Encode(a), Encode(b), Encode(c)]
  {
    NoDot(a);
    NoDot(b);
    NoDot(c);
    SplitThree(Encode(a), Encode(b), Encode(c), '.');
  }

  /** What a verifier reads in one part of a JWT. */
  function PartText(part: string): Option<string> {
    match Decode(part)
    case None => None
    case Some(bytes) => Some(AsciiText(bytes))
  }

  lemma PartReadsBack(text: string)
    requires forall c :: c in text ==> c as int < 128
    ensures PartText(Encode(AsciiBytes(text))) == Some(text)
  {
    DecodeEncode(AsciiBytes(text));
    AsciiRoundTrip(text);
  }

  lemma HeaderReadsBack()
    ensures PartText(Encode(AsciiBytes(HEADER_TEXT))) == Some(HEADER_TEXT)
  {
    PartReadsBack(HEADER_TEXT);
  }

  lemma ClaimsReadBack(appId: nat, now: nat)
    requires ClaimsAt(appId, now).Some?
    ensures var part := Encode(AsciiBytes(ClaimsText(ClaimsAt(appId, now).value)));
      PartText(part).Some? && ReadClaims(PartText(part).value) == ClaimsAt(appId, now)
  {
    var claims := ClaimsAt(appId, now).value;
    ClaimsTextIsAscii(claims);
    PartReadsBack(ClaimsText(claims));
    ClaimsTextReadsBack(claims);
  }

  /** Splitting a JWT at its dots gives exactly three parts: the header, the claims of this app at this
      instant, and what the signer made of the first two parts as they stand. */
  lemma JwtReadsBack(appId: nat, sign: Signer, now: nat)
    requires BuildGithubAppJwtAt(appId, sign, now).Ok?
    ensures var parts := Split(BuildGithubAppJwtAt(appId, sign, now).value, '.');
      && |parts| == 3
      && PartText(parts[0]) == Some("{\"alg\":\"RS256\",\"typ\":\"JWT\"}")
      && PartText(parts[1]).Some?
      && ReadClaims(PartText(parts[1]).value) == ClaimsAt(appId, now)
      && sign(AsciiBytes(parts[0] + "." + parts[1])).Some?
      && Decode(parts[2]) == sign(AsciiBytes(parts[0] + "." + parts[1]))
  {
    var claims := ClaimsAt(appId, now).value;
    var signature := sign(AsciiBytes(SigningInput(claims))).value;
    ThreeParts(AsciiBytes(HEADER_TEXT), AsciiBytes(ClaimsText(claims)), signature);
    HeaderReadsBack();
    ClaimsReadBack(appId, now);
    DecodeEncode(signature);
  }

  /** The claims name the app, start no later than now, last nine minutes and have not run out; they
      exist for all but the last 480 seconds that 64 bits can count. */
  lemma ClaimsWindow(appId: nat, now: nat)
    requires now < 18_446_744_073_709_551_616
    ensures ClaimsAt(appId, now).Some? <==> now < 18_446_744_073_709_551_616 - 480
    ensures ClaimsAt(appId, now).Some? ==>
      var claims := ClaimsAt(appId, now).value;
      && claims.exp - claims.iat == 540 && claims.iat <= now < claims.exp
      && claims.iat == (if now < 60 then 0 else now - 60)
      && ParseDecimal(claims.iss) == Some(appId)
  {
    DecimalRoundTrip(appId);
  }

  /** Exactly when there is a JWT: the expiry fits in 64 bits and the signer signs header and claims. */
  lemma JwtOutcome(appId: nat, sign: Signer, now: nat)
    requires now < 18_446_744_073_709_551_616
    ensures BuildGithubAppJwtAt(appId, sign, now) == Err(Overflow) <==> now >= 18_446_744_073_709_551_616 - 480
    ensures now < 18_446_744_073_709_551_616 - 480 ==>
      (BuildGithubAppJwtAt(appId, sign, now) == Err(SigningFailed) <==>
        sign(AsciiBytes(SigningInput(ClaimsAt(appId, now).value))).None?)
  {
  }
}
