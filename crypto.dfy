/**
 * The cryptographic collaborators of the services, abstracted.
 *
 * - bcrypt: `Hash` is an injective digest and `Compare(x, Hash(y))` holds exactly when x == y.
 *   Salt and cost factor are not modelled.
 * - crypto.randomBytes(32).toString('hex'): the random bytes are a parameter; the hex
 *   encoding is modelled exactly, with its decoder as partner.
 * - JSON Web Tokens: a `Jwt` value is the signer and the verifier as they stand at the
 *   instant of one call (issue time and expiry are folded into them). `RoundTrip` is the
 *   property the rest of the model assumes of them: a token verifies, under the key it was
 *   signed with, to the payload it was signed over.
 */
module Crypto {
  import opened Wrappers

  // ---------------------------------------------------------------- bcrypt

  /** A stored password or refresh-token digest. */
  datatype Digest = Bcrypt(preimage: string)

  /** bcrypt.hash(s, 10), salt and cost left out. */
  function Hash(s: string): Digest {
    Bcrypt(s)
  }

  /** bcrypt.compare(candidate, digest). */
  predicate Compare(candidate: string, digest: Digest) {
    digest == Hash(candidate)
  }

  lemma CompareHash(x: string, y: string)
    ensures Compare(x, Hash(y)) <==> x == y
  {
  }

  /** bcryptjs hashes at most this many bytes of its input and ignores the rest. */
  const BcryptInputLimit := 72

  /** The part of an input that bcryptjs reads; the tokens hashed here are ASCII, one byte per character. */
  function BcryptInput(s: string): (p: string)
    ensures |p| == if |s| <= BcryptInputLimit then |s| else BcryptInputLimit
    ensures p <= s
  {
    if |s| <= BcryptInputLimit then s else s[..BcryptInputLimit]
  }

  /** bcrypt.hash as bcryptjs computes it: a digest of the first 72 bytes only. */
  function TruncatedHash(s: string): Digest {
    Bcrypt(BcryptInput(s))
  }

  /** bcrypt.compare as bcryptjs computes it. */
  predicate TruncatedCompare(candidate: string, digest: Digest) {
    digest == TruncatedHash(candidate)
  }

  /** Two inputs that agree on their first 72 characters match each other's truncated digest. */
  lemma TruncatedCompareIgnoresTail(a: string, b: string)
    requires BcryptInputLimit <= |a| && BcryptInputLimit <= |b| && a[..BcryptInputLimit] == b[..BcryptInputLimit]
    ensures TruncatedCompare(a, TruncatedHash(b)) && TruncatedCompare(b, TruncatedHash(a))
  {
  }

  // ---------------------------------------------------------------- hex tokens

  newtype byte = x: int | 0 <= x < 256

  predicate IsHexDigit(c: char) {
    '0' <= c <= '9' || 'a' <= c <= 'f'
  }

  /** The lower-case hex digit of a nibble, as Buffer.toString('hex') writes it. */
  function HexChar(n: int): (c: char)
    requires 0 <= n < 16
    ensures IsHexDigit(c)
  {
    if n < 10 then ('0' as int + n) as char else ('a' as int + n - 10) as char
  }

  function HexValue(c: char): (r: Option<int>)
    ensures r.Some? <==> IsHexDigit(c)
    ensures r.Some? ==> 0 <= r.value < 16 && HexChar(r.value) == c
  {
    if '0' <= c <= '9' then Some(c as int - '0' as int)
    else if 'a' <= c <= 'f' then Some(c as int - 'a' as int + 10)
    else None
  }

  /** Buffer.toString('hex'): two lower-case hex digits per byte, high nibble first. */
  function HexEncode(bytes: seq<byte>): (s: string)
    ensures |s| == 2 * |bytes|
    ensures forall i :: 0 <= i < |s| ==> IsHexDigit(s[i])
  {
    if bytes == [] then ""
    else [HexChar(bytes[0] as int / 16), HexChar(bytes[0] as int % 16)] + HexEncode(bytes[1..])
  }

  /** The inverse of HexEncode; None on odd length or a non-hex character. */
  function HexDecode(s: string): (r: Option<seq<byte>>)
    ensures r.Some? ==> 2 * |r.value| == |s|
  {
    if |s| == 0 then Some([])
    else if |s| == 1 then None
    else match (HexValue(s[0]), HexValue(s[1]), HexDecode(s[2..]))
      case (Some(hi), Some(lo), Some(rest)) => Some([(hi * 16 + lo) as byte] + rest)
      case _ => None
  }

  lemma {:induction false} HexRoundTrip(bytes: seq<byte>)
    ensures HexDecode(HexEncode(bytes)) == Some(bytes)
  {
    if bytes != [] {
      var b := bytes[0] as int;
      var s := HexEncode(bytes);
      assert s[2..] == HexEncode(bytes[1..]);
      HexRoundTrip(bytes[1..]);
      assert HexValue(s[0]) == Some(b / 16);
      assert HexValue(s[1]) == Some(b % 16);
      assert [(b / 16 * 16 + b % 16) as byte] + bytes[1..] == bytes;
    }
  }

  /** A hex encoding is determined by its bytes: distinct entropy, distinct tokens. */
  lemma HexEncodeInjective(a: seq<byte>, b: seq<byte>)
    requires HexEncode(a) == HexEncode(b)
    ensures a == b
  {
    HexRoundTrip(a);
    HexRoundTrip(b);
  }

  // ---------------------------------------------------------------- JSON Web Tokens

  /** The payload every token of this system carries: `{sub, email, role, orgId}`. */
  datatype Claims = Claims(sub: int, email: string, role: string, orgId: int)

  /** jwtService.signAsync options: the module's defaults, or an explicit secret and lifetime. */
  datatype SignOptions = ModuleDefaults | Custom(secret: string, expiresIn: string)

  /** jwtService.verifyAsync options: the module's secret, or an explicit one. */
  datatype VerifyOptions = ModuleSecret | Secret(secret: string)

  /** The signer and the verifier as they stand at the instant of one call. */
  datatype Jwt = Jwt(sign: (Claims, SignOptions) -> string, verify: (string, VerifyOptions) -> Option<Claims>)

  /** A token verifies, under the key it was signed with, to the payload it was signed over. */
  ghost predicate RoundTrip(jwt: Jwt) {
    && (forall c :: jwt.verify(jwt.sign(c, ModuleDefaults), ModuleSecret) == Some(c))
    && (forall c, s, e :: jwt.verify(jwt.sign(c, Custom(s, e)), Secret(s)) == Some(c))
  }

  /** Compact serialisation: a signed token is never empty and holds no space. */
  ghost predicate Compact(jwt: Jwt) {
    forall c, o :: jwt.sign(c, o) != "" && ' ' !in jwt.sign(c, o)
  }
}
