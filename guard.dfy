/**
 * JwtAuthGuard: reads `Authorization: Bearer <token>`, verifies the token under the module's
 * secret and attaches its payload to the request.
 */
module Guard {
  import opened Wrappers
  import opened Crypto
  import opened Store
  import opened Auth

  const TokenMissing := Unauthorized("Token manquant")

  /** String.prototype.split(' '): every single space separates two pieces, empty ones included. */
  function Split(s: string): (parts: seq<string>)
    ensures |parts| >= 1
    ensures forall i :: 0 <= i < |parts| ==> ' ' !in parts[i]
  {
    if s == [] then [""]
    else
      var rest := Split(s[1..]);
      if s[0] == ' ' then [""] + rest else [[s[0]] + rest[0]] + rest[1..]
  }

  /** Array.prototype.join(' '). */
  function Join(parts: seq<string>): string
    requires |parts| >= 1
  {
    if |parts| == 1 then parts[0] else parts[0] + " " + Join(parts[1..])
  }

  /** Splitting loses nothing: joining the pieces back gives the header. */
  lemma {:induction false} JoinSplit(s: string)
    ensures Join(Split(s)) == s
  {
    if s != [] {
      var rest := Split(s[1..]);
      JoinSplit(s[1..]);
      if s[0] == ' ' {
        assert Split(s) == [""] + rest;
        assert Split(s)[1..] == rest;
      } else {
        var parts := Split(s);
        assert parts[1..] == rest[1..];
        if |rest| == 1 {
          assert s == [s[0]] + s[1..];
        } else {
          assert Join(rest) == rest[0] + " " + Join(rest[1..]);
          assert s == [s[0]] + s[1..];
        }
      }
    }
  }

  lemma {:induction false} SplitNoSpace(a: string)
    requires ' ' !in a
    ensures Split(a) == [a]
  {
    if a != [] {
      SplitNoSpace(a[1..]);
      assert [a[0]] + a[1..] == a;
    }
  }

  lemma {:induction false} SplitAtSpace(a: string, b: string)
    requires ' ' !in a
    ensures Split(a + " " + b) == [a] + Split(b)
  {
    if a == [] {
      assert a + " " + b == " " + b;
      assert (" " + b)[1..] == b;
    } else {
      var s := a + " " + b;
      assert s[1..] == a[1..] + " " + b;
      SplitAtSpace(a[1..], b);
      assert [a[0]] + a[1..] == a;
    }
  }

  /** The token of the header, or the error the guard throws before any verification. */
  function BearerToken(header: Option<string>): (r: Result<string, Error>)
    ensures r.Err? ==> r == Err(TokenMissing) || r == Err(InvalidToken)
    ensures r == Err(TokenMissing) <==> header.None? || header.value == ""
    ensures r.Ok? ==> r.value != "" && ' ' !in r.value
  {
    if header.None? || header.value == "" then Err(TokenMissing)
    else
      var parts := Split(header.value);
      if parts[0] != "Bearer" || |parts| < 2 || parts[1] == "" then Err(InvalidToken)
      else Ok(parts[1])
  }

  /** An accepted header is `Bearer `, the token, then nothing or a space and anything. */
  lemma BearerTokenShape(header: Option<string>)
    requires BearerToken(header).Ok?
    ensures exists rest :: header.value == "Bearer " + BearerToken(header).value + rest && (rest == "" || rest[0] == ' ')
  {
    var parts := Split(header.value);
    JoinSplit(header.value);
    var t := parts[1];
    if |parts| == 2 {
      assert header.value == "Bearer " + t + "";
    } else {
      assert Join(parts[1..]) == t + " " + Join(parts[2..]);
      var rest := " " + Join(parts[2..]);
      assert header.value == "Bearer " + t + rest;
    }
  }

  /** Conversely, every such header is accepted, whatever follows the token. */
  lemma BearerTokenAccepts(t: string, rest: string)
    requires t != "" && ' ' !in t
    requires rest == "" || rest[0] == ' '
    ensures BearerToken(Some("Bearer " + t + rest)) == Ok(t)
  {
    var h := "Bearer " + t + rest;
    assert h == "Bearer" + " " + (t + rest);
    SplitAtSpace("Bearer", t + rest);
    if rest == "" {
      assert t + rest == t;
      SplitNoSpace(t);
    } else {
      assert t + rest == t + " " + rest[1..];
      SplitAtSpace(t, rest[1..]);
    }
  }

  /** A doubled space leaves an empty second piece: `Bearer  x` is refused. */
  lemma DoubleSpaceRejected()
    ensures BearerToken(Some("Bearer  x")) == Err(InvalidToken)
  {
    assert "Bearer  x" == "Bearer" + " " + " x";
    SplitAtSpace("Bearer", " x");
    assert Split(" x") == [""] + Split("x");
  }

  /** canActivate's verdict: the verified payload, or the error thrown. */
  function GuardOutcome(header: Option<string>, jwt: Jwt): (r: Result<Claims, Error>)
    ensures r.Ok? <==> BearerToken(header).Ok? && jwt.verify(BearerToken(header).value, ModuleSecret).Some?
    ensures r.Ok? ==> r.value == jwt.verify(BearerToken(header).value, ModuleSecret).value
    ensures r.Err? ==> r.error == if header.None? || header.value == "" then TokenMissing else InvalidToken
  {
    match BearerToken(header)
    case Err(e) => Err(e)
    case Ok(token) =>
      match jwt.verify(token, ModuleSecret)
      case None => Err(InvalidToken)
      case Some(payload) => Ok(payload)
  }

  /** The access token of any issued pair passes the guard and yields exactly its payload. */
  lemma AccessTokenPassesGuard(claims: Claims, env: Env, jwt: Jwt)
    requires RoundTrip(jwt) && Compact(jwt)
    ensures GuardOutcome(Some("Bearer " + IssueTokens(claims, env, jwt).accessToken), jwt) == Ok(claims)
  {
    var t := IssueTokens(claims, env, jwt).accessToken;
    assert t == jwt.sign(claims, ModuleDefaults);
    BearerTokenAccepts(t, "");
    assert "Bearer " + t + "" == "Bearer " + t;
  }

  /** The part of the HTTP request the guard reads and writes. */
  class HttpRequest {
    const authorization: Option<string>
    var user: Option<Claims>

    constructor (authorization: Option<string>)
      ensures this.authorization == authorization && user == None
    {
      this.authorization := authorization;
      user := None;
    }
  }

  /** canActivate: on success `request.user` is exactly the verified payload; on failure it is untouched. */
  method CanActivate(request: HttpRequest, jwt: Jwt) returns (r: Result<bool, Error>)
    modifies request
    ensures GuardOutcome(request.authorization, jwt).Ok? ==>
              r == Ok(true) && request.user == Some(GuardOutcome(request.authorization, jwt).value)
    ensures GuardOutcome(request.authorization, jwt).Err? ==>
              r == Err(GuardOutcome(request.authorization, jwt).error) && request.user == old(request.user)
  {
    var token := BearerToken(request.authorization);
    if token.Err? {
      return Err(token.error);
    }
    var payload := jwt.verify(token.value, ModuleSecret);
    if payload.None? {
      return Err(InvalidToken);
    }
    request.user := payload;
    r := Ok(true);
  }
}
