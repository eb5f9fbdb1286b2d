/** Bearer-token authentication: `verifyJWT` and the `/jwt` issuance window.
    The token's cryptography is abstract: a `Verifier` is `jwt.verify` with the
    server's secret, giving the signed payload of a token string whose
    signature checks out and nothing for a malformed or forged one. */
module Tokens {
  import opened Records

  /** The signed claims. `/jwt` signs the request body verbatim; the server
      only ever reads its `email`. */
  datatype Claims = Claims(email: Email)

  /** A verified token's payload: the claims plus the `iat` and `exp`
      timestamps (seconds) that the signing library adds. */
  datatype Payload = Payload(claims: Claims, iat: int, exp: int)

  /** `expiresIn: "1h"`, in seconds. */
  const ExpiresIn: int := 3600

  type Verifier = string -> Option<Payload>

  /** The payload `/jwt` signs for the request body `claims`, issued at
      `iat`; `expiresIn` counts from `iat`. */
  function Issue(claims: Claims, iat: int): Payload {
    Payload(claims, iat, iat + ExpiresIn)
  }

  /** JavaScript's `s.split(sep)` for a one-character separator: the maximal
      runs between separators, empty runs included. */
  function Split(s: string, sep: char): (r: seq<string>)
    ensures |r| >= 1
    ensures forall i :: 0 <= i < |r| ==> sep !in r[i]
    decreases |s|
  {
    if s == [] then [""]
    else
      var rest := Split(s[1..], sep);
      if s[0] == sep then [""] + rest
      else [[s[0]] + rest[0]] + rest[1..]
  }

  /** JavaScript's `fields.join(sep)`. */
  function Join(fields: seq<string>, sep: char): string
    requires |fields| >= 1
    decreases |fields|
  {
    if |fields| == 1 then fields[0] else fields[0] + [sep] + Join(fields[1..], sep)
  }

  lemma {:induction false} JoinSplit(s: string, sep: char)
    ensures Join(Split(s, sep), sep) == s
    decreases |s|
  {
    if s != [] {
      JoinSplit(s[1..], sep);
      var rest := Split(s[1..], sep);
      if s[0] != sep && |rest| > 1 {
        assert Join(rest, sep) == rest[0] + [sep] + Join(rest[1..], sep);
        assert rest[1..][1..] == rest[2..];
      }
    }
  }

  /** Splitting at the first separator. */
  lemma {:induction false} SplitAtSeparator(a: string, b: string, sep: char)
    requires sep !in a
    ensures Split(a + [sep] + b, sep) == [a] + Split(b, sep)
    decreases |a|
  {
    if a == [] {
      assert a + [sep] + b == [sep] + b;
      assert ([sep] + b)[1..] == b;
    } else {
      assert (a + [sep] + b)[1..] == a[1..] + [sep] + b;
      SplitAtSeparator(a[1..], b, sep);
      assert [a[0]] + a[1..] == a;
    }
  }

  lemma {:induction false} SplitNoSeparator(a: string, sep: char)
    requires sep !in a
    ensures Split(a, sep) == [a]
    decreases |a|
  {
    if a != [] {
      SplitNoSeparator(a[1..], sep);
      assert [a[0]] + a[1..] == a;
    }
  }

  /** Splitting a join of separator-free fields gives the fields back. */
  lemma {:induction false} SplitJoin(fields: seq<string>, sep: char)
    requires |fields| >= 1
    requires forall i :: 0 <= i < |fields| ==> sep !in fields[i]
    ensures Split(Join(fields, sep), sep) == fields
    decreases |fields|
  {
    if |fields| == 1 {
      SplitNoSeparator(fields[0], sep);
    } else {
      SplitJoin(fields[1..], sep);
      SplitAtSeparator(fields[0], Join(fields[1..], sep), sep);
    }
  }

  /** `authorization.split(" ")[1]`: the second space-separated field, or
      nothing (`undefined`) when the header has no space. */
  function BearerToken(authorization: string): (r: Option<string>)
    ensures r.Some? <==> ' ' in authorization
    ensures r.Some? ==> ' ' !in r.value
  {
    var fields := Split(authorization, ' ');
    if ' ' in authorization then
      assert |fields| >= 2 by { JoinSplit(authorization, ' '); }
      Some(fields[1])
    else
      SplitNoSeparator(authorization, ' ');
      None
  }

  /** `verifyJWT`: 401 "unauthorized access" when the header is missing or
      empty, when its second field is absent or empty (the library refuses
      to verify nothing), when the signature does not verify, or when the
      token has expired; otherwise the signed claims become the caller's
      identity. */
  function Authenticate(authorization: Option<string>, now: int, verify: Verifier): (r: Result<Claims, HttpError>)
    ensures r.Err? ==> r.error == Unauthorized
    ensures authorization == None || authorization == Some("") ==> r.Err?
    ensures r.Ok? ==>
      && authorization.Some?
      && BearerToken(authorization.value).Some?
      && var token := BearerToken(authorization.value).value;
      && token != ""
      && verify(token).Some?
      && now < verify(token).value.exp
      && r.value == verify(token).value.claims
  {
    if authorization.None? || authorization.value == "" then Err(Unauthorized)
    else
      match BearerToken(authorization.value)
      case None => Err(Unauthorized)
      case Some(token) =>
        if token == "" then Err(Unauthorized)
        else
          match verify(token)
          case None => Err(Unauthorized)
          case Some(payload) =>
            if now < payload.exp then Ok(payload.claims) else Err(Unauthorized)
  }

  /** Round trip with `/jwt`: a token the server signed for `claims`, sent as
      `<scheme> <token>` within the hour, authenticates as exactly `claims`.
      The scheme word is not checked: any space-free word works. */
  lemma {:induction false} IssuedTokenAuthenticates(claims: Claims, issuedAt: int, now: int, scheme: string, token: string, verify: Verifier)
    requires verify(token) == Some(Issue(claims, issuedAt))
    requires token != "" && ' ' !in token && ' ' !in scheme
    requires now < issuedAt + ExpiresIn
    ensures Authenticate(Some(scheme + " " + token), now, verify) == Ok(claims)
  {
    var header := scheme + " " + token;
    assert Join([scheme, token], ' ') == header by {
      assert [scheme, token][1..] == [token];
    }
    SplitJoin([scheme, token], ' ');
  }

  /** Every token whose `iat` is `ExpiresIn` or more seconds old is refused, however
      the header carrying it is formed. */
  lemma {:induction false} ExpiredTokenRejected(claims: Claims, issuedAt: int, now: int, authorization: Option<string>, verify: Verifier)
    requires authorization.Some? && BearerToken(authorization.value).Some?
    requires verify(BearerToken(authorization.value).value) == Some(Issue(claims, issuedAt))
    requires now >= issuedAt + ExpiresIn
    ensures Authenticate(authorization, now, verify) == Err(Unauthorized)
  {
  }
}
