/** The authentication middleware `auth` and the admin role check of `GET /users`.
    Token verification (signature and expiry) is a parameter: a partial function from a
    token string to the claims it carries. */
module Auth {
  import opened Domain

  /** The pieces joined back with single spaces. */
  function Join(parts: seq<string>): (r: string)
    requires |parts| >= 1
  {
    if |parts| == 1 then parts[0] else parts[0] + " " + Join(parts[1..])
  }

  /** JavaScript's `s.split(" ")`: the maximal space-free pieces between the spaces,
      empty ones included. */
  function Split(s: string): (r: seq<string>)
    ensures |r| >= 1
    ensures forall k :: 0 <= k < |r| ==> ' ' !in r[k]
    ensures Join(r) == s
    decreases |s|
  {
    if s == [] then [""]
    else if s[0] == ' ' then
      var rest := Split(s[1..]);
      assert ([""] + rest)[1..] == rest;
      [""] + rest
    else
      var rest := Split(s[1..]);
      var r := [[s[0]] + rest[0]] + rest[1..];
      assert r[1..] == rest[1..];
      assert s == [s[0]] + s[1..];
      r
  }

  /** Splitting a join of space-free pieces gives the pieces back. */
  lemma {:induction false} SplitJoin(parts: seq<string>)
    requires |parts| >= 1
    requires forall k :: 0 <= k < |parts| ==> ' ' !in parts[k]
    ensures Split(Join(parts)) == parts
    decreases |parts|, |parts[0]|
  {
    if |parts[0]| == 0 {
      if |parts| > 1 {
        var tail := parts[1..];
        assert Join(parts) == " " + Join(tail);
        SplitJoin(tail);
        assert (" " + Join(tail))[1..] == Join(tail);
        assert parts == [""] + tail;
      } else {
        assert parts == [""];
      }
    } else {
      var w := parts[0];
      var shorter := [w[1..]] + parts[1..];
      assert shorter[1..] == parts[1..];
      assert forall k :: 0 <= k < |shorter| ==> ' ' !in shorter[k] by {
        forall k | 0 <= k < |shorter| ensures ' ' !in shorter[k] {
          if k > 0 { assert shorter[k] == parts[k]; }
        }
      }
      assert Join(parts) == [w[0]] + Join(shorter) by {
        assert w == [w[0]] + w[1..];
      }
      SplitJoin(shorter);
      assert (Join(parts))[1..] == Join(shorter);
      assert Join(parts)[0] == w[0] && w[0] != ' ' by { assert w[0] in w; }
      assert [w[0]] + shorter[0] == w;
      assert parts == [w] + parts[1..];
    }
  }

  /** The second space-separated piece of the header, undefined when the header has no
      space. */
  function TokenOf(header: string): (r: Option<string>)
    ensures r.Some? <==> ' ' in header
    ensures r.Some? ==> ' ' !in r.value
  {
    var parts := Split(header);
    if |parts| >= 2 then
      assert ' ' in header by {
        assert header == parts[0] + " " + Join(parts[1..]);
        assert header[|parts[0]|] == ' ';
      }
      Some(parts[1])
    else
      assert header == parts[0];
      None
  }

  /** The token of an `Authorization: Bearer <token>` header is the token itself. */
  lemma BearerToken(token: string)
    requires ' ' !in token
    ensures TokenOf("Bearer " + token) == Some(token)
  {
    SplitJoin(["Bearer", token]);
    assert Join(["Bearer", token]) == "Bearer " + token;
  }

  /** The token of a header joined from space-free pieces is the second piece. By `Split`'s
      contract every header with a space is such a join. */
  lemma TokenOfJoin(parts: seq<string>)
    requires |parts| >= 2
    requires forall k :: 0 <= k < |parts| ==> ' ' !in parts[k]
    ensures TokenOf(Join(parts)) == Some(parts[1])
  {
    SplitJoin(parts);
  }

  /** What the middleware decides: the header was absent or empty (401), the token did not
      verify (401, with a different message), or the request goes on with the decoded claims
      attached. */
  datatype AuthOutcome = TokenMissing | TokenInvalid | Authenticated(claims: Claims)

  function Guard(header: Option<string>, verify: string -> Option<Claims>): (r: AuthOutcome)
    ensures r == TokenMissing <==> header.None? || header.value == ""
    ensures r.Authenticated? <==>
      header.Some? && TokenOf(header.value).Some? && verify(TokenOf(header.value).value).Some?
    ensures r.Authenticated? ==> verify(TokenOf(header.value).value) == Some(r.claims)
  {
    if header.None? || header.value == "" then TokenMissing
    else match TokenOf(header.value)
      case None => TokenInvalid
      case Some(token) =>
        match verify(token)
        case None => TokenInvalid
        case Some(claims) => Authenticated(claims)
  }

  /** The role check of `GET /users`: only the exact role "admin" passes. */
  predicate IsAdmin(claims: Claims)
  {
    claims.role == "admin"
  }
}
