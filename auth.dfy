/** The request gate of app/middleware/auth.middleaware.ts: `protect` reads
    a bearer token from the `Authorization` header (loosely after section
    2.1 of RFC 6750, but with a case-sensitive `"Bearer "` prefix, whereas
    section 2.1 of RFC 7235 makes the scheme name case-insensitive), hands
    it to an opaque JSON Web Token check (RFC 7519), and `authorizeRoles`
    tests the decoded role against a per-route allow-list. */
module Auth {
  import opened Common

  /** A decoded token payload. Session tokens carry all five fields; the
      email-verification token has no `userId`, `name` or `phone`. */
  datatype Claims = Claims(userId: Option<string>, email: string, role: string,
                           name: Option<string>, phone: Option<int>)

  /** What a middleware does with a request: reply with an error, or call
      `next()` once with `req.user` set to `user`. */
  datatype GateResult = Deny(status: int, message: string) | Proceed(user: Claims)

  const BEARER: string := "Bearer "

  predicate StartsWith(s: string, prefix: string) {
    |prefix| <= |s| && s[..|prefix|] == prefix
  }

  /** JavaScript `s.split(" ")`: the pieces between single spaces, empty
      pieces included. */
  function Split(s: string): (parts: seq<string>)
    ensures |parts| >= 1
    ensures forall k :: 0 <= k < |parts| ==> ' ' !in parts[k]
  {
    if |s| == 0 then [""]
    else if s[0] == ' ' then [""] + Split(s[1..])
    else
      var rest := Split(s[1..]);
      [[s[0]] + rest[0]] + rest[1..]
  }

  /** The longest prefix of `s` that holds no space. */
  function FirstWord(s: string): (w: string)
    ensures |w| <= |s| && w == s[..|w|] && ' ' !in w
    ensures |w| < |s| ==> s[|w|] == ' '
  {
    if |s| == 0 || s[0] == ' ' then "" else
      var w := [s[0]] + FirstWord(s[1..]);
      assert s == [s[0]] + s[1..];
      w
  }

  /** The first piece of a split is the first word. */
  lemma {:induction false} SplitHead(s: string)
    ensures Split(s)[0] == FirstWord(s)
  {
    if |s| > 0 && s[0] != ' ' {
      SplitHead(s[1..]);
    }
  }

  /** Splitting a space-free word followed by a space and `rest` yields
      the word and then the pieces of `rest`. */
  lemma {:induction false} SplitAfterWord(w: string, rest: string)
    requires ' ' !in w
    ensures Split(w + " " + rest) == [w] + Split(rest)
  {
    if |w| == 0 {
      assert w + " " + rest == [' '] + rest;
      assert (w + " " + rest)[1..] == rest;
    } else {
      var s := w + " " + rest;
      assert s[0] == w[0];
      assert s[1..] == w[1..] + " " + rest;
      SplitAfterWord(w[1..], rest);
      assert [w[0]] + w[1..] == w;
    }
  }

  /** `authHeader.split(" ")[1]`, for a header that starts with `"Bearer "`. */
  function TokenOf(header: string): (t: string)
    requires StartsWith(header, BEARER)
    ensures ' ' !in t && |t| < |header|
  {
    var parts := Split(header);
    assert header[6] == BEARER[6] == ' ';
    SplitLength(header);
    if |parts| > 1 then parts[1] else ""
  }

  /** Joining pieces with single spaces, as `parts.join(" ")` does. */
  function Join(parts: seq<string>): string
    requires |parts| >= 1
  {
    if |parts| == 1 then parts[0] else parts[0] + " " + Join(parts[1..])
  }

  /** `split(" ")` loses nothing: joining the pieces back gives the input. */
  lemma {:induction false} SplitJoin(s: string)
    ensures Join(Split(s)) == s
  {
    if |s| > 0 {
      SplitJoin(s[1..]);
      var rest := Split(s[1..]);
      if s[0] == ' ' {
        assert Split(s) == [""] + rest;
        assert ([""] + rest)[1..] == rest;
        assert s == [' '] + s[1..];
      } else {
        var parts := Split(s);
        assert parts == [[s[0]] + rest[0]] + rest[1..];
        if |rest| == 1 {
          assert |parts| == 1;
        } else {
          assert parts[1..] == rest[1..];
          assert Join(parts) == [s[0]] + (rest[0] + " " + Join(rest[1..]));
        }
        assert s == [s[0]] + s[1..];
      }
    }
  }

  /** The pieces of a split, with their separators, are no longer than the
      input, so each piece is shorter than a string that holds a space. */
  lemma {:induction false} SplitLength(s: string)
    ensures forall k :: 0 <= k < |Split(s)| ==> |Split(s)[k]| <= |s|
    ensures ' ' in s ==> forall k :: 0 <= k < |Split(s)| ==> |Split(s)[k]| < |s|
  {
    if |s| > 0 {
      SplitLength(s[1..]);
      if s[0] != ' ' {
        var rest := Split(s[1..]);
        var parts := Split(s);
        assert parts == [[s[0]] + rest[0]] + rest[1..];
        forall k | 0 <= k < |parts| ensures |parts[k]| <= |s| && (' ' in s ==> |parts[k]| < |s|) {
          if k > 0 {
            assert parts[k] == rest[k];
          }
          if ' ' in s {
            assert ' ' in s[1..] by {
              var i :| 0 <= i < |s| && s[i] == ' ';
              assert s[1..][i - 1] == ' ';
            }
          }
        }
      }
    }
  }

  /** The token is the text after `"Bearer "` up to the next space, so
      `"Bearer a b"` yields `"a"` and `"Bearer "` yields the empty token. */
  lemma TokenIsFirstWordAfterPrefix(header: string)
    requires StartsWith(header, BEARER)
    ensures TokenOf(header) == FirstWord(header[|BEARER|..])
  {
    var rest := header[|BEARER|..];
    assert header == "Bearer" + " " + rest;
    SplitAfterWord("Bearer", rest);
    SplitHead(rest);
  }

  /** `jwt.verify(token, secret)`: the library refuses an empty token
      before looking at the signature; any other token is judged by
      `verify`, `None` meaning it threw (bad signature, expired). */
  function Verified(token: string, verify: string -> Option<Claims>): (c: Option<Claims>)
    ensures token == "" ==> c.None?
    ensures token != "" ==> c == verify(token)
  {
    if token == "" then None else verify(token)
  }

  /** `protect`: `verify` stands for `jwt.verify` with the server secret. */
  function Protect(authorization: Option<string>, verify: string -> Option<Claims>): (r: GateResult)
    ensures (authorization.None? || !StartsWith(authorization.value, BEARER)) ==>
              r == Deny(401, "No token provided")
    ensures authorization.Some? && StartsWith(authorization.value, BEARER) ==>
              var token := FirstWord(authorization.value[|BEARER|..]);
              match Verified(token, verify)
              case None => r == Deny(401, "Invalid or expired token")
              case Some(c) =>
                if TruthyStr(c.userId) then r == Proceed(c)
                else r == Deny(401, "Invalid token: user ID missing")
    ensures r.Proceed? ==> TruthyStr(r.user.userId)
    ensures r.Proceed? ==> exists token :: token != "" && verify(token) == Some(r.user)
  {
    if authorization.None? || !StartsWith(authorization.value, BEARER) then
      Deny(401, "No token provided")
    else
      var token := TokenOf(authorization.value);
      TokenIsFirstWordAfterPrefix(authorization.value);
      match Verified(token, verify)
      case None => Deny(401, "Invalid or expired token")
      case Some(decoded) =>
        if !TruthyStr(decoded.userId) then Deny(401, "Invalid token: user ID missing")
        else Proceed(decoded)
  }

  /** `authorizeRoles(...allowed)`: the user set by `protect`, if any, is let
      through exactly when its role is listed. The trailing `next()` of the
      source cannot be reached: both branches above it return. */
  function AuthorizeRoles(allowed: seq<string>, user: Option<Claims>): (r: GateResult)
    ensures user.None? ==> r == Deny(401, "Not authenticated")
    ensures user.Some? ==> (r.Proceed? <==> user.value.role in allowed)
    ensures user.Some? && r.Proceed? ==> r.user == user.value
    ensures user.Some? && !r.Proceed? ==> r == Deny(403, "Forbidden: You don't have access")
  {
    if user.None? then Deny(401, "Not authenticated")
    else if user.value.role in allowed then Proceed(user.value)
    else Deny(403, "Forbidden: You don't have access")
  }

  /** Enlarging the allow-list never turns a grant into a denial. */
  lemma AuthorizeMonotone(allowed: seq<string>, larger: seq<string>, user: Option<Claims>)
    requires forall x :: x in allowed ==> x in larger
    ensures AuthorizeRoles(allowed, user).Proceed? ==> AuthorizeRoles(larger, user).Proceed?
  {
  }

  /** The per-route allow-lists of the route files under app/router, for the routes
      that are wrapped in `authorizeRoles`. */
  const ROUTE_ROLES: map<string, seq<string>> := map[
    "POST /book/ticket" := ["user"],
    "GET /booking/history/:userId" := ["user", "admin"],
    "PUT /booking/cancel/:bookingId" := ["user"],
    "GET /booking/get-all" := ["admin"],
    "POST /movie/create" := ["admin"],
    "GET /get/movies" := ["admin"],
    "PUT /update/movie/:id" := ["admin"],
    "DELETE /delete/movie/:id" := ["admin"],
    "GET /get/movies/:id" := ["admin", "user"],
    "POST /create/theater" := ["admin"],
    "GET /get/all/theater" := ["admin"],
    "GET /get/theater/:id" := ["admin"],
    "PUT /theater/update/:id" := ["admin"],
    "DELETE /theater/delete" := ["admin"],
    "POST /theater/assign-movie" := ["admin"],
    "GET /theater/movie/details" := ["admin", "user"]]

  /** The routes of app/router/user.routes.ts that are wrapped in `protect`
      alone, with no role check. */
  const PROTECT_ONLY: set<string> := {"GET /profile", "GET /profile/:id", "PUT /profile/:id"}

  /** The middleware chain in front of a route: `protect`, then the
      route's `authorizeRoles` when it has one. */
  function Gate(route: string, authorization: Option<string>, verify: string -> Option<Claims>): (r: GateResult)
    requires route in ROUTE_ROLES || route in PROTECT_ONLY
    ensures r.Proceed? <==>
      Protect(authorization, verify).Proceed? &&
      (route in ROUTE_ROLES ==> Protect(authorization, verify).user.role in ROUTE_ROLES[route])
    ensures r.Deny? && Protect(authorization, verify).Proceed? ==> r.status == 403
  {
    var p := Protect(authorization, verify);
    if p.Deny? || route !in ROUTE_ROLES then p
    else AuthorizeRoles(ROUTE_ROLES[route], Some(p.user))
  }

  /** An admin session is refused booking and cancelling (403): those
      routes allow the `user` role only. */
  lemma AdminCannotBook(route: string, authorization: Option<string>, verify: string -> Option<Claims>)
    requires route == "POST /book/ticket" || route == "PUT /booking/cancel/:bookingId"
    requires Protect(authorization, verify).Proceed?
    requires Protect(authorization, verify).user.role == "admin"
    ensures Gate(route, authorization, verify) == Deny(403, "Forbidden: You don't have access")
  {
  }

  /** A token whose payload has no `userId` (such as the email-verification
      token) never passes `protect`, even when its signature is valid. */
  lemma NoUserIdNoEntry(token: string, verify: string -> Option<Claims>)
    requires ' ' !in token && token != ""
    requires verify(token).Some? && verify(token).value.userId.None?
    ensures Protect(Some(BEARER + token), verify) == Deny(401, "Invalid token: user ID missing")
  {
    var h := BEARER + token;
    assert h[..|BEARER|] == BEARER;
    assert h[|BEARER|..] == token;
    FirstWordOfWord(token);
  }

  /** `jsonwebtoken` refuses an empty token, so the header values
      `"Bearer "` and `"Bearer  " + rest` (a second space after the scheme)
      are turned away whatever the signature check would say. These are the
      values `protect` receives; the HTTP parser trims trailing whitespace,
      so a sent header needs a non-space after it (`"Bearer  x"`) to arrive
      in this form. */
  lemma EmptyTokenRefused(verify: string -> Option<Claims>, rest: string)
    ensures Protect(Some("Bearer "), verify) == Deny(401, "Invalid or expired token")
    ensures Protect(Some("Bearer  " + rest), verify) == Deny(401, "Invalid or expired token")
  {
    var h := "Bearer  " + rest;
    assert h[..|BEARER|] == BEARER;
    assert h[|BEARER|..] == " " + rest;
    assert FirstWord(" " + rest) == "";
    assert "Bearer "[|BEARER|..] == "";
  }

  /** A validly signed token whose payload has a user id passes
      `protect` with that payload as `req.user`. */
  lemma SignedTokenEnters(token: string, verify: string -> Option<Claims>)
    requires ' ' !in token && token != ""
    requires verify(token).Some? && TruthyStr(verify(token).value.userId)
    ensures Protect(Some(BEARER + token), verify) == Proceed(verify(token).value)
  {
    var h := BEARER + token;
    assert h[..|BEARER|] == BEARER;
    assert h[|BEARER|..] == token;
    FirstWordOfWord(token);
  }

  /** A space-free string is its own first word. */
  lemma {:induction false} FirstWordOfWord(w: string)
    requires ' ' !in w
    ensures FirstWord(w) == w
  {
    if |w| > 0 {
      FirstWordOfWord(w[1..]);
    }
  }
}
