/**
 * The authentication middleware (internal/middleware/auth.go): the bypass
 * rule for the public batch lookup, the clean-up of the `Authorization`
 * header into a token, the call to the token validator and the hand-over of
 * the validated user to the next handler through the request context.
 */
module Auth {
  import opened Wrappers
  import opened Framing
  import opened GrpcWeb
  import opened Formatting

  /** `unicode.IsSpace`: the characters with the Unicode White_Space property. */
  predicate IsSpace(c: char)
  {
    || c == ' ' || '\t' <= c <= '\r'
    || c == '\U{0085}' || c == '\U{00A0}' || c == '\U{1680}'
    || '\U{2000}' <= c <= '\U{200A}'
    || c == '\U{2028}' || c == '\U{2029}' || c == '\U{202F}' || c == '\U{205F}' || c == '\U{3000}'
  }

  predicate NoQuotes(s: string)
  {
    forall i :: 0 <= i < |s| ==> s[i] != '"'
  }

  /** Neither the first nor the last character is white space. */
  predicate NoOuterSpace(s: string)
  {
    s == [] || (!IsSpace(s[0]) && !IsSpace(s[|s| - 1]))
  }

  /** `strings.ReplaceAll(s, "\"", "")`. */
  function RemoveQuotes(s: string): (r: string)
    ensures NoQuotes(r)
    ensures |r| <= |s|
  {
    if s == [] then []
    else (if s[0] == '"' then [] else [s[0]]) + RemoveQuotes(s[1..])
  }

  /** Removing quotes distributes over concatenation. */
  lemma {:induction false} RemoveQuotesAppend(a: string, b: string)
    ensures RemoveQuotes(a + b) == RemoveQuotes(a) + RemoveQuotes(b)
  {
    if a != [] {
      assert (a + b)[1..] == a[1..] + b;
      RemoveQuotesAppend(a[1..], b);
    } else {
      assert a + b == b;
    }
  }

  /** A string without quotes is left as it is, and only such a string is. */
  lemma {:induction false} RemoveQuotesIdentity(s: string)
    ensures RemoveQuotes(s) == s <==> NoQuotes(s)
  {
    if s != [] {
      RemoveQuotesIdentity(s[1..]);
      if s[0] == '"' {
        assert |RemoveQuotes(s)| < |s|;
      } else {
        assert NoQuotes(s) <==> NoQuotes(s[1..]);
      }
    }
  }

  /** The first index at or after `i` whose character is not white space, or `|s|`. */
  function SkipSpaceFrom(s: string, i: nat): (a: nat)
    requires i <= |s|
    ensures i <= a <= |s|
    ensures forall k :: i <= k < a ==> IsSpace(s[k])
    ensures a < |s| ==> !IsSpace(s[a])
    decreases |s| - i
  {
    if i < |s| && IsSpace(s[i]) then SkipSpaceFrom(s, i + 1) else i
  }

  /**
   * Scanning back from `j`, but not below `lo`: the index just after the
   * last character that is not white space, or `lo`.
   */
  function SkipSpaceBack(s: string, lo: nat, j: nat): (b: nat)
    requires lo <= j <= |s|
    ensures lo <= b <= j
    ensures forall k :: b <= k < j ==> IsSpace(s[k])
    ensures b > lo ==> !IsSpace(s[b - 1])
    decreases j
  {
    if j > lo && IsSpace(s[j - 1]) then SkipSpaceBack(s, lo, j - 1) else j
  }

  /** Where the trimmed string starts. */
  function TrimStartIndex(s: string): nat
  {
    SkipSpaceFrom(s, 0)
  }

  /** Where the trimmed string ends. */
  function TrimEndIndex(s: string): (b: nat)
    ensures TrimStartIndex(s) <= b <= |s|
  {
    SkipSpaceBack(s, TrimStartIndex(s), |s|)
  }

  /**
   * `strings.TrimSpace`: skip white space from the front, then from the
   * back down to where the front scan stopped, and keep what lies between.
   */
  function TrimSpace(s: string): (r: string)
    ensures NoOuterSpace(r)
    ensures |r| <= |s|
  {
    s[TrimStartIndex(s)..TrimEndIndex(s)]
  }

  /**
   * Reference definition of trimming: `r` is the slice `s[a..b]`, all of
   * `s` before `a` and from `b` on is white space, and `r` itself neither
   * starts nor ends with white space.
   */
  ghost predicate IsTrimOf(r: string, s: string, a: nat, b: nat)
  {
    && a <= b <= |s| && r == s[a..b]
    && (forall i :: 0 <= i < a ==> IsSpace(s[i]))
    && (forall i :: b <= i < |s| ==> IsSpace(s[i]))
    && NoOuterSpace(r)
  }

  /** `TrimSpace` meets the reference definition. */
  lemma TrimSpaceIsTrim(s: string)
    ensures IsTrimOf(TrimSpace(s), s, TrimStartIndex(s), TrimEndIndex(s))
  {
    var a, b := TrimStartIndex(s), TrimEndIndex(s);
    assert forall k :: b <= k < |s| ==> IsSpace(s[k]);
  }

  /** A non-empty trim starts at the first character that is not white space. */
  lemma TrimStart(r: string, s: string, a: nat, b: nat)
    requires IsTrimOf(r, s, a, b) && r != []
    ensures a < |s| && !IsSpace(s[a])
  {
    assert s[a] == r[0];
  }

  /** A non-empty trim ends after the last character that is not white space. */
  lemma TrimEnd(r: string, s: string, a: nat, b: nat)
    requires IsTrimOf(r, s, a, b) && r != []
    ensures 0 < b && !IsSpace(s[b - 1])
  {
    assert s[b - 1] == r[|r| - 1];
  }

  /** The reference definition determines its result. */
  lemma TrimIsUnique(r: string, s: string, a: nat, b: nat, r': string, a': nat, b': nat)
    requires IsTrimOf(r, s, a, b) && IsTrimOf(r', s, a', b')
    ensures r == r'
  {
    if r != [] && r' != [] {
      TrimStart(r, s, a, b);
      TrimStart(r', s, a', b');
      TrimEnd(r, s, a, b);
      TrimEnd(r', s, a', b');
      assert a == a' && b == b';
    } else if r != [] {
      TrimStart(r, s, a, b);
    } else if r' != [] {
      TrimStart(r', s, a', b');
    }
  }

  /** Trimming a string that is already trimmed changes nothing. */
  lemma TrimSpaceIdempotent(s: string)
    ensures TrimSpace(TrimSpace(s)) == TrimSpace(s)
  {
    var t := TrimSpace(s);
    TrimSpaceIsTrim(t);
    assert IsTrimOf(t, t, 0, |t|);
    TrimIsUnique(TrimSpace(t), t, TrimStartIndex(t), TrimEndIndex(t), t, 0, |t|);
  }

  /** A string without outer white space is its own trim. */
  lemma TrimSpaceOfTrimmed(s: string)
    requires NoOuterSpace(s)
    ensures TrimSpace(s) == s
  {
    TrimSpaceIsTrim(s);
    assert IsTrimOf(s, s, 0, |s|);
    TrimIsUnique(TrimSpace(s), s, TrimStartIndex(s), TrimEndIndex(s), s, 0, |s|);
  }

  /** Trimming never brings a quote back. */
  lemma TrimSpaceKeepsNoQuotes(s: string)
    requires NoQuotes(s)
    ensures NoQuotes(TrimSpace(s))
  {
    TrimSpaceIsTrim(s);
    var a := TrimStartIndex(s);
    var r := TrimSpace(s);
    forall i | 0 <= i < |r| ensures r[i] != '"' {
      assert r[i] == s[a + i];
    }
  }

  const BearerPrefix := "Bearer "

  /** The header after quotes are removed and outer white space trimmed. */
  function CleanHeader(header: string): (cleaned: string)
    ensures NoQuotes(cleaned) && NoOuterSpace(cleaned)
  {
    var cleaned := TrimSpace(RemoveQuotes(header));
    TrimSpaceKeepsNoQuotes(RemoveQuotes(header));
    cleaned
  }

  /**
   * The token the middleware extracts from a non-empty header: the cleaned
   * header without a case-sensitive `Bearer ` prefix, cleaned once more.
   */
  function ExtractToken(header: string): (token: string)
    ensures NoQuotes(token) && NoOuterSpace(token)
  {
    var cleaned := CleanHeader(header);
    var raw := if HasPrefix(cleaned, BearerPrefix) then TrimSpace(cleaned[|BearerPrefix|..]) else cleaned;
    var token := TrimSpace(RemoveQuotes(raw));
    TrimSpaceKeepsNoQuotes(RemoveQuotes(raw));
    token
  }

  /** Cleaning a string that has no quotes and no outer white space changes nothing. */
  lemma CleanIsFixed(s: string)
    requires NoQuotes(s) && NoOuterSpace(s)
    ensures TrimSpace(RemoveQuotes(s)) == s
  {
    RemoveQuotesIdentity(s);
    TrimSpaceOfTrimmed(s);
  }

  /**
   * The second clean-up changes nothing: with a `Bearer ` prefix the token
   * is the trimmed rest of the cleaned header, without one it is the whole
   * cleaned header.
   */
  lemma ExtractTokenCases(header: string)
    ensures var cleaned := CleanHeader(header);
      ExtractToken(header) == if HasPrefix(cleaned, BearerPrefix) then TrimSpace(cleaned[|BearerPrefix|..]) else cleaned
  {
    var cleaned := CleanHeader(header);
    if HasPrefix(cleaned, BearerPrefix) {
      var rest := cleaned[|BearerPrefix|..];
      assert NoQuotes(rest) by {
        forall i | 0 <= i < |rest| ensures rest[i] != '"' {
          assert rest[i] == cleaned[|BearerPrefix| + i];
        }
      }
      TrimSpaceKeepsNoQuotes(rest);
      CleanIsFixed(TrimSpace(rest));
    } else {
      CleanIsFixed(cleaned);
    }
  }

  /** A trimmed word followed by one white-space character trims back to the word. */
  lemma TrimTrailingSpace(w: string, c: char)
    requires w != [] && NoOuterSpace(w) && IsSpace(c)
    ensures TrimSpace(w + [c]) == w
  {
    var s := w + [c];
    TrimSpaceIsTrim(s);
    assert s[0..|w|] == w;
    assert IsTrimOf(w, s, 0, |w|);
    TrimIsUnique(TrimSpace(s), s, TrimStartIndex(s), TrimEndIndex(s), w, 0, |w|);
  }

  /**
   * A header that is one clean word followed by a space, and does not
   * start with `Bearer `, yields the word.
   */
  lemma WordThenSpaceIsToken(w: string)
    requires w != [] && NoQuotes(w) && NoOuterSpace(w) && !HasPrefix(w, BearerPrefix)
    ensures ExtractToken(w + " ") == w
  {
    var h := w + " ";
    assert NoQuotes(h);
    RemoveQuotesIdentity(h);
    TrimTrailingSpace(w, ' ');
    ExtractTokenCases(h);
  }

  /** A header of just `Bearer ` trims to `Bearer`, which is then taken as the token. */
  lemma BearerAloneIsToken()
    ensures ExtractToken("Bearer ") == "Bearer"
  {
    var w := "Bearer";
    assert NoQuotes(w) && NoOuterSpace(w) && !HasPrefix(w, BearerPrefix);
    WordThenSpaceIsToken(w);
    assert w + " " == "Bearer ";
  }

  /** The cleaned form of `Bearer <token>`, for a token that needs no cleaning. */
  lemma BearerHeaderIsClean(token: string)
    requires token != [] && NoQuotes(token) && NoOuterSpace(token)
    ensures CleanHeader(BearerPrefix + token) == BearerPrefix + token
  {
    var inner := BearerPrefix + token;
    assert NoQuotes(inner) && NoOuterSpace(inner);
    RemoveQuotesIdentity(inner);
    TrimSpaceOfTrimmed(inner);
  }

  /** `Bearer <token>` yields the token itself. */
  lemma BearerHeaderYieldsToken(token: string)
    requires token != [] && NoQuotes(token) && NoOuterSpace(token)
    ensures ExtractToken(BearerPrefix + token) == token
  {
    var inner := BearerPrefix + token;
    BearerHeaderIsClean(token);
    assert HasPrefix(inner, BearerPrefix) && inner[|BearerPrefix|..] == token;
    TrimSpaceOfTrimmed(token);
    ExtractTokenCases(inner);
  }

  /** Quotes around the whole header make no difference. */
  lemma QuotedHeaderSameToken(header: string)
    ensures ExtractToken("\"" + header + "\"") == ExtractToken(header)
  {
    var quoted := "\"" + header + "\"";
    assert RemoveQuotes(quoted) == RemoveQuotes(header) by {
      RemoveQuotesAppend("\"" + header, "\"");
      RemoveQuotesAppend("\"", header);
    }
    assert CleanHeader(quoted) == CleanHeader(header);
    ExtractTokenCases(quoted);
    ExtractTokenCases(header);
  }

  /** The key under which the middleware stores the user, and any other key. */
  datatype ContextKey = UserContextKey | OtherKey(name: string)
  datatype ContextValue = UserValue(user: User) | OtherValue(text: string)
  type Context = map<ContextKey, ContextValue>

  datatype Request = Request(verb: string, path: string, authorization: string, context: Context)

  /** What the middleware does with a request: hand it on once, or answer it itself. */
  datatype GateOutcome = Forward(request: Request) | Reject(status: int, message: string)

  const StatusUnauthorized := 401

  /** `context.WithValue(ctx, UserContextKey, user)`. */
  function WithUser(ctx: Context, user: User): (c: Context)
    ensures c.Keys == ctx.Keys + {UserContextKey} && c[UserContextKey] == UserValue(user)
    ensures forall k :: k in ctx && k != UserContextKey ==> c[k] == ctx[k]
  {
    ctx[UserContextKey := UserValue(user)]
  }

  /** `GetUserFromContext`: the user stored under the user key, if a user is stored there. */
  function GetUserFromContext(ctx: Context): (r: Option<User>)
    ensures r.Some? <==> UserContextKey in ctx && ctx[UserContextKey].UserValue?
    ensures r.Some? ==> ctx[UserContextKey] == UserValue(r.value)
  {
    if UserContextKey in ctx && ctx[UserContextKey].UserValue? then Some(ctx[UserContextKey].user) else None
  }

  /** What the middleware stores, `GetUserFromContext` returns. */
  lemma StoredUserIsFound(ctx: Context, user: User)
    ensures GetUserFromContext(WithUser(ctx, user)) == Some(user)
  {
  }

  /** The one unauthenticated route. */
  predicate SkipsAuthentication(req: Request)
    ensures SkipsAuthentication(req) ==> req.verb == "POST" && req.path == "/api/avatars"
  {
    req.path == "/api/avatars" && req.verb == "POST"
  }

  /**
   * The text of a validation error: `%v` of the error `ValidateToken`
   * returns, that is its own wording followed by the wrapped cause, the
   * status and body of a refused call, or the byte count of a short response.
   */
  function ErrorText(e: CallError): (text: string)
    ensures e.BadStatus? ==> |text| >= |e.body| && text[|text| - |e.body|..] == BytesText(e.body)
    ensures !e.BadStatus? && !e.BadFrame? ==> |text| >= |e.cause| && text[|text| - |e.cause|..] == e.cause
  {
    match e
    case MarshalFailed(cause) => "failed to marshal request: " + cause
    case RequestBuildFailed(cause) => "failed to create HTTP request: " + cause
    case RequestFailed(cause) => "HTTP request failed: " + cause
    case BadStatus(status, body) => "gRPC-Web request failed with status " + IntToString(status) + ": " + BytesText(body)
    case ReadFailed(cause) => "failed to read response body: " + cause
    case Base64Failed(cause) => "failed to decode base64 response: " + cause
    case BadFrame(TooShort(length)) => "response too short: " + IntToString(length) + " bytes"
    case BadFrame(Incomplete) => "response incomplete"
    case UnmarshalFailed(cause) => "failed to unmarshal response: " + cause
  }

  const ValidationFailedPrefix := "Token validation failed: "

  /** What the validator client has recorded: its calls, the requests it sent and its answers. */
  datatype ValidatorLog = ValidatorLog(calls: seq<Call>, sent: seq<HttpRequest>, answers: seq<Result<User, CallError>>)

  ghost function LogOf(validator: GRPCWebClient): ValidatorLog
    reads validator
  {
    ValidatorLog(validator.calls, validator.sent, validator.answers)
  }

  /**
   * One request through the middleware. The validator is called at most
   * once, and only with a non-empty cleaned token.
   */
  method AuthMiddleware(validator: GRPCWebClient, req: Request) returns (out: GateOutcome)
    modifies validator
    ensures SkipsAuthentication(req) ==> out == Forward(req) && LogOf(validator) == old(LogOf(validator))
    ensures !SkipsAuthentication(req) && req.authorization == "" ==>
      && out == Reject(StatusUnauthorized, "Authorization header required")
      && LogOf(validator) == old(LogOf(validator))
    ensures !SkipsAuthentication(req) && req.authorization != "" ==>
      Authenticated(req, ExtractToken(req.authorization), validator.baseURL, old(LogOf(validator)), LogOf(validator), out)
  {
    if req.path == "/api/avatars" && req.verb == "POST" {
      return Forward(req);
    }
    var authHeader := req.authorization;
    if authHeader == "" {
      return Reject(StatusUnauthorized, "Authorization header required");
    }
    var token := ExtractToken(authHeader);
    out := Validate(validator, req, token);
  }

  /**
   * How a request with a cleaned token ends: an empty token is refused
   * without a call; otherwise the validator is called once with the token,
   * sending at most one request to the `ValidateToken` endpoint, and its
   * answer decides: a failure is refused with 401 and the validator's
   * error, a success is handed on with the returned user stored in the
   * request context.
   */
  ghost predicate Authenticated(req: Request, token: string, baseURL: string, before: ValidatorLog, after: ValidatorLog,
                                out: GateOutcome)
  {
    && (token == "" ==> out == Reject(StatusUnauthorized, "Token is empty") && after == before)
    && (token != "" ==>
          && after.calls == before.calls + [ValidateTokenCall(token)]
          && before.sent <= after.sent && |after.sent| <= |before.sent| + 1
          && (after.sent != before.sent ==>
                exists m :: after.sent[|before.sent|] == BuildRequest(baseURL, ValidateTokenRpc, m))
          && |after.answers| == |before.answers| + 1 && after.answers[..|before.answers|] == before.answers
          && var answer := after.answers[|before.answers|];
          && (after.sent == before.sent <==> answer.Failure? && answer.error.BeforeSending())
          && (answer.Failure? ==>
                out == Reject(StatusUnauthorized, ValidationFailedPrefix + ErrorText(answer.error)))
          && (answer.Success? ==>
                out == Forward(req.(context := WithUser(req.context, answer.value)))))
  }

  /** The part of the middleware after the token has been extracted. */
  method Validate(validator: GRPCWebClient, req: Request, token: string) returns (out: GateOutcome)
    modifies validator
    ensures Authenticated(req, token, validator.baseURL, old(LogOf(validator)), LogOf(validator), out)
  {
    if token == "" {
      return Reject(StatusUnauthorized, "Token is empty");
    }
    var user := validator.ValidateToken(token);
    if user.Failure? {
      return Reject(StatusUnauthorized, ValidationFailedPrefix + ErrorText(user.error));
    }
    var ctx := WithUser(req.context, user.value);
    out := Forward(req.(context := ctx));
  }
}
