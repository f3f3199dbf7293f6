/**
 * The one-slot access-token cache of the server: the pair of process-wide
 * values `access_token` and `token_expiry`, reused while valid and
 * refreshed through the OAuth 2.0 client-credentials grant (section 4.4 of
 * RFC 6749, client authenticated with HTTP Basic as in RFC 7617).
 *
 * Time is integer seconds; the two clock reads of a refresh are parameters
 * (`now` for the validity test, `now2` for the expiry computation), and the
 * token endpoint is an oracle value `TokenReply`.
 */
module TokenCache {
  import opened Wrappers
  import opened Http
  import opened Config

  /** The `access_token` member of the reply: missing, JSON `null`, or a string. */
  datatype TokenField = Absent | Null | Text(s: string)

  /** What the JSON body of a 2xx token reply yielded. */
  datatype TokenBody =
    | NotJson
      /** `expiresIn` is `None` when `expires_in` is missing or not a number. */
    | Fields(accessToken: TokenField, expiresIn: Option<int>)

  /**
   * The token endpoint as an oracle: a reply with a status, its raw text and
   * its parsed body, or a transport failure.
   */
  datatype TokenReply =
    | Reply(status: int, text: string, body: TokenBody)
    | TransportFailure

  /** Why a token request raised. */
  datatype AuthError =
    | Rejected(status: int, body: string) // `raise_for_status` on a non-2xx status; the error carries the response
    | Unreachable              // the POST itself failed
    | MalformedBody            // `response.json()` failed
    | MissingAccessToken       // `result["access_token"]` raised
    | MissingExpiresIn         // `result["expires_in"] - 60` raised, after the token was stored

  /** The form-encoded client-credentials request sent to the token endpoint. */
  datatype TokenRequest = TokenRequest(
    url: string,
    basicUser: string,
    basicPassword: string,
    headers: map<string, string>,
    form: map<string, string>)

  const TokenPath: string := "/identity/v2/oauth2/token"

  /**
   * The exchange request, fixed by the configuration alone: Basic
   * credentials from the client id and secret, the subscription key in
   * `x-api-key`, and the form `grant_type=client_credentials`.
   */
  function ExchangeRequest(settings: Settings): TokenRequest {
    TokenRequest(
      settings.Url() + TokenPath,
      settings.clientId,
      settings.clientSecret,
      map["x-api-key" := settings.apiKey],
      map["grant_type" := "client_credentials"])
  }

  /** The Python value `result["access_token"]` of a present member: `null` becomes `None`. */
  function Stored(f: TokenField): (v: Option<string>)
    requires !f.Absent?
    ensures v.None? <==> f.Null?
    ensures f.Text? ==> v == Some(f.s)
  {
    if f.Null? then None else Some(f.s)
  }

  /** The cached pair; `None` is Python's `None`. */
  datatype Cache = Cache(token: Option<string>, expiry: Option<int>)

  const InitialCache: Cache := Cache(None, None)

  /** Seconds taken off the lifetime the provider reports. */
  const SafetyMargin: int := 60

  /** The reuse test `access_token and token_expiry and token_expiry > current_time`. */
  predicate Usable(c: Cache, now: int) {
    Truthy(c.token) && c.expiry.Some? && c.expiry.value > now
  }

  /**
   * The new cache, what the call returned (a string, or `None` after a
   * `null` token) or raised, and whether it went to the token endpoint.
   */
  datatype Outcome = Outcome(cache: Cache, result: Result<Option<string>, AuthError>, requested: bool)

  /**
   * The refresh branch. Everything that raises before the assignment of
   * `access_token` leaves the cache as it was; a body without a usable
   * `expires_in` raises after it, so the new token is kept beside the old
   * expiry.
   */
  function Exchange(c: Cache, now2: int, reply: TokenReply): (o: Outcome)
    ensures o.requested
    ensures o.result.Ok? ==> o.cache.token == o.result.value && o.cache.expiry.Some?
    ensures o.result.Err? ==> o.cache.expiry == c.expiry
    ensures o.result.Err? && o.result.error != MissingExpiresIn ==> o.cache == c
  {
    match reply
    case TransportFailure => Outcome(c, Err(Unreachable), true)
    case Reply(status, text, body) =>
      if !IsSuccess(status) then Outcome(c, Err(Rejected(status, text)), true)
      else match body
        case NotJson => Outcome(c, Err(MalformedBody), true)
        case Fields(token, expiresIn) =>
          if token.Absent? then Outcome(c, Err(MissingAccessToken), true)
          else if expiresIn.None? then Outcome(Cache(Stored(token), c.expiry), Err(MissingExpiresIn), true)
          else Outcome(Cache(Stored(token), Some(now2 + expiresIn.value - SafetyMargin)), Ok(Stored(token)), true)
  }

  /** One call of the token getter, as a function of the cache before it. */
  function Obtain(c: Cache, now: int, now2: int, reply: TokenReply): (o: Outcome)
    ensures o.result.Ok? ==> o.cache.token == o.result.value
    ensures o.result.Err? ==> o.requested && o.cache.expiry == c.expiry
    ensures !o.requested ==> o.cache == c && o.result == Ok(c.token)
  {
    if Usable(c, now) then Outcome(c, Ok(c.token), false) else Exchange(c, now2, reply)
  }

  /**
   * The module-level token state as an object. `tokenRequests` is a ghost
   * log of the requests sent to the token endpoint, so its length counts the
   * network round trips.
   */
  class TokenStore {
    const settings: Settings
    var accessToken: Option<string>
    var tokenExpiry: Option<int>
    ghost var tokenRequests: seq<TokenRequest>

    function State(): Cache
      reads this
    {
      Cache(accessToken, tokenExpiry)
    }

    /** Start-up: no token and no expiry, nothing requested yet. */
    constructor (settings: Settings)
      ensures this.settings == settings
      ensures State() == InitialCache && tokenRequests == []
    {
      this.settings := settings;
      accessToken := None;
      tokenExpiry := None;
      tokenRequests := [];
    }

    method GetAccessToken(now: int, now2: int, reply: TokenReply) returns (r: Result<Option<string>, AuthError>)
      modifies this
      ensures var o := Obtain(old(State()), now, now2, reply);
        State() == o.cache && r == o.result &&
        tokenRequests == old(tokenRequests) + (if o.requested then [ExchangeRequest(settings)] else [])
      ensures Usable(old(State()), now) ==>
        r == Ok(old(accessToken)) && State() == old(State()) && tokenRequests == old(tokenRequests)
      ensures !Usable(old(State()), now) ==> tokenRequests == old(tokenRequests) + [ExchangeRequest(settings)]
    {
      if accessToken.Some? && accessToken.value != "" && tokenExpiry.Some? && tokenExpiry.value > now {
        return Ok(accessToken);
      }
      tokenRequests := tokenRequests + [ExchangeRequest(settings)];
      if reply.TransportFailure? {
        return Err(Unreachable);
      }
      if !IsSuccess(reply.status) {
        return Err(Rejected(reply.status, reply.text));
      }
      if reply.body.NotJson? {
        return Err(MalformedBody);
      }
      if reply.body.accessToken.Absent? {
        return Err(MissingAccessToken);
      }
      accessToken := if reply.body.accessToken.Null? then None else Some(reply.body.accessToken.s);
      if reply.body.expiresIn.None? {
        return Err(MissingExpiresIn);
      }
      tokenExpiry := Some(now2 + reply.body.expiresIn.value - SafetyMargin);
      r := Ok(accessToken);
    }
  }

  // ---------------------------------------------------------------- one call

  /** A usable cached token is returned as it is, nothing is requested and nothing changes. */
  lemma CacheHit(c: Cache, now: int, now2: int, reply: TokenReply)
    requires Truthy(c.token) && c.expiry.Some? && now < c.expiry.value
    ensures Obtain(c, now, now2, reply) == Outcome(c, Ok(c.token), false)
  {
  }

  /**
   * The cache is bypassed exactly when the token is unset or empty, the
   * expiry is unset, or the clock has reached the expiry: at `now == expiry`
   * the strict comparison already refuses the token.
   */
  lemma RefreshWhenUnusable(c: Cache, now: int, now2: int, reply: TokenReply)
    ensures Obtain(c, now, now2, reply).requested <==>
      c.token == None || c.token == Some("") || c.expiry == None || c.expiry.value <= now
  {
  }

  /** A token is never handed out from the cache once its expiry has been reached. */
  lemma NoReusePastExpiry(c: Cache, now: int, now2: int, reply: TokenReply)
    requires c.expiry.Some? && now >= c.expiry.value
    ensures Obtain(c, now, now2, reply).requested
  {
  }

  /**
   * A 2xx reply carrying both fields replaces the pair: the token is the
   * reply's `access_token`, the expiry is the second clock read plus
   * `expires_in` less the 60-second margin, and that token is returned.
   */
  lemma RefreshStoresReply(c: Cache, now: int, now2: int, status: int, text: string, token: string, expiresIn: int)
    requires !Usable(c, now) && IsSuccess(status)
    ensures Obtain(c, now, now2, Reply(status, text, Fields(Text(token), Some(expiresIn)))) ==
      Outcome(Cache(Some(token), Some(now2 + expiresIn - 60)), Ok(Some(token)), true)
  {
  }

  /** A lifetime of 300 seconds gives an expiry 240 seconds after the second clock read. */
  lemma ExpiryMargin(c: Cache, now: int, now2: int, token: string)
    requires !Usable(c, now)
    ensures Obtain(c, now, now2, Reply(200, "", Fields(Text(token), Some(300)))).cache.expiry == Some(now2 + 240)
  {
  }

  /**
   * A non-2xx reply (a 401, say) raises with its status and body text and
   * leaves both cached values untouched.
   */
  lemma RejectionKeepsCache(c: Cache, now: int, now2: int, status: int, text: string, body: TokenBody)
    requires !Usable(c, now) && !IsSuccess(status)
    ensures Obtain(c, now, now2, Reply(status, text, body)) == Outcome(c, Err(Rejected(status, text)), true)
  {
  }

  /**
   * A status of 201 or 204 is not rejected: only `raise_for_status` decides,
   * and it accepts every 2xx status.
   */
  lemma Non200SuccessAccepted(c: Cache, now: int, now2: int, token: string, expiresIn: int)
    requires !Usable(c, now)
    ensures Obtain(c, now, now2, Reply(201, "", Fields(Text(token), Some(expiresIn)))).result == Ok(Some(token))
  {
  }

  /**
   * A 2xx body with `access_token` but no usable `expires_in` raises, yet the
   * new token has already been stored, next to whatever expiry was there.
   */
  lemma MissingExpiresInKeepsNewToken(c: Cache, now: int, now2: int, status: int, token: string)
    requires !Usable(c, now) && IsSuccess(status)
    ensures Obtain(c, now, now2, Reply(status, "", Fields(Text(token), None))) ==
      Outcome(Cache(Some(token), c.expiry), Err(MissingExpiresIn), true)
  {
  }

  /**
   * From the initial cache that leaves a token without any expiry: the two
   * values are not always set together.
   */
  lemma TokenWithoutExpiry(now: int, now2: int)
    ensures Obtain(InitialCache, now, now2, Reply(200, "", Fields(Text("t"), None))).cache == Cache(Some("t"), None)
  {
  }

  /**
   * The new token can even be served later under the old expiry: an empty
   * token with a live expiry forces a refresh; if that refresh lacks
   * `expires_in`, the next call reuses the new token until the expiry that
   * came with the empty one, without any request.
   */
  lemma NewTokenServedUnderOldExpiry()
    ensures var first := Obtain(Cache(Some(""), Some(1000)), 10, 10, Reply(200, "", Fields(Text("fresh"), None)));
      first.result == Err(MissingExpiresIn) &&
      Obtain(first.cache, 20, 20, TransportFailure) == Outcome(Cache(Some("fresh"), Some(1000)), Ok(Some("fresh")), false)
  {
  }

  /**
   * A JSON `null` in `access_token` is stored as `None` beside a fresh
   * expiry and returned as `None`: the call succeeds without a token, and a
   * set expiry does not imply a set token. The next call refreshes again,
   * because `None` is falsy.
   */
  lemma NullTokenStored(c: Cache, now: int, now2: int, status: int, expiresIn: int, later: int)
    requires !Usable(c, now) && IsSuccess(status)
    ensures var o := Obtain(c, now, now2, Reply(status, "", Fields(Null, Some(expiresIn))));
      o == Outcome(Cache(None, Some(now2 + expiresIn - 60)), Ok(None), true) &&
      Obtain(o.cache, later, later, TransportFailure) == Outcome(o.cache, Err(Unreachable), true)
  {
  }

  /**
   * The invariant the pair does keep: the expiry moves only on a successful
   * refresh, and then it is set; that is what survives of "the token and its
   * expiry are set together".
   */
  lemma ExpiryMovesOnlyOnSuccess(c: Cache, now: int, now2: int, reply: TokenReply)
    ensures var o := Obtain(c, now, now2, reply);
      o.cache.expiry != c.expiry ==> o.requested && o.result.Ok? && o.cache.expiry.Some?
  {
  }

  // ---------------------------------------------------------- many calls

  /** One call of the token getter: its two clock reads and what the endpoint would reply. */
  datatype TokenCall = TokenCall(now: int, now2: int, reply: TokenReply)

  /** The cache after a sequence of calls, the results in order, and the number of token requests. */
  datatype Trace = Trace(cache: Cache, results: seq<Result<Option<string>, AuthError>>, requests: nat)

  /** The number of calls that raised. */
  function Failures(results: seq<Result<Option<string>, AuthError>>): nat {
    if results == [] then 0 else (if results[0].Err? then 1 else 0) + Failures(results[1..])
  }

  /**
   * A sequence of calls, each seeing the cache the previous one left. Every
   * call that raised went to the endpoint, and a run without any request
   * leaves the cache as it found it.
   */
  function ObtainAll(c: Cache, calls: seq<TokenCall>): (t: Trace)
    ensures |t.results| == |calls|
    ensures Failures(t.results) <= t.requests <= |calls|
    ensures t.requests == 0 ==> t.cache == c
    decreases |calls|
  {
    if calls == [] then Trace(c, [], 0)
    else
      var o := Obtain(c, calls[0].now, calls[0].now2, calls[0].reply);
      var rest := ObtainAll(o.cache, calls[1..]);
      Trace(rest.cache, [o.result] + rest.results, rest.requests + (if o.requested then 1 else 0))
  }

  /**
   * Call by call: the `i`-th result is what one call of the getter yields on
   * the cache that the calls before it left, the cache after it is that
   * call's cache, and it counts one request exactly when that call went to
   * the endpoint. A call that raised therefore always made a request.
   */
  lemma {:induction false} ObtainAllCallByCall(c: Cache, calls: seq<TokenCall>, i: nat)
    requires i < |calls|
    ensures var o := Obtain(ObtainAll(c, calls[..i]).cache, calls[i].now, calls[i].now2, calls[i].reply);
      ObtainAll(c, calls).results[i] == o.result &&
      ObtainAll(c, calls[..i + 1]).cache == o.cache &&
      ObtainAll(c, calls[..i + 1]).requests == ObtainAll(c, calls[..i]).requests + (if o.requested then 1 else 0) &&
      (o.result.Err? ==> o.requested)
    decreases i
  {
    var o0 := Obtain(c, calls[0].now, calls[0].now2, calls[0].reply);
    var tail := calls[1..];
    if i == 0 {
      assert calls[..0] == [];
      assert calls[..1] == [calls[0]] && calls[..1][1..] == [];
    } else {
      ObtainAllCallByCall(o0.cache, tail, i - 1);
      assert calls[..i][0] == calls[0] && calls[..i][1..] == tail[..i - 1];
      assert calls[..i + 1][0] == calls[0] && calls[..i + 1][1..] == tail[..i];
      assert tail[i - 1] == calls[i];
    }
  }

  /**
   * While every call happens before the cached expiry, a usable token is
   * served to all of them: no request, the same token each time, the cache
   * unchanged.
   */
  lemma {:induction false} ReuseWhileValid(c: Cache, calls: seq<TokenCall>)
    requires Truthy(c.token) && c.expiry.Some?
    requires forall i :: 0 <= i < |calls| ==> calls[i].now < c.expiry.value
    ensures ObtainAll(c, calls).cache == c
    ensures ObtainAll(c, calls).requests == 0
    ensures forall i :: 0 <= i < |calls| ==> ObtainAll(c, calls).results[i] == Ok(c.token)
    decreases |calls|
  {
    if calls != [] {
      var o := Obtain(c, calls[0].now, calls[0].now2, calls[0].reply);
      assert o == Outcome(c, Ok(c.token), false);
      var tail := calls[1..];
      assert forall i :: 0 <= i < |tail| ==> tail[i].now < c.expiry.value by {
        forall i | 0 <= i < |tail| ensures tail[i].now < c.expiry.value {
          assert tail[i] == calls[i + 1];
        }
      }
      ReuseWhileValid(c, tail);
      var t := ObtainAll(c, calls);
      forall i | 0 <= i < |calls| ensures t.results[i] == Ok(c.token) {
        if i > 0 {
          assert t.results[i] == ObtainAll(c, tail).results[i - 1];
        }
      }
    }
  }

  /**
   * One successful refresh with a non-empty token covers every later call
   * made before the computed expiry: those calls make no further request and
   * all receive the refreshed token.
   */
  lemma OneRequestPerLifetime(c: Cache, first: TokenCall, later: seq<TokenCall>, token: string, expiresIn: int)
    requires !Usable(c, first.now) && token != ""
    requires first.reply.Reply? && IsSuccess(first.reply.status)
    requires first.reply.body == Fields(Text(token), Some(expiresIn))
    requires forall i :: 0 <= i < |later| ==> later[i].now < first.now2 + expiresIn - 60
    ensures ObtainAll(c, [first] + later).requests == 1
    ensures forall i :: 0 <= i <= |later| ==> ObtainAll(c, [first] + later).results[i] == Ok(Some(token))
  {
    var calls := [first] + later;
    assert calls[0] == first && calls[1..] == later;
    var o := Obtain(c, first.now, first.now2, first.reply);
    assert o.cache == Cache(Some(token), Some(first.now2 + expiresIn - 60));
    ReuseWhileValid(o.cache, later);
    var t := ObtainAll(c, calls);
    forall i | 0 <= i <= |later| ensures t.results[i] == Ok(Some(token)) {
      if i > 0 {
        assert t.results[i] == ObtainAll(o.cache, later).results[i - 1];
      }
    }
  }
}
