/** What the functions of ProgramCs guarantee: what a request and a login may
    touch, how the one retry counter bounds the 429 and 401 paths, that empty
    and unparsable replies are failures, how `tl-init-data` piles up, and how
    the round loop tallies, pauses and stops. */
module ProgramCsProperties {
  import opened Api
  import opened ProgramCs

  /** The values of the `tl-init-data` header. */
  function InitDataValues(h: map<string, seq<string>>): seq<string>
  {
    if InitDataHeader in h then h[InitDataHeader] else []
  }

  /** The `tl-init-data` values only grow, and only by `initData`. */
  ghost predicate InitDataGrows(h: map<string, seq<string>>, h': map<string, seq<string>>, initData: Option<string>)
  {
    && InitDataValues(h) <= InitDataValues(h')
    && forall i :: |InitDataValues(h)| <= i < |InitDataValues(h')| ==> Some(InitDataValues(h')[i]) == initData
  }

  /** From `s` to `s'` nothing changed but the network, the trace, the
      stored token and init data, the `Authorization` header and the
      `tl-init-data` values (which only grew, by `initData`), and every new
      event is one of `allowed`. */
  ghost predicate Confined(s: CsState, s': CsState, allowed: set<Event>, initData: Option<string>)
  {
    && s'.game == s.game && s'.userInfo == s.userInfo && s'.dice == s.dice
    && SameExcept(s.headers, s'.headers, {AuthorizationHeader, InitDataHeader})
    && InitDataGrows(s.headers, s'.headers, initData)
    && s.trace <= s'.trace
    && AllFrom(s'.trace, |s.trace|, allowed)
  }

  lemma ConfinedCompose(a: CsState, b: CsState, c: CsState, allowedAB: set<Event>, allowedBC: set<Event>, allowed: set<Event>, initData: Option<string>)
    requires Confined(a, b, allowedAB, initData) && Confined(b, c, allowedBC, initData)
    requires allowedAB <= allowed && allowedBC <= allowed
    ensures Confined(a, c, allowed, initData)
  {
    forall i | |a.trace| <= i < |c.trace|
      ensures c.trace[i] in allowed
    {
      if i < |b.trace| {
        PrefixAt(b.trace, c.trace, i);
      }
    }
    var va, vb, vc := InitDataValues(a.headers), InitDataValues(b.headers), InitDataValues(c.headers);
    forall i | |va| <= i < |vc|
      ensures Some(vc[i]) == initData
    {
      if i < |vb| {
        PrefixAt(vb, vc, i);
      }
    }
  }

  lemma Appended(s: CsState, net: seq<Outcome>, events: seq<Event>, allowed: set<Event>, initData: Option<string>)
    requires forall i :: 0 <= i < |events| ==> events[i] in allowed
    ensures Confined(s, s.(net := net, trace := s.trace + events), allowed, initData)
  {
  }

  /** What a request guarantees about the state it ends in. */
  ghost predicate RequestKept(s: CsState, s': CsState, endpoint: Endpoint, body: Body)
  {
    && s'.initData == s.initData
    && Confined(s, s', RequestTraffic(endpoint, body, s.initData), s.initData)
    && s.trace + [Sent(endpoint, body)] <= s'.trace && s'.trace[|s'.trace| - 1].Sent?
  }

  /** A request, re-logins and crashes included, keeps the stored init data,
      the game, the user info and the dice; changes no header except
      `Authorization` and `tl-init-data`, the latter only by adding the
      stored init data; and does nothing but attempt itself, attempt logins
      with the stored init data and wait out rate limits, ending on an
      attempt. */
  lemma {:induction false} RequestConfined(s: CsState, endpoint: Endpoint, body: Body, retryCount: nat)
    decreases |s.net|, 2
    ensures RequestKept(s, Request(s, endpoint, body, retryCount).1, endpoint, body)
  {
    var (outcome, rest) := Exchange(s.net);
    var traffic := RequestTraffic(endpoint, body, s.initData);
    if outcome.Status? && outcome.code == TooManyRequests && retryCount < MaxRateLimitRetries {
      RateLimitConfined(s, endpoint, body, retryCount);
    } else if outcome.Status? && outcome.code == Unauthorized && retryCount < MaxRelogins {
      ReloginConfined(s, endpoint, body, retryCount);
    } else {
      Appended(s, rest, [Sent(endpoint, body)], traffic, s.initData);
    }
  }

  lemma {:induction false} RateLimitConfined(s: CsState, endpoint: Endpoint, body: Body, retryCount: nat)
    requires Exchange(s.net).0 == Status(TooManyRequests) && retryCount < MaxRateLimitRetries
    decreases |s.net|, 1
    ensures RequestKept(s, Request(s, endpoint, body, retryCount).1, endpoint, body)
  {
    var rest := Exchange(s.net).1;
    var traffic := RequestTraffic(endpoint, body, s.initData);
    var waited := s.(net := rest, trace := s.trace + [Sent(endpoint, body)] + [Waited(RateLimitWait)]);
    Appended(s, rest, [Sent(endpoint, body), Waited(RateLimitWait)], traffic, s.initData);
    assert s.trace + [Sent(endpoint, body)] + [Waited(RateLimitWait)] == s.trace + [Sent(endpoint, body), Waited(RateLimitWait)];
    RequestConfined(waited, endpoint, body, retryCount + 1);
    ConfinedCompose(s, waited, Request(s, endpoint, body, retryCount).1, traffic, traffic, traffic, s.initData);
  }

  lemma {:induction false} ReloginConfined(s: CsState, endpoint: Endpoint, body: Body, retryCount: nat)
    requires Exchange(s.net).0 == Status(Unauthorized) && retryCount < MaxRelogins
    decreases |s.net|, 1
    ensures RequestKept(s, Request(s, endpoint, body, retryCount).1, endpoint, body)
  {
    var rest := Exchange(s.net).1;
    var traffic := RequestTraffic(endpoint, body, s.initData);
    var attempted := s.(net := rest, trace := s.trace + [Sent(endpoint, body)]);
    Appended(s, rest, [Sent(endpoint, body)], traffic, s.initData);
    LoginConfined(attempted, s.initData);
    var (loggedIn, s') := Login(attempted, s.initData);
    ConfinedCompose(s, attempted, s', traffic, RequestTraffic(AuthLogin, Credentials(s.initData), s.initData), traffic, s.initData);
    if loggedIn == Value(true) {
      RequestConfined(s', endpoint, body, retryCount + 1);
      ConfinedCompose(s, s', Request(s, endpoint, body, retryCount).1, traffic, traffic, traffic, s.initData);
    }
  }

  /** A login stores its init data and is confined like a request to its own
      login attempts; on success the token is stored, the `Authorization`
      header holds exactly that bearer token, and the last `tl-init-data`
      value is the init data. */
  lemma {:induction false} LoginConfined(s: CsState, initData: Option<string>)
    decreases |s.net|, 3
    ensures var r := Login(s, initData);
      && r.1.initData == initData
      && Confined(s, r.1, RequestTraffic(AuthLogin, Credentials(initData), initData), initData)
      && s.trace + [Sent(AuthLogin, Credentials(initData))] <= r.1.trace && r.1.trace[|r.1.trace| - 1].Sent?
    ensures var r := Login(s, initData);
      r.0 == Value(true) ==>
        && r.1.accessToken.Some?
        && AuthorizationHeader in r.1.headers && r.1.headers[AuthorizationHeader] == ["Bearer " + r.1.accessToken.value]
        && (initData.Some? ==> |InitDataValues(r.1.headers)| > 0
                               && InitDataValues(r.1.headers)[|InitDataValues(r.1.headers)| - 1] == initData.value)
  {
    RequestConfined(s.(initData := initData), AuthLogin, Credentials(initData), 0);
  }

  /** A 429 while the counter allows it: wait, then the same request with
      the counter one higher. */
  lemma RateLimitStep(s: CsState, endpoint: Endpoint, body: Body, retryCount: nat, waited: CsState, next: nat)
    requires s.net != [] && s.net[0] == Status(TooManyRequests) && retryCount < MaxRateLimitRetries
    requires waited == s.(net := s.net[1..], trace := s.trace + [Sent(endpoint, body), Waited(RateLimitWait)])
    requires next == retryCount + 1
    ensures Request(s, endpoint, body, retryCount) == Request(waited, endpoint, body, next)
  {
    assert s.trace + [Sent(endpoint, body)] + [Waited(RateLimitWait)] == s.trace + [Sent(endpoint, body), Waited(RateLimitWait)];
  }

  /** The state after `k` rate-limited attempts, each followed by its wait. */
  ghost function Retried(s: CsState, endpoint: Endpoint, body: Body, k: nat): CsState
    requires k <= |s.net|
  {
    s.(net := s.net[k..], trace := s.trace + RetryTrace(endpoint, body, k))
  }

  /** `k` answers of HTTP 429 in a row, while the counter allows `k` retries,
      cost `k` attempts and `k` waits and leave the counter `k` higher. */
  lemma {:induction false} RateLimitRun(s: CsState, endpoint: Endpoint, body: Body, retryCount: nat, k: nat)
    requires retryCount + k <= MaxRateLimitRetries && k <= |s.net|
    requires forall i :: 0 <= i < k ==> s.net[i] == Status(TooManyRequests)
    ensures Request(s, endpoint, body, retryCount) == Request(Retried(s, endpoint, body, k), endpoint, body, retryCount + k)
    decreases k
  {
    if k == 0 {
      assert Retried(s, endpoint, body, 0) == s;
    } else {
      RateLimitRun(s, endpoint, body, retryCount, k - 1);
      RetriedSnoc(s, endpoint, body, k);
      RateLimitStep(Retried(s, endpoint, body, k - 1), endpoint, body, retryCount + k - 1, Retried(s, endpoint, body, k), retryCount + k);
    }
  }

  /** One more rate-limited attempt and its wait. */
  lemma RetriedSnoc(s: CsState, endpoint: Endpoint, body: Body, k: nat)
    requires 1 <= k <= |s.net|
    ensures var before := Retried(s, endpoint, body, k - 1);
      && before.net != [] && before.net[0] == s.net[k - 1]
      && before.(net := before.net[1..], trace := before.trace + [Sent(endpoint, body), Waited(RateLimitWait)])
         == Retried(s, endpoint, body, k)
  {
    var before := Retried(s, endpoint, body, k - 1);
    assert before.net[0] == s.net[k - 1];
    assert before.net[1..] == s.net[k..];
    RetryTraceSnoc(endpoint, body, k - 1);
  }

  /** Once the counter has allowed its three retries, the next 429 falls to
      the generic handler: a call answered only with 429s makes
      `4 - retryCount` attempts and `3 - retryCount` waits and yields null. */
  lemma RateLimitExhausted(s: CsState, endpoint: Endpoint, body: Body, retryCount: nat)
    requires retryCount <= MaxRateLimitRetries && MaxRateLimitRetries - retryCount < |s.net|
    requires forall i :: 0 <= i <= MaxRateLimitRetries - retryCount ==> s.net[i] == Status(TooManyRequests)
    ensures var k := MaxRateLimitRetries - retryCount;
      Request(s, endpoint, body, retryCount)
      == (Value(None), s.(net := s.net[k + 1..], trace := s.trace + RetryTrace(endpoint, body, k) + [Sent(endpoint, body)]))
  {
    var k := MaxRateLimitRetries - retryCount;
    RateLimitRun(s, endpoint, body, retryCount, k);
    var s' := Retried(s, endpoint, body, k);
    assert s'.net[0] == Status(TooManyRequests);
    assert s'.net[1..] == s.net[k + 1..];
  }

  /** An attempt that is neither retried nor answered by a re-login ends the
      request. */
  lemma FinalAttempt(s: CsState, endpoint: Endpoint, body: Body, retryCount: nat)
    requires Exchange(s.net).0 != Status(TooManyRequests) || retryCount >= MaxRateLimitRetries
    requires Exchange(s.net).0 != Status(Unauthorized) || retryCount >= MaxRelogins
    ensures Request(s, endpoint, body, retryCount).0.Value?
    ensures Request(s, endpoint, body, retryCount).1
         == s.(net := Exchange(s.net).1, trace := s.trace + [Sent(endpoint, body)])
  {
  }

  /** `s'` is what a run of `n` rate-limited attempts and a last attempt
      leaves, `n` within what the counter allows. */
  ghost predicate RateLimitedRun(s: CsState, s': CsState, endpoint: Endpoint, body: Body, retryCount: nat, n: nat)
  {
    && (n == 0 || retryCount + n <= MaxRateLimitRetries)
    && s'.trace == s.trace + RetryTrace(endpoint, body, n) + [Sent(endpoint, body)]
  }

  /** Without a 401, a request is a run of at most `3 - retryCount`
      rate-limited attempts, each followed by a wait, and one final attempt;
      it cannot crash and changes no header. */
  lemma RateLimitOnly(s: CsState, endpoint: Endpoint, body: Body, retryCount: nat)
    requires NoUnauthorized(s.net)
    ensures var r := Request(s, endpoint, body, retryCount);
      && r.0.Value? && r.1.headers == s.headers
      && exists n: nat :: RateLimitedRun(s, r.1, endpoint, body, retryCount, n)
  {
    var n := LeadingRateLimits(s.net, RetryBudget(retryCount, MaxRateLimitRetries));
    var last := Retried(s, endpoint, body, n);
    if n == 0 {
      assert last == s;
    } else {
      RateLimitRun(s, endpoint, body, retryCount, n);
    }
    LastAttempt(s, endpoint, body, retryCount);
    FinalAttempt(last, endpoint, body, retryCount + n);
    assert RateLimitedRun(s, Request(s, endpoint, body, retryCount).1, endpoint, body, retryCount, n);
  }

  /** Without a 401, the attempt after the leading 429s the counter allows
      is retried neither for a 429 nor for a 401. */
  lemma LastAttempt(s: CsState, endpoint: Endpoint, body: Body, retryCount: nat)
    requires NoUnauthorized(s.net)
    ensures var n := LeadingRateLimits(s.net, RetryBudget(retryCount, MaxRateLimitRetries));
      var last := Retried(s, endpoint, body, n);
      && Exchange(last.net).0 != Status(Unauthorized)
      && (Exchange(last.net).0 != Status(TooManyRequests) || retryCount + n >= MaxRateLimitRetries)
  {
    var n := LeadingRateLimits(s.net, RetryBudget(retryCount, MaxRateLimitRetries));
    var last := Retried(s, endpoint, body, n);
    if n < |s.net| {
      assert last.net[0] == s.net[n];
    }
  }

  /** After any retry, a 401 yields null: no re-login is attempted. */
  lemma UnauthorizedAfterRetryFails(s: CsState, endpoint: Endpoint, body: Body, retryCount: nat)
    requires Exchange(s.net).0 == Status(Unauthorized) && retryCount >= MaxRelogins
    ensures Request(s, endpoint, body, retryCount)
         == (Value(None), s.(net := s.net[1..], trace := s.trace + [Sent(endpoint, body)]))
  {
  }

  /** The counter is shared: a 401 that follows a 429 retry yields null
      without a re-login. */
  lemma RateLimitThenUnauthorizedFails(s: CsState, endpoint: Endpoint, body: Body)
    requires |s.net| >= 2 && s.net[0] == Status(TooManyRequests) && s.net[1] == Status(Unauthorized)
    ensures Request(s, endpoint, body, 0)
         == (Value(None), s.(net := s.net[2..], trace := s.trace + [Sent(endpoint, body), Waited(RateLimitWait), Sent(endpoint, body)]))
  {
    var waited := s.(net := s.net[1..], trace := s.trace + [Sent(endpoint, body), Waited(RateLimitWait)]);
    RateLimitStep(s, endpoint, body, 0, waited, 1);
    UnauthorizedAfterRetryFails(waited, endpoint, body, 1);
    assert waited.net[1..] == s.net[2..];
    assert waited.trace + [Sent(endpoint, body)] == s.trace + [Sent(endpoint, body), Waited(RateLimitWait), Sent(endpoint, body)];
  }

  /** A 401 answered by a failed re-login yields null, and the request is
      not attempted again. */
  lemma FailedReloginNotRetried(s: CsState, endpoint: Endpoint, body: Body, retryCount: nat)
    requires Exchange(s.net).0 == Status(Unauthorized) && retryCount < MaxRelogins
    requires Login(s.(net := Exchange(s.net).1, trace := s.trace + [Sent(endpoint, body)]), s.initData).0 == Value(false)
    ensures var r := Request(s, endpoint, body, retryCount);
      && r == (Value(None), Login(s.(net := Exchange(s.net).1, trace := s.trace + [Sent(endpoint, body)]), s.initData).1)
      && s.trace + [Sent(endpoint, body)] <= r.1.trace
      && (endpoint != AuthLogin ==> NoneSentFrom(r.1.trace, |s.trace| + 1, endpoint))
  {
    var attempted := s.(net := Exchange(s.net).1, trace := s.trace + [Sent(endpoint, body)]);
    LoginConfined(attempted, s.initData);
  }

  /** A 401 on a first attempt whose re-login gets a token sends the request
      once more with the counter at 1, where a second 401 yields null. */
  lemma ReloginRetriesOnce(s: CsState, endpoint: Endpoint, body: Body, p: Payload, rest: seq<Outcome>)
    requires s.net == [Status(Unauthorized), Ok(p), Status(Unauthorized)] + rest && p.accessToken.Some?
    ensures var r := Request(s, endpoint, body, 0);
      && r.0 == Value(None) && r.1.net == rest && r.1.accessToken == p.accessToken
      && r.1.trace == s.trace + [Sent(endpoint, body), Sent(AuthLogin, Credentials(s.initData)), Sent(endpoint, body)]
      && AuthorizationHeader in r.1.headers && r.1.headers[AuthorizationHeader] == ["Bearer " + p.accessToken.value]
  {
    assert s.net[1..] == [Ok(p), Status(Unauthorized)] + rest;
    assert Exchange(s.net) == (Status(Unauthorized), [Ok(p), Status(Unauthorized)] + rest);
    var attempted := s.(net := s.net[1..], trace := s.trace + [Sent(endpoint, body)]);
    assert ([Ok(p), Status(Unauthorized)] + rest)[1..] == [Status(Unauthorized)] + rest;
    assert Exchange(attempted.net) == (Ok(p), [Status(Unauthorized)] + rest);
    assert Request(attempted, AuthLogin, Credentials(s.initData), 0)
        == (Value(Some(p)), attempted.(net := [Status(Unauthorized)] + rest, trace := attempted.trace + [Sent(AuthLogin, Credentials(s.initData))]));
    var (loggedIn, s') := Login(attempted, attempted.initData);
    assert loggedIn == Value(true) && s'.net == [Status(Unauthorized)] + rest;
    assert Exchange(s'.net) == (Status(Unauthorized), rest);
    assert Request(s, endpoint, body, 0) == Request(s', endpoint, body, 1);
  }

  /** A 2xx reply with an empty or unparsable body is null after one
      attempt, and every caller takes null for failure. */
  lemma EmptyReplyIsFailure(s: CsState, endpoint: Endpoint, body: Body, retryCount: nat)
    requires Exchange(s.net).0 == Empty || Exchange(s.net).0 == Malformed
    ensures Request(s, endpoint, body, retryCount)
         == (Value(None), s.(net := s.net[1..], trace := s.trace + [Sent(endpoint, body)]))
    ensures forall d :: Login(s, d).0 == Value(false)
    ensures Me(s).0 == Value(false) && Start(s).0 == Value(false)
    ensures s.game.Some? && s.game.value.rewards.Some? ==> forall score, gameTime :: Win(s, score, gameTime).0 == Value(false)
  {
  }

  /** A login whose reply has no access token crashes with only the init
      data stored: no token is stored and no header changes. */
  lemma LoginCrashesWithoutToken(s: CsState, initData: Option<string>, p: Payload)
    requires Exchange(s.net).0 == Ok(p) && p.accessToken.None?
    ensures Login(s, initData)
         == (Crashed, s.(initData := initData, net := s.net[1..], trace := s.trace + [Sent(AuthLogin, Credentials(initData))]))
  {
  }

  /** `MeAsync` stores a non-null reply as the user info, then crashes when
      it lacks `firstName`, `score` (as an integer) or `bybitId`. */
  lemma MeChecksFields(s: CsState, p: Payload)
    requires Exchange(s.net).0 == Ok(p)
    ensures Me(s).1.userInfo == Some(p)
    ensures Me(s).0 == if p.firstName.None? || p.score.None? || p.bybitId.None? then Crashed else Value(true)
  {
  }

  /** `MeAsync` and `StartGameAsync` change only their own field: a call
      that yields null leaves the user info and the game as they were. */
  lemma MeAndStartStore(s: CsState)
    ensures var (ok, s') := Me(s);
      s'.game == s.game && s'.dice == s.dice && (ok == Value(false) ==> s'.userInfo == s.userInfo)
    ensures var (ok, s') := Start(s);
      s'.userInfo == s.userInfo && s'.dice == s.dice && (ok != Value(true) ==> s'.game == s.game)
  {
    RequestConfined(s, UsersMe, NoBody, 0);
    RequestConfined(s, GamesStart, EmptyObject, 0);
  }

  /** A login that fails without ever meeting a 401 changes no header. */
  lemma LoginFailureKeepsHeaders(s: CsState, initData: Option<string>)
    requires NoUnauthorized(s.net)
    ensures var r := Login(s, initData);
      r.0 == Value(false) ==> r.1.headers == s.headers
  {
    RateLimitOnly(s.(initData := initData), AuthLogin, Credentials(initData), 0);
  }

  /** But a failed login can change the headers: when its first attempt gets
      a 401, the nested re-login gets a token and installs it with one more
      `tl-init-data` value, and the retried attempt then gets no response. */
  lemma NestedReloginChangesHeaders(s: CsState, initData: string, p: Payload)
    requires |s.net| >= 3 && s.net[0] == Status(Unauthorized) && s.net[1] == Ok(p) && s.net[2] == OtherError
    requires p.accessToken.Some?
    ensures var r := Login(s, Some(initData));
      && r.0 == Value(false)
      && r.1.accessToken == p.accessToken
      && r.1.headers == AddHeader(Authorize(s.headers, p.accessToken.value), InitDataHeader, initData)
  {
    var s0 := s.(initData := Some(initData));
    var attempted := s0.(net := s.net[1..], trace := s.trace + [Sent(AuthLogin, Credentials(Some(initData)))]);
    LoginInstallsToken(attempted, initData, p);
    var (inner, s1) := Login(attempted, Some(initData));
    assert s1.net == s.net[2..];
    assert Request(s0, AuthLogin, Credentials(Some(initData)), 0) == Request(s1, AuthLogin, Credentials(Some(initData)), 1);
  }

  /** A login whose reply carries an access token stores it, makes it the
      one bearer token and adds the init data as the last `tl-init-data`
      value, after exactly one attempt. */
  lemma LoginInstallsToken(s: CsState, initData: string, p: Payload)
    requires Exchange(s.net).0 == Ok(p) && p.accessToken.Some?
    ensures var r := Login(s, Some(initData));
      && r.0 == Value(true)
      && r.1.accessToken == p.accessToken
      && r.1.headers == AddHeader(Authorize(s.headers, p.accessToken.value), InitDataHeader, initData)
      && InitDataValues(r.1.headers) == InitDataValues(s.headers) + [initData]
      && r.1.net == s.net[1..] && r.1.trace == s.trace + [Sent(AuthLogin, Credentials(Some(initData)))]
  {
  }

  /** Two successful logins leave two `tl-init-data` values: the header is
      added to, never replaced, while `Authorization` holds only the second
      token. */
  lemma InitDataAccumulates(s: CsState, first: string, second: string, p: Payload, q: Payload)
    requires |s.net| >= 2 && s.net[0] == Ok(p) && s.net[1] == Ok(q)
    requires p.accessToken.Some? && q.accessToken.Some?
    ensures var r1 := Login(s, Some(first));
      var r2 := Login(r1.1, Some(second));
      && r1.0 == Value(true) && r2.0 == Value(true)
      && InitDataValues(r2.1.headers) == InitDataValues(s.headers) + [first, second]
      && r2.1.headers[AuthorizationHeader] == ["Bearer " + q.accessToken.value]
  {
    LoginInstallsToken(s, first, p);
    var r1 := Login(s, Some(first));
    assert r1.1.net[0] == Ok(q);
    LoginInstallsToken(r1.1, second, q);
  }

  /** A login has no bound on its attempts: when every answer is a 401, each
      one re-enters the login, until the network stops answering. */
  lemma {:induction false} LoginKeepsReentering(s: CsState, initData: Option<string>, n: nat)
    requires s.net == Repeat(Status(Unauthorized), n)
    ensures Login(s, initData)
         == (Value(false), s.(initData := initData, net := [],
                              trace := s.trace + Repeat(Sent(AuthLogin, Credentials(initData)), n + 1)))
    decreases n
  {
    var attempt := Sent(AuthLogin, Credentials(initData));
    if n == 0 {
      assert Repeat(attempt, 1) == [attempt];
    } else {
      var attempted := s.(initData := initData, net := s.net[1..], trace := s.trace + [attempt]);
      assert attempted.net == Repeat(Status(Unauthorized), n - 1);
      LoginKeepsReentering(attempted, initData, n - 1);
      assert s.trace + [attempt] + Repeat(attempt, n) == s.trace + Repeat(attempt, n + 1);
    }
  }

  /** Every attempt `WinGameAsync` makes echoes the rewards and the id of the
      stored game, and the stored game stays as it was. */
  lemma WinEchoesGame(s: CsState, score: int, gameTime: int)
    requires s.game.Some? && s.game.value.rewards.Some?
    ensures var rw := s.game.value.rewards.value;
      var body := Settlement(rw.bagCoins, rw.bits, rw.gifts, s.game.value.id, score, gameTime);
      var r := Win(s, score, gameTime);
      && r.1.game == s.game
      && s.trace + [Sent(GamesWin, body)] <= r.1.trace
      && forall i :: |s.trace| <= i < |r.1.trace| && r.1.trace[i].Sent? && r.1.trace[i].endpoint == GamesWin
                     ==> r.1.trace[i].body == body
  {
    var rw := s.game.value.rewards.value;
    RequestConfined(s, GamesWin, Settlement(rw.bagCoins, rw.bits, rw.gifts, s.game.value.id, score, gameTime), 0);
  }

  /** The tallies after a settled round: a win adds the score and counts a
      success, a failed win counts only a failure; a failed start ends the
      account with the tallies as they were and sends no `win`. */
  lemma RoundTally(s: CsState, batch: int, totalBatches: int, tally: Tally)
    ensures var (gameTime, score, dice') := Draws(s.dice);
      var (started, s1) := Start(s.(dice := dice'));
      var r := Round(s, batch, totalBatches, tally);
      && (started == Value(false) ==> r.0 == Value(None) && NoneSentFrom(r.1.trace, |s.trace|, GamesWin))
      && (r.0.Value? && r.0.value.Some? ==>
            var won := Win(s1.(trace := s1.trace + [Waited(gameTime)]), score, gameTime).0;
            && won.Value?
            && r.0.value.value == (if won.value then Tally(tally.totalScore + score, tally.successCount + 1, tally.failureCount)
                                   else Tally(tally.totalScore, tally.successCount, tally.failureCount + 1)))
  {
    var (gameTime, score, dice') := Draws(s.dice);
    RequestConfined(s.(dice := dice'), GamesStart, EmptyObject, 0);
  }

  /** A wait a round may take: a rate-limit wait, the pause between rounds,
      or the game time, in [90, 199]. */
  ghost predicate RoundWait(e: Event)
  {
    e.Waited? ==> e.seconds == RateLimitWait || e.seconds == RoundGap || MinGameTime <= e.seconds < GameTimeBound
  }

  ghost predicate RoundWaitsFrom(trace: seq<Event>, from: nat)
  {
    forall i :: from <= i < |trace| ==> RoundWait(trace[i])
  }

  lemma RoundWaitsCompose(a: seq<Event>, b: seq<Event>, from: nat)
    requires from <= |a| && a <= b && RoundWaitsFrom(a, from) && RoundWaitsFrom(b, |a|)
    ensures RoundWaitsFrom(b, from)
  {
    forall i | from <= i < |b| ensures RoundWait(b[i]) {
      if i < |a| {
        PrefixAt(a, b, i);
      }
    }
  }

  /** The waits of a request are rate-limit waits. */
  lemma RequestWaits(s: CsState, endpoint: Endpoint, body: Body)
    ensures var s' := Request(s, endpoint, body, 0).1;
      s.trace <= s'.trace && RoundWaitsFrom(s'.trace, |s.trace|) && |s'.trace| > 0 && s'.trace[|s'.trace| - 1].Sent?
  {
    RequestConfined(s, endpoint, body, 0);
    var s' := Request(s, endpoint, body, 0).1;
    forall i | |s.trace| <= i < |s'.trace| ensures RoundWait(s'.trace[i]) {
      assert s'.trace[i] in RequestTraffic(endpoint, body, s.initData);
    }
  }

  /** Every wait a round takes is a rate-limit wait, the game time, in
      [90, 199], or the pause between rounds. */
  lemma RoundWaits(s: CsState, batch: int, totalBatches: int, tally: Tally)
    ensures var r := Round(s, batch, totalBatches, tally);
      s.trace <= r.1.trace && RoundWaitsFrom(r.1.trace, |s.trace|)
  {
    var (gameTime, score, dice') := Draws(s.dice);
    var s0 := s.(dice := dice');
    RequestWaits(s0, GamesStart, EmptyObject);
    var (started, s1) := Start(s0);
    if started == Value(true) {
      var w := s1.(trace := s1.trace + [Waited(gameTime)]);
      RoundWaitsCompose(s1.trace, w.trace, |s.trace|);
      var s2 := Win(w, score, gameTime).1;
      if w.game.value.rewards.Some? {
        var rw := w.game.value.rewards.value;
        RequestWaits(w, GamesWin, Settlement(rw.bagCoins, rw.bits, rw.gifts, w.game.value.id, score, gameTime));
        RoundWaitsCompose(w.trace, s2.trace, |s.trace|);
      }
      var s3 := Round(s, batch, totalBatches, tally).1;
      RoundWaitsCompose(s2.trace, s3.trace, |s.trace|);
    }
  }

  /** A round that goes on ends with the 3-second pause exactly when it is
      not the last one. */
  lemma RoundPause(s: CsState, batch: int, totalBatches: int, tally: Tally)
    ensures var r := Round(s, batch, totalBatches, tally);
      r.0.Value? && r.0.value.Some? ==>
        |r.1.trace| > 0 && (r.1.trace[|r.1.trace| - 1] == Waited(RoundGap) <==> batch < totalBatches - 1)
  {
    var (gameTime, score, dice') := Draws(s.dice);
    var (started, s1) := Start(s.(dice := dice'));
    if started == Value(true) {
      var w := s1.(trace := s1.trace + [Waited(gameTime)]);
      if w.game.value.rewards.Some? {
        var rw := w.game.value.rewards.value;
        RequestWaits(w, GamesWin, Settlement(rw.bagCoins, rw.bits, rw.gifts, w.game.value.id, score, gameTime));
      }
    }
  }

  /** Every success scored in [600, 899]. */
  ghost predicate Bounded(t: Tally)
  {
    MinScore * t.successCount <= t.totalScore <= (ScoreBound - 1) * t.successCount
  }

  /** The round loop keeps the total between 600 and 899 times the number of
      successes, and an account that completes has settled every round:
      successes and failures add up to the number of rounds. */
  lemma {:induction false} RoundsTally(s: CsState, batch: int, totalBatches: int, tally: Tally)
    requires Bounded(tally)
    decreases totalBatches - batch
    ensures var r := Rounds(s, batch, totalBatches, tally);
      && (r.0.Value? && (r.0.value.StartFailed? || r.0.value.Completed?) ==> Bounded(r.0.value.tally))
      && (r.0.Value? && r.0.value.Completed? && batch <= totalBatches ==>
            r.0.value.tally.successCount + r.0.value.tally.failureCount
            == tally.successCount + tally.failureCount + (totalBatches - batch))
      && (r.0.Value? ==> r.0.value.StartFailed? || r.0.value.Completed?)
  {
    if batch < totalBatches {
      RoundTally(s, batch, totalBatches, tally);
      var (played, s1) := Round(s, batch, totalBatches, tally);
      if played.Value? && played.value.Some? {
        RoundsTally(s1, batch + 1, totalBatches, played.value.value);
      }
    }
  }

  /** An account that completes played `numberOfGames` rounds, each settled
      as a success or a failure, and scored between 600 and 899 per success. */
  lemma ProcessUserTally(s: CsState, initData: string, numberOfGames: int)
    ensures var r := ProcessUser(s, initData, numberOfGames);
      && (r.0.Value? && (r.0.value.StartFailed? || r.0.value.Completed?) ==> Bounded(r.0.value.tally))
      && (r.0 .Value? && r.0.value.Completed? && numberOfGames >= 0 ==>
            r.0.value.tally.successCount + r.0.value.tally.failureCount == numberOfGames)
  {
    var (loggedIn, s1) := Login(s, Some(initData));
    if loggedIn == Value(true) {
      var (informed, s2) := Me(s1);
      if informed == Value(true) {
        RoundsTally(s2, 0, numberOfGames, Tally(0, 0, 0));
      }
    }
  }

  /** How `ProcessUserAsync` unfolds. */
  lemma ProcessUserCases(s: CsState, initData: string, numberOfGames: int)
    ensures var r := ProcessUser(s, initData, numberOfGames);
      var (loggedIn, s1) := Login(s, Some(initData));
      var (informed, s2) := Me(s1);
      && (loggedIn != Value(true) ==> r.1 == s1)
      && (loggedIn == Value(false) <==> r.0 == Value(LoginFailed))
      && (loggedIn == Value(true) && informed != Value(true) ==> r.1 == s2)
      && (r.0 == Value(InfoFailed) ==> loggedIn == Value(true) && informed == Value(false))
  {
    var (loggedIn, s1) := Login(s, Some(initData));
    RoundsTally(Me(s1).1, 0, numberOfGames, Tally(0, 0, 0));
  }

  /** A login failure ends the account before anything else is requested. */
  lemma LoginFailureStops(s: CsState, initData: string, numberOfGames: int)
    ensures var r := ProcessUser(s, initData, numberOfGames);
      && (r.0 == Value(LoginFailed) <==> Login(s, Some(initData)).0 == Value(false))
      && (r.0 == Value(LoginFailed) ==>
            && NoneSentFrom(r.1.trace, |s.trace|, UsersMe)
            && NoneSentFrom(r.1.trace, |s.trace|, GamesStart) && NoneSentFrom(r.1.trace, |s.trace|, GamesWin))
  {
    ProcessUserCases(s, initData, numberOfGames);
    LoginConfined(s, Some(initData));
    var s1 := Login(s, Some(initData)).1;
    assert forall i :: |s.trace| <= i < |s1.trace| ==> s1.trace[i] in RequestTraffic(AuthLogin, Credentials(Some(initData)), Some(initData));
  }

  /** An info failure ends the account before any round: no game is started. */
  lemma InfoFailureStops(s: CsState, initData: string, numberOfGames: int)
    ensures var r := ProcessUser(s, initData, numberOfGames);
      r.0 == Value(InfoFailed) ==>
        NoneSentFrom(r.1.trace, |s.trace|, GamesStart) && NoneSentFrom(r.1.trace, |s.trace|, GamesWin)
  {
    ProcessUserCases(s, initData, numberOfGames);
    LoginConfined(s, Some(initData));
    var (loggedIn, s1) := Login(s, Some(initData));
    if loggedIn == Value(true) {
      StopsBeforeRounds(s, s1, initData);
    }
  }

  lemma StopsBeforeRounds(s: CsState, s1: CsState, initData: string)
    requires s.trace <= s1.trace
    requires AllFrom(s1.trace, |s.trace|, RequestTraffic(AuthLogin, Credentials(Some(initData)), Some(initData)))
    requires s1.initData == Some(initData)
    ensures NoneSentFrom(Me(s1).1.trace, |s.trace|, GamesStart) && NoneSentFrom(Me(s1).1.trace, |s.trace|, GamesWin)
  {
    RequestConfined(s1, UsersMe, NoBody, 0);
    var s2 := Me(s1).1;
    assert AllFrom(s2.trace, |s1.trace|, RequestTraffic(UsersMe, NoBody, Some(initData)));
    forall i | |s.trace| <= i < |s2.trace|
      ensures !(s2.trace[i].Sent? && s2.trace[i].endpoint in {GamesStart, GamesWin})
    {
      if i < |s1.trace| {
        PrefixAt(s1.trace, s2.trace, i);
        assert s2.trace[i] in RequestTraffic(AuthLogin, Credentials(Some(initData)), Some(initData));
      } else {
        assert s2.trace[i] in RequestTraffic(UsersMe, NoBody, Some(initData));
      }
    }
  }
}
