/** What the functions of IndexJs guarantee: what a request and a login may
    touch, how the one retry counter bounds the 429 and 401 paths, what a
    round sends and returns, and how the batch loop tallies, re-fetches,
    pauses and re-runs. */
module IndexJsProperties {
  import opened Api
  import opened IndexJs

  /** The `tl-init-data` default header is either as it was or holds
      `initData`; it disappears only when `initData` is undefined. */
  ghost predicate InitDataKept(m: map<string, string>, m': map<string, string>, initData: Option<string>)
  {
    && (InitDataHeader in m' ==>
          (InitDataHeader in m && m'[InitDataHeader] == m[InitDataHeader]) || initData == Some(m'[InitDataHeader]))
    && (InitDataHeader in m && InitDataHeader !in m' ==> initData.None?)
  }

  /** From `s` to `s'` nothing changed but the network, the trace, the
      stored init data, the `Authorization` headers and the `tl-init-data`
      default (only to `initData`), and every new event is one of `allowed`. */
  ghost predicate Confined(s: ClientState, s': ClientState, allowed: set<Event>, initData: Option<string>)
  {
    && s'.game == s.game && s'.userInfo == s.userInfo && s'.dice == s.dice
    && SameExcept(s.headers, s'.headers, {AuthorizationHeader})
    && SameExcept(s.defaults, s'.defaults, {AuthorizationHeader, InitDataHeader})
    && InitDataKept(s.defaults, s'.defaults, initData)
    && s.trace <= s'.trace
    && AllFrom(s'.trace, |s.trace|, allowed)
  }

  lemma ConfinedCompose(a: ClientState, b: ClientState, c: ClientState, allowedAB: set<Event>, allowedBC: set<Event>, allowed: set<Event>, initData: Option<string>)
    requires Confined(a, b, allowedAB, initData) && Confined(b, c, allowedBC, initData)
    requires allowedAB <= allowed && allowedBC <= allowed
    ensures Confined(a, c, allowed, initData)
  {
    forall i | |a.trace| <= i < |c.trace|
      ensures c.trace[i] in allowed
    {
      if i < |b.trace| {
        PrefixAt(b.trace, c.trace, i);
      }
    }
  }

  lemma Appended(s: ClientState, net: seq<Outcome>, events: seq<Event>, allowed: set<Event>, initData: Option<string>)
    requires forall i :: 0 <= i < |events| ==> events[i] in allowed
    ensures Confined(s, s.(net := net, trace := s.trace + events), allowed, initData)
  {
  }

  /** What a request guarantees about the state it ends in. */
  ghost predicate RequestKept(s: ClientState, s': ClientState, endpoint: Endpoint, body: Body)
  {
    && s'.currentInitData == s.currentInitData
    && Confined(s, s', RequestTraffic(endpoint, body, s.currentInitData), s.currentInitData)
    && s.trace + [Sent(endpoint, body)] <= s'.trace && s'.trace[|s'.trace| - 1].Sent?
  }

  /** A request, re-logins included, keeps the stored init data, the game,
      the user info and the dice; changes no header except `Authorization`
      and `tl-init-data`, the latter only to the stored init data; and does
      nothing but attempt itself, attempt logins with the stored init data
      and wait out rate limits, ending on an attempt. */
  lemma {:induction false} RequestConfined(s: ClientState, endpoint: Endpoint, body: Body, retryCount: nat)
    decreases |s.net|, 2
    ensures RequestKept(s, Request(s, endpoint, body, retryCount).1, endpoint, body)
  {
    var (outcome, rest) := Exchange(s.net);
    var traffic := RequestTraffic(endpoint, body, s.currentInitData);
    if outcome.Status? && outcome.code == TooManyRequests && retryCount < MaxRateLimitRetries {
      RateLimitConfined(s, endpoint, body, retryCount);
    } else if outcome.Status? && outcome.code == Unauthorized && retryCount < MaxRelogins {
      ReloginConfined(s, endpoint, body, retryCount);
    } else {
      Appended(s, rest, [Sent(endpoint, body)], traffic, s.currentInitData);
    }
  }

  lemma {:induction false} RateLimitConfined(s: ClientState, endpoint: Endpoint, body: Body, retryCount: nat)
    requires Exchange(s.net).0 == Status(TooManyRequests) && retryCount < MaxRateLimitRetries
    decreases |s.net|, 1
    ensures RequestKept(s, Request(s, endpoint, body, retryCount).1, endpoint, body)
  {
    var rest := Exchange(s.net).1;
    var traffic := RequestTraffic(endpoint, body, s.currentInitData);
    var waited := s.(net := rest, trace := s.trace + [Sent(endpoint, body)] + [Waited(RateLimitWait)]);
    Appended(s, rest, [Sent(endpoint, body), Waited(RateLimitWait)], traffic, s.currentInitData);
    assert s.trace + [Sent(endpoint, body)] + [Waited(RateLimitWait)] == s.trace + [Sent(endpoint, body), Waited(RateLimitWait)];
    RequestConfined(waited, endpoint, body, retryCount + 1);
    ConfinedCompose(s, waited, Request(s, endpoint, body, retryCount).1, traffic, traffic, traffic, s.currentInitData);
  }

  lemma {:induction false} ReloginConfined(s: ClientState, endpoint: Endpoint, body: Body, retryCount: nat)
    requires Exchange(s.net).0 == Status(Unauthorized) && retryCount < MaxRelogins
    decreases |s.net|, 1
    ensures RequestKept(s, Request(s, endpoint, body, retryCount).1, endpoint, body)
  {
    var rest := Exchange(s.net).1;
    var traffic := RequestTraffic(endpoint, body, s.currentInitData);
    var attempted := s.(net := rest, trace := s.trace + [Sent(endpoint, body)]);
    Appended(s, rest, [Sent(endpoint, body)], traffic, s.currentInitData);
    LoginConfined(attempted, s.currentInitData);
    var (loggedIn, s') := Login(attempted, s.currentInitData);
    ConfinedCompose(s, attempted, s', traffic, RequestTraffic(AuthLogin, Credentials(s.currentInitData), s.currentInitData), traffic, s.currentInitData);
    if loggedIn {
      RequestConfined(s', endpoint, body, retryCount + 1);
      ConfinedCompose(s, s', Request(s, endpoint, body, retryCount).1, traffic, traffic, traffic, s.currentInitData);
    }
  }

  /** A login stores its init data and is confined like a request to its own
      login attempts; on success both header sets carry the same
      `Authorization` value and the defaults carry the init data. */
  lemma {:induction false} LoginConfined(s: ClientState, initData: Option<string>)
    decreases |s.net|, 3
    ensures var r := Login(s, initData);
      && r.1.currentInitData == initData
      && Confined(s, r.1, RequestTraffic(AuthLogin, Credentials(initData), initData), initData)
      && s.trace + [Sent(AuthLogin, Credentials(initData))] <= r.1.trace && r.1.trace[|r.1.trace| - 1].Sent?
    ensures var r := Login(s, initData);
      r.0 ==> && AuthorizationHeader in r.1.headers && AuthorizationHeader in r.1.defaults
              && r.1.defaults[AuthorizationHeader] == r.1.headers[AuthorizationHeader]
              && (initData.Some? <==> InitDataHeader in r.1.defaults)
              && (initData.Some? ==> r.1.defaults[InitDataHeader] == initData.value)
  {
    RequestConfined(s.(currentInitData := initData), AuthLogin, Credentials(initData), 0);
  }

  /** A 429 while the counter allows it: wait, then the same request with
      the counter one higher. */
  lemma RateLimitStep(s: ClientState, endpoint: Endpoint, body: Body, retryCount: nat, waited: ClientState, next: nat)
    requires Exchange(s.net).0 == Status(TooManyRequests) && retryCount < MaxRateLimitRetries
    requires waited == s.(net := s.net[1..], trace := s.trace + [Sent(endpoint, body), Waited(RateLimitWait)])
    requires next == retryCount + 1
    ensures Request(s, endpoint, body, retryCount) == Request(waited, endpoint, body, next)
  {
    assert s.trace + [Sent(endpoint, body)] + [Waited(RateLimitWait)] == s.trace + [Sent(endpoint, body), Waited(RateLimitWait)];
  }

  /** The state after `k` rate-limited attempts, each followed by its wait. */
  ghost function Retried(s: ClientState, endpoint: Endpoint, body: Body, k: nat): ClientState
    requires k <= |s.net|
  {
    s.(net := s.net[k..], trace := s.trace + RetryTrace(endpoint, body, k))
  }

  /** `k` answers of HTTP 429 in a row, while the counter allows `k` retries,
      cost `k` attempts and `k` waits and leave the counter `k` higher. */
  lemma {:induction false} RateLimitRun(s: ClientState, endpoint: Endpoint, body: Body, retryCount: nat, k: nat)
    requires retryCount + k <= MaxRateLimitRetries && k <= |s.net|
    requires forall i :: 0 <= i < k ==> s.net[i] == Status(TooManyRequests)
    ensures Request(s, endpoint, body, retryCount) == Request(Retried(s, endpoint, body, k), endpoint, body, retryCount + k)
    decreases k
  {
    if k == 0 {
      assert Retried(s, endpoint, body, 0) == s;
    } else {
      RateLimitRun(s, endpoint, body, retryCount, k - 1);
      AfterWait(s, endpoint, body, retryCount, k);
    }
  }

  /** The `k`-th rate-limited attempt in a row. */
  lemma AfterWait(s: ClientState, endpoint: Endpoint, body: Body, retryCount: nat, k: nat)
    requires 1 <= k <= |s.net| && retryCount + k <= MaxRateLimitRetries
    requires s.net[k - 1] == Status(TooManyRequests)
    ensures Request(Retried(s, endpoint, body, k - 1), endpoint, body, retryCount + k - 1)
         == Request(Retried(s, endpoint, body, k), endpoint, body, retryCount + k)
  {
    RetriedSnoc(s, endpoint, body, k);
    RateLimitStep(Retried(s, endpoint, body, k - 1), endpoint, body, retryCount + k - 1, Retried(s, endpoint, body, k), retryCount + k);
  }

  /** One more rate-limited attempt and its wait. */
  lemma RetriedSnoc(s: ClientState, endpoint: Endpoint, body: Body, k: nat)
    requires 1 <= k <= |s.net|
    ensures var before := Retried(s, endpoint, body, k - 1);
      && Exchange(before.net).0 == s.net[k - 1]
      && before.(net := before.net[1..], trace := before.trace + [Sent(endpoint, body), Waited(RateLimitWait)])
         == Retried(s, endpoint, body, k)
  {
    var before := Retried(s, endpoint, body, k - 1);
    assert before.net[0] == s.net[k - 1];
    assert before.net[1..] == s.net[k..];
    RetryTraceSnoc(endpoint, body, k - 1);
  }

  /** Once the counter has allowed its three retries, the next 429 is a
      failure: a call answered only with 429s makes `4 - retryCount` attempts
      and `3 - retryCount` waits. */
  lemma RateLimitExhausted(s: ClientState, endpoint: Endpoint, body: Body, retryCount: nat)
    requires retryCount <= MaxRateLimitRetries && MaxRateLimitRetries - retryCount < |s.net|
    requires forall i :: 0 <= i <= MaxRateLimitRetries - retryCount ==> s.net[i] == Status(TooManyRequests)
    ensures var k := MaxRateLimitRetries - retryCount;
      Request(s, endpoint, body, retryCount)
      == (Failure, s.(net := s.net[k + 1..], trace := s.trace + RetryTrace(endpoint, body, k) + [Sent(endpoint, body)]))
  {
    var k := MaxRateLimitRetries - retryCount;
    RateLimitRun(s, endpoint, body, retryCount, k);
    var s' := Retried(s, endpoint, body, k);
    assert s'.net[0] == Status(TooManyRequests);
    assert s'.net[1..] == s.net[k + 1..];
  }

  /** An attempt that is neither retried nor answered by a re-login ends the
      request. */
  lemma FinalAttempt(s: ClientState, endpoint: Endpoint, body: Body, retryCount: nat)
    requires Exchange(s.net).0 != Status(TooManyRequests) || retryCount >= MaxRateLimitRetries
    requires Exchange(s.net).0 != Status(Unauthorized) || retryCount >= MaxRelogins
    ensures Request(s, endpoint, body, retryCount).1
         == s.(net := Exchange(s.net).1, trace := s.trace + [Sent(endpoint, body)])
  {
  }

  /** `s'` is what a run of `n` rate-limited attempts and a last attempt
      leaves, `n` within what the counter allows. */
  ghost predicate RateLimitedRun(s: ClientState, s': ClientState, endpoint: Endpoint, body: Body, retryCount: nat, n: nat)
  {
    && (n == 0 || retryCount + n <= MaxRateLimitRetries)
    && s'.trace == s.trace + RetryTrace(endpoint, body, n) + [Sent(endpoint, body)]
  }

  /** Without a 401, a request is a run of at most `3 - retryCount`
      rate-limited attempts, each followed by a wait, and one final attempt;
      it changes no header. */
  lemma RateLimitOnly(s: ClientState, endpoint: Endpoint, body: Body, retryCount: nat)
    requires NoUnauthorized(s.net)
    ensures var r := Request(s, endpoint, body, retryCount);
      && r.1.headers == s.headers && r.1.defaults == s.defaults
      && exists n: nat :: RateLimitedRun(s, r.1, endpoint, body, retryCount, n)
  {
    var n := LeadingRateLimits(s.net, RetryBudget(retryCount, MaxRateLimitRetries));
    var last := Retried(s, endpoint, body, n);
    if n == 0 {
      assert last == s;
    } else {
      RateLimitRun(s, endpoint, body, retryCount, n);
    }
    LastAttempt(s, endpoint, body, retryCount);
    FinalAttempt(last, endpoint, body, retryCount + n);
    assert RateLimitedRun(s, Request(s, endpoint, body, retryCount).1, endpoint, body, retryCount, n);
  }

  /** Without a 401, the attempt after the leading 429s the counter allows
      is retried neither for a 429 nor for a 401. */
  lemma LastAttempt(s: ClientState, endpoint: Endpoint, body: Body, retryCount: nat)
    requires NoUnauthorized(s.net)
    ensures var n := LeadingRateLimits(s.net, RetryBudget(retryCount, MaxRateLimitRetries));
      var last := Retried(s, endpoint, body, n);
      && Exchange(last.net).0 != Status(Unauthorized)
      && (Exchange(last.net).0 != Status(TooManyRequests) || retryCount + n >= MaxRateLimitRetries)
  {
    var n := LeadingRateLimits(s.net, RetryBudget(retryCount, MaxRateLimitRetries));
    var last := Retried(s, endpoint, body, n);
    if n < |s.net| {
      assert last.net[0] == s.net[n];
    }
  }

  /** After any retry, a 401 is a failure: no re-login is attempted. */
  lemma UnauthorizedAfterRetryFails(s: ClientState, endpoint: Endpoint, body: Body, retryCount: nat)
    requires Exchange(s.net).0 == Status(Unauthorized) && retryCount >= MaxRelogins
    ensures Request(s, endpoint, body, retryCount)
         == (Failure, s.(net := s.net[1..], trace := s.trace + [Sent(endpoint, body)]))
  {
  }

  /** The counter is shared: a 401 that follows a 429 retry fails without a
      re-login. */
  lemma RateLimitThenUnauthorizedFails(s: ClientState, endpoint: Endpoint, body: Body)
    requires |s.net| >= 2 && s.net[0] == Status(TooManyRequests) && s.net[1] == Status(Unauthorized)
    ensures Request(s, endpoint, body, 0)
         == (Failure, s.(net := s.net[2..], trace := s.trace + [Sent(endpoint, body), Waited(RateLimitWait), Sent(endpoint, body)]))
  {
    var waited := s.(net := s.net[1..], trace := s.trace + [Sent(endpoint, body), Waited(RateLimitWait)]);
    RateLimitStep(s, endpoint, body, 0, waited, 1);
    UnauthorizedAfterRetryFails(waited, endpoint, body, 1);
    assert waited.net[1..] == s.net[2..];
    assert waited.trace + [Sent(endpoint, body)] == s.trace + [Sent(endpoint, body), Waited(RateLimitWait), Sent(endpoint, body)];
  }

  /** A 401 answered by a failed re-login fails the request, which is not
      attempted again. */
  lemma FailedReloginNotRetried(s: ClientState, endpoint: Endpoint, body: Body, retryCount: nat)
    requires Exchange(s.net).0 == Status(Unauthorized) && retryCount < MaxRelogins
    requires !Login(s.(net := Exchange(s.net).1, trace := s.trace + [Sent(endpoint, body)]), s.currentInitData).0
    ensures var r := Request(s, endpoint, body, retryCount);
      && r == (Failure, Login(s.(net := Exchange(s.net).1, trace := s.trace + [Sent(endpoint, body)]), s.currentInitData).1)
      && s.trace + [Sent(endpoint, body)] <= r.1.trace
      && (endpoint != AuthLogin ==> NoneSentFrom(r.1.trace, |s.trace| + 1, endpoint))
  {
    var attempted := s.(net := Exchange(s.net).1, trace := s.trace + [Sent(endpoint, body)]);
    LoginConfined(attempted, s.currentInitData);
  }

  /** A 401 on a first attempt whose re-login succeeds sends the request
      once more with the counter at 1, where a second 401 is final. */
  lemma ReloginRetriesOnce(s: ClientState, endpoint: Endpoint, body: Body, p: Payload, rest: seq<Outcome>)
    requires s.net == [Status(Unauthorized), Ok(p), Status(Unauthorized)] + rest
    ensures var r := Request(s, endpoint, body, 0);
      && r.0 == Failure && r.1.net == rest
      && r.1.trace == s.trace + [Sent(endpoint, body), Sent(AuthLogin, Credentials(s.currentInitData)), Sent(endpoint, body)]
      && AuthorizationHeader in r.1.headers && r.1.headers[AuthorizationHeader] == "Bearer " + TokenText(Object(p))
  {
    assert s.net[1..] == [Ok(p), Status(Unauthorized)] + rest;
    assert Exchange(s.net) == (Status(Unauthorized), [Ok(p), Status(Unauthorized)] + rest);
    var attempted := s.(net := [Ok(p), Status(Unauthorized)] + rest, trace := s.trace + [Sent(endpoint, body)]);
    assert ([Ok(p), Status(Unauthorized)] + rest)[1..] == [Status(Unauthorized)] + rest;
    assert Exchange(attempted.net) == (Ok(p), [Status(Unauthorized)] + rest);
    assert Request(attempted, AuthLogin, Credentials(s.currentInitData), 0)
        == (Success(Object(p)), attempted.(net := [Status(Unauthorized)] + rest, trace := attempted.trace + [Sent(AuthLogin, Credentials(s.currentInitData))]));
    var (loggedIn, s') := Login(attempted, attempted.currentInitData);
    assert loggedIn && s'.net == [Status(Unauthorized)] + rest;
    assert s'.trace == attempted.trace + [Sent(AuthLogin, Credentials(s.currentInitData))];
    assert Request(s, endpoint, body, 0) == Request(s', endpoint, body, 1);
    assert Exchange(s'.net) == (Status(Unauthorized), rest);
  }

  /** A login that gets a 2xx reply stores the bearer token (the text
      "undefined" when the reply has none) in both header sets and the init
      data in the defaults, after exactly one attempt. */
  lemma LoginInstallsToken(s: ClientState, initData: Option<string>)
    requires Exchange(s.net).0.Ok? || Exchange(s.net).0 == Empty || Exchange(s.net).0 == Malformed
    ensures var r := Login(s, initData);
      var token := if Exchange(s.net).0.Ok? && Exchange(s.net).0.payload.accessToken.Some?
                   then Exchange(s.net).0.payload.accessToken.value else "undefined";
      && r.0
      && r.1.headers == s.headers[AuthorizationHeader := "Bearer " + token]
      && r.1.defaults[AuthorizationHeader] == "Bearer " + token
      && (initData.Some? ==> r.1.defaults[InitDataHeader] == initData.value)
      && r.1.currentInitData == initData
      && r.1.trace == s.trace + [Sent(AuthLogin, Credentials(initData))]
  {
  }

  /** A login that fails without ever meeting a 401 leaves both header sets
      as they were. */
  lemma LoginFailureKeepsHeaders(s: ClientState, initData: Option<string>)
    requires NoUnauthorized(s.net)
    ensures var r := Login(s, initData);
      !r.0 ==> r.1.headers == s.headers && r.1.defaults == s.defaults
  {
    RateLimitOnly(s.(currentInitData := initData), AuthLogin, Credentials(initData), 0);
  }

  /** But a failed login can change the headers: when its first attempt gets
      a 401, the nested re-login succeeds and installs its token, and the
      retried attempt then fails. */
  lemma NestedReloginChangesHeaders(s: ClientState, initData: Option<string>, p: Payload)
    requires |s.net| >= 3 && s.net[0] == Status(Unauthorized) && s.net[1] == Ok(p) && s.net[2] == OtherError
    requires p.accessToken.Some?
    ensures var r := Login(s, initData);
      && !r.0
      && r.1.headers == s.headers[AuthorizationHeader := "Bearer " + p.accessToken.value]
  {
    var s0 := s.(currentInitData := initData);
    var attempted := s0.(net := s.net[1..], trace := s.trace + [Sent(AuthLogin, Credentials(initData))]);
    LoginInstallsToken(attempted, initData);
    var (inner, s1) := Login(attempted, initData);
    assert s1.net == s.net[2..];
    assert Request(s0, AuthLogin, Credentials(initData), 0) == Request(s1, AuthLogin, Credentials(initData), 1);
  }

  /** A login has no bound on its attempts: when every answer is a 401, each
      one re-enters the login, until the network stops answering. */
  lemma {:induction false} LoginKeepsReentering(s: ClientState, initData: Option<string>, n: nat)
    requires s.net == Repeat(Status(Unauthorized), n)
    ensures Login(s, initData)
         == (false, s.(currentInitData := initData, net := [],
                       trace := s.trace + Repeat(Sent(AuthLogin, Credentials(initData)), n + 1)))
    decreases n
  {
    var attempt := Sent(AuthLogin, Credentials(initData));
    if n == 0 {
      assert Repeat(attempt, 1) == [attempt];
    } else {
      var attempted := s.(currentInitData := initData, net := s.net[1..], trace := s.trace + [attempt]);
      assert attempted.net == Repeat(Status(Unauthorized), n - 1);
      LoginKeepsReentering(attempted, initData, n - 1);
      assert s.trace + [attempt] + Repeat(attempt, n) == s.trace + Repeat(attempt, n + 1);
    }
  }

  /** `me` and `start` change only their own field, and only on success:
      a failed call leaves the user info and the game as they were. */
  lemma MeAndStartStore(s: ClientState)
    ensures var (ok, s') := Me(s);
      s'.game == s.game && s'.dice == s.dice && (!ok ==> s'.userInfo == s.userInfo)
    ensures var (ok, s') := Start(s);
      s'.userInfo == s.userInfo && s'.dice == s.dice && (!ok ==> s'.game == s.game)
  {
    RequestConfined(s, UsersMe, NoBody, 0);
    RequestConfined(s, GamesStart, EmptyObject, 0);
  }

  /** Every attempt `win` makes, retries included, echoes the rewards and
      the id of the stored game and the chosen score and game time. */
  lemma WinEchoesGame(s: ClientState, score: int, gameTime: int)
    requires s.game.Object? && s.game.fields.rewards.Some?
    ensures var rw := s.game.fields.rewards.value;
      var body := Settlement(rw.bagCoins, rw.bits, rw.gifts, s.game.fields.id, score, gameTime);
      var r := Win(s, score, gameTime);
      && r.0.Returned?
      && s.trace + [Sent(GamesWin, body)] <= r.1.trace
      && forall i :: |s.trace| <= i < |r.1.trace| && r.1.trace[i].Sent? && r.1.trace[i].endpoint == GamesWin
                     ==> r.1.trace[i].body == body
  {
    var rw := s.game.fields.rewards.value;
    var body := Settlement(rw.bagCoins, rw.bits, rw.gifts, s.game.fields.id, score, gameTime);
    RequestConfined(s, GamesWin, body, 0);
  }

  /** Reading the rewards of a stored game that has none throws, before
      anything is sent. */
  lemma WinThrowsWithoutRewards(s: ClientState, score: int, gameTime: int)
    ensures Win(s, score, gameTime).0 == Threw <==> !(s.game.Object? && s.game.fields.rewards.Some?)
    ensures Win(s, score, gameTime).0 == Threw ==> Win(s, score, gameTime).1 == s
  {
  }

  /** What `playGame` may do: no user-info request, and no wait but the
      rate-limit wait and the game time, which is in [90, 112]. */
  ghost predicate PlayEvent(e: Event)
  {
    && (e.Sent? ==> e.endpoint != UsersMe)
    && (e.Waited? ==> e.seconds == RateLimitWait || MinGameTime <= e.seconds <= MaxGameTime)
  }

  ghost predicate PlayFrom(trace: seq<Event>, from: nat)
  {
    forall i :: from <= i < |trace| ==> PlayEvent(trace[i])
  }

  lemma PlayCompose(a: seq<Event>, b: seq<Event>, from: nat)
    requires from <= |a| && a <= b && PlayFrom(a, from) && PlayFrom(b, |a|)
    ensures PlayFrom(b, from)
  {
    forall i | from <= i < |b| ensures PlayEvent(b[i]) {
      if i < |a| {
        PrefixAt(a, b, i);
      }
    }
  }

  lemma TrafficIsPlay(trace: seq<Event>, from: nat, endpoint: Endpoint, body: Body, initData: Option<string>)
    requires AllFrom(trace, from, RequestTraffic(endpoint, body, initData)) && endpoint != UsersMe
    ensures PlayFrom(trace, from)
  {
    forall i | from <= i < |trace| ensures PlayEvent(trace[i]) {
      assert trace[i] in RequestTraffic(endpoint, body, initData);
    }
  }

  /** `playGame` sends no user-info request and waits only for rate limits
      and for the game time; when it returns, its last act was a request. */
  lemma PlayGameTrace(s: ClientState)
    ensures var r := PlayGame(s);
      && s.trace <= r.1.trace && PlayFrom(r.1.trace, |s.trace|)
      && (r.0.Returned? ==> |r.1.trace| > 0 && r.1.trace[|r.1.trace| - 1].Sent?)
  {
    var (gameTime, score, dice') := Draws(s.dice);
    var s0 := s.(dice := dice');
    RequestConfined(s0, GamesStart, EmptyObject, 0);
    var (started, s1) := Start(s0);
    TrafficIsPlay(s1.trace, |s.trace|, GamesStart, EmptyObject, s.currentInitData);
    if started {
      var w := s1.(trace := s1.trace + [Waited(gameTime)]);
      PlayCompose(s1.trace, w.trace, |s.trace|);
      match SettlementFor(w.game, score, gameTime)
      case None =>
      case Some(body) =>
        RequestConfined(w, GamesWin, body, 0);
        var s2 := Win(w, score, gameTime).1;
        TrafficIsPlay(s2.trace, |w.trace|, GamesWin, body, s.currentInitData);
        PlayCompose(w.trace, s2.trace, |s.trace|);
    }
  }

  /** A `playGame` result scores 0 when it fails, and the drawn score, in
      [600, 900], when it succeeds; that score and the drawn game time are
      what its `win` request posted. */
  lemma PlayGameScore(s: ClientState)
    ensures var r := PlayGame(s);
      r.0.Returned? ==> if r.0.value.success then MinScore <= r.0.value.score <= MaxScore else r.0.value.score == 0
    ensures var r := PlayGame(s);
      var (gameTime, score, dice') := Draws(s.dice);
      var game := Start(s.(dice := dice')).1.game;
      r.0.Returned? && r.0.value.success ==>
        && r.0.value.score == score
        && SettlementFor(game, score, gameTime).Some?
        && s.trace <= r.1.trace
        && var posted := SettlementFor(game, score, gameTime).value;
           && posted.score == score && posted.gameTime == gameTime
           && Sent(GamesWin, posted) in r.1.trace[|s.trace|..]
  {
    var (gameTime, score, dice') := Draws(s.dice);
    var s0 := s.(dice := dice');
    RequestConfined(s0, GamesStart, EmptyObject, 0);
    var (started, s1) := Start(s0);
    if started {
      var w := s1.(trace := s1.trace + [Waited(gameTime)]);
      match SettlementFor(w.game, score, gameTime)
      case None =>
      case Some(posted) =>
        RequestConfined(w, GamesWin, posted, 0);
        var r := PlayGame(s);
        PrefixAt(w.trace + [Sent(GamesWin, posted)], r.1.trace, |w.trace|);
        assert r.1.trace[|s.trace|..][|w.trace| - |s.trace|] == Sent(GamesWin, posted);
    }
  }

  /** When `start` fails, `playGame` fails with score 0 and never sends a
      `win`. */
  lemma StartFailureSkipsWin(s: ClientState)
    requires !Start(s.(dice := Draws(s.dice).2)).0
    ensures var r := PlayGame(s);
      r.0 == Returned(GameResult(0, false)) && NoneSentFrom(r.1.trace, |s.trace|, GamesWin)
  {
    RequestConfined(s.(dice := Draws(s.dice).2), GamesStart, EmptyObject, 0);
  }

  lemma NoneSentCompose(a: seq<Event>, b: seq<Event>, from: nat, endpoint: Endpoint)
    requires from <= |a| && a <= b && NoneSentFrom(a, from, endpoint) && NoneSentFrom(b, |a|, endpoint)
    ensures NoneSentFrom(b, from, endpoint)
  {
    forall i | from <= i < |b| ensures !(b[i].Sent? && b[i].endpoint == endpoint) {
      if i < |a| {
        PrefixAt(a, b, i);
      }
    }
  }

  /** The trace of a settled batch ends on a request or on the pause after a
      re-login. */
  ghost predicate EndsSettled(trace: seq<Event>)
  {
    |trace| > 0 && (trace[|trace| - 1].Sent? || trace[|trace| - 1] == Waited(ReloginPause))
  }

  /** Playing and settling a batch sends no user-info request. */
  lemma PlayAndSettleTrace(s: ClientState, initData: string, batch: int, tally: Tally, results: seq<GameResult>)
    ensures var (played, s1) := PlayGame(s);
      var settled := Settle(played, s1, initData, batch, tally, results);
      && s.trace <= settled.state.trace
      && NoneSentFrom(settled.state.trace, |s.trace|, UsersMe)
      && EndsSettled(settled.state.trace)
  {
    PlayGameTrace(s);
    var (played, s1) := PlayGame(s);
    var settled := Settle(played, s1, initData, batch, tally, results);
    match played
    case Returned(g) =>
    case Threw =>
      LoginConfined(s1, Some(initData));
      var s2 := Login(s1, Some(initData)).1;
      assert NoneSentFrom(s2.trace, |s1.trace|, UsersMe) by {
        forall i | |s1.trace| <= i < |s2.trace| ensures !(s2.trace[i].Sent? && s2.trace[i].endpoint == UsersMe) {
          assert s2.trace[i] in RequestTraffic(AuthLogin, Credentials(Some(initData)), Some(initData));
        }
      }
      NoneSentCompose(s1.trace, s2.trace, |s.trace|, UsersMe);
      NoneSentCompose(s2.trace, settled.state.trace, |s.trace|, UsersMe);
  }

  /** A batch re-fetches the user info exactly when the index the loop body
      ends with, after a possible `batch--`, is 4 modulo 5 (as JavaScript's
      remainder computes it, so never for -1). */
  lemma StepRefetch(s: ClientState, initData: string, batch: int, totalBatches: int, tally: Tally, results: seq<GameResult>)
    ensures var st := Step(s, initData, batch, totalBatches, tally, results);
      SomeSentFrom(st.state.trace, |s.trace|, UsersMe) <==> JsRem(st.next - 1, RefetchPeriod) == RefetchRemainder
  {
    PlayAndSettleTrace(s, initData, batch, tally, results);
    var (played, s1) := PlayGame(s);
    var settled := Settle(played, s1, initData, batch, tally, results);
    var s3 := Refetch(settled.state, settled.next);
    var st := Step(s, initData, batch, totalBatches, tally, results);
    if JsRem(settled.next, RefetchPeriod) == RefetchRemainder {
      RequestConfined(settled.state, UsersMe, NoBody, 0);
      PrefixAt(settled.state.trace + [Sent(UsersMe, NoBody)], st.state.trace, |settled.state.trace|);
    } else {
      NoneSentCompose(settled.state.trace, st.state.trace, |s.trace|, UsersMe);
    }
  }

  /** A batch ends with the 3-second pause exactly when its index is not the
      last one. */
  lemma StepPause(s: ClientState, initData: string, batch: int, totalBatches: int, tally: Tally, results: seq<GameResult>)
    ensures var st := Step(s, initData, batch, totalBatches, tally, results);
      && |st.state.trace| > 0
      && (st.state.trace[|st.state.trace| - 1] == Waited(RoundGap) <==> st.next - 1 < totalBatches - 1)
  {
    PlayAndSettleTrace(s, initData, batch, tally, results);
    var (played, s1) := PlayGame(s);
    var settled := Settle(played, s1, initData, batch, tally, results);
    RefetchEndsSettled(settled.state, settled.next);
  }

  /** The re-fetch keeps a settled trace settled. */
  lemma RefetchEndsSettled(s: ClientState, batch: int)
    requires EndsSettled(s.trace)
    ensures EndsSettled(Refetch(s, batch).trace)
  {
    if JsRem(batch, RefetchPeriod) == RefetchRemainder {
      RequestConfined(s, UsersMe, NoBody, 0);
    }
  }

  /** A batch whose game threw is run again under the same index exactly
      when the re-login succeeds; it is counted in neither case, and a batch
      that returned is counted once. */
  lemma StepRerun(s: ClientState, initData: string, batch: int, totalBatches: int, tally: Tally, results: seq<GameResult>)
    ensures var (played, s1) := PlayGame(s);
      var st := Step(s, initData, batch, totalBatches, tally, results);
      && (st.next == batch <==> played.Threw? && Login(s1, Some(initData)).0)
      && (st.next != batch ==> st.next == batch + 1)
      && (played.Threw? ==> st.tally == tally && st.results == results)
      && (played.Returned? ==> st.tally == Count(tally, played.value) && st.results == results + [played.value])
  {
  }

  /** A `start` answered with an empty 2xx body stores a game that is not an
      object, so `win` throws; when the re-login that follows succeeds, the
      pass at index 0 ends at index 0 again, having counted nothing. */
  lemma EmptyStartReruns(s: ClientState, initData: string, totalBatches: int, tally: Tally, results: seq<GameResult>)
    requires totalBatches >= 1 && |s.net| >= 2 && s.net[0] == Empty && s.net[1].Ok?
    ensures var st := Step(s, initData, 0, totalBatches, tally, results);
      && st.next == 0 && st.tally == tally && st.results == results
      && st.state.net == s.net[2..]
      && st.state.trace == s.trace + [Sent(GamesStart, EmptyObject), Waited(Draws(s.dice).0),
                                      Sent(AuthLogin, Credentials(Some(initData))), Waited(ReloginPause), Waited(RoundGap)]
  {
    var (gameTime, score, dice') := Draws(s.dice);
    var s0 := s.(dice := dice');
    assert Exchange(s0.net) == (Empty, s.net[1..]);
    var (started, s1) := Start(s0);
    assert started && s1.game == NotObject && s1.net == s.net[1..];
    assert s1.trace == s.trace + [Sent(GamesStart, EmptyObject)];
    var w := s1.(trace := s1.trace + [Waited(gameTime)]);
    assert PlayGame(s) == (Threw, w);
    assert s.net[1..][1..] == s.net[2..];
    assert Exchange(w.net) == (s.net[1], s.net[2..]);
    var w' := w.(currentInitData := Some(initData));
    assert Request(w', AuthLogin, Credentials(Some(initData)), 0)
        == (Success(Object(s.net[1].payload)), w'.(net := s.net[2..], trace := w.trace + [Sent(AuthLogin, Credentials(Some(initData)))]));
    var (refreshed, s') := Login(w, Some(initData));
    assert refreshed && s'.net == s.net[2..];
    assert s'.trace == w.trace + [Sent(AuthLogin, Credentials(Some(initData)))];
    assert Settle(Threw, w, initData, 0, tally, results).next == -1;
    assert JsRem(-1, RefetchPeriod) == -1;
  }

  /** The batch loop below its last index is one step and the loop from the
      index that step continues with. */
  lemma RoundsAtStep(s: ClientState, initData: string, batch: int, totalBatches: int, tally: Tally, results: seq<GameResult>)
    requires batch < totalBatches
    ensures var st := Step(s, initData, batch, totalBatches, tally, results);
      Rounds(s, initData, batch, totalBatches, tally, results) == Rounds(st.state, initData, st.next, totalBatches, st.tally, st.results)
  {
  }

  /** The first `n` pairs of outcomes are an empty reply to a start and a
      login reply that succeeds. */
  ghost predicate EmptyStartPairs(net: seq<Outcome>, n: nat)
  {
    && 2 * n <= |net|
    && forall i :: 0 <= i < n ==> net[2 * i] == Empty && net[2 * i + 1].Ok?
  }

  lemma EmptyStartPairsTail(net: seq<Outcome>, n: nat)
    requires n > 0 && EmptyStartPairs(net, n)
    ensures net[0] == Empty && net[1].Ok? && EmptyStartPairs(net[2..], n - 1)
    ensures net[2..][2 * (n - 1)..] == net[2 * n..]
  {
    var first := 0;
    assert net[2 * first] == Empty && net[2 * first + 1].Ok?;
    forall i | 0 <= i < n - 1
      ensures net[2..][2 * i] == Empty && net[2..][2 * i + 1].Ok?
    {
      var j := i + 1;
      assert net[2..][2 * i] == net[2 * j] && net[2..][2 * i + 1] == net[2 * j + 1];
    }
  }

  /** So the batch loop does not end while starts keep answering with empty
      bodies and re-logins keep succeeding: it stays at index 0, counts
      nothing, and makes five more events per pass. */
  lemma {:induction false} EmptyStartsKeepRerunning(s: ClientState, initData: string, totalBatches: int, tally: Tally, results: seq<GameResult>, n: nat)
    requires totalBatches >= 1 && EmptyStartPairs(s.net, n)
    decreases n
    ensures exists s': ClientState ::
      && s'.net == s.net[2 * n..] && |s'.trace| == |s.trace| + 5 * n
      && Rounds(s, initData, 0, totalBatches, tally, results) == Rounds(s', initData, 0, totalBatches, tally, results)
  {
    if n == 0 {
      assert s.net[0..] == s.net;
      assert s.net[2 * n..] == s.net;
    } else {
      EmptyStartPairsTail(s.net, n);
      EmptyStartReruns(s, initData, totalBatches, tally, results);
      var st := Step(s, initData, 0, totalBatches, tally, results);
      RoundsAtStep(s, initData, 0, totalBatches, tally, results);
      EmptyStartsKeepRerunning(st.state, initData, totalBatches, tally, results, n - 1);
      var s': ClientState :| && s'.net == st.state.net[2 * (n - 1)..] && |s'.trace| == |st.state.trace| + 5 * (n - 1)
                && Rounds(st.state, initData, 0, totalBatches, tally, results) == Rounds(s', initData, 0, totalBatches, tally, results);
      assert s'.net == s.net[2 * n..] && |s'.trace| == |s.trace| + 5 * n
          && Rounds(s, initData, 0, totalBatches, tally, results) == Rounds(s', initData, 0, totalBatches, tally, results);
    }
  }

  /** The sum of the scores. */
  function Scores(results: seq<GameResult>): int
  {
    if results == [] then 0 else Scores(results[..|results| - 1]) + results[|results| - 1].score
  }

  /** The number of successes. */
  function Successes(results: seq<GameResult>): (r: nat)
    ensures r <= |results|
  {
    if results == [] then 0
    else Successes(results[..|results| - 1]) + (if results[|results| - 1].success then 1 else 0)
  }

  /** The tallies account for exactly the results processed so far. */
  ghost predicate Tallied(t: Tally, results: seq<GameResult>)
  {
    && t.totalScore == Scores(results)
    && t.successCount == Successes(results)
    && t.successCount + t.failureCount == |results|
  }

  /** Every result is what `playGame` can return. */
  ghost predicate Plausible(results: seq<GameResult>)
  {
    forall i :: 0 <= i < |results| ==>
      if results[i].success then MinScore <= results[i].score <= MaxScore else results[i].score == 0
  }

  lemma CountTallies(t: Tally, results: seq<GameResult>, g: GameResult)
    requires Tallied(t, results)
    ensures Tallied(Count(t, g), results + [g])
  {
    assert (results + [g])[..|results|] == results;
  }

  /** The batch loop keeps the tallies equal to the sum of the scores and
      the number of successes and failures of the results it has processed,
      each of them a possible `playGame` result. */
  lemma {:induction false} RoundsTally(s: ClientState, initData: string, batch: int, totalBatches: int, tally: Tally, results: seq<GameResult>)
    requires Tallied(tally, results) && Plausible(results)
    decreases |s.net|, totalBatches - batch
    ensures var r := Rounds(s, initData, batch, totalBatches, tally, results);
      Tallied(r.1, r.2) && Plausible(r.2) && results <= r.2
  {
    if batch < totalBatches {
      var st := Step(s, initData, batch, totalBatches, tally, results);
      StepRerun(s, initData, batch, totalBatches, tally, results);
      var (played, s1) := PlayGame(s);
      if played.Returned? {
        PlayGameScore(s);
        CountTallies(tally, results, played.value);
      }
      RoundsTally(st.state, initData, st.next, totalBatches, st.tally, st.results);
    }
  }

  /** Every success scored between 600 and 900 and every failure 0. */
  lemma {:induction false} TallyBounds(t: Tally, results: seq<GameResult>)
    requires Tallied(t, results) && Plausible(results)
    ensures MinScore * t.successCount <= t.totalScore <= MaxScore * t.successCount
    decreases |results|
  {
    if results != [] {
      var init := results[..|results| - 1];
      var last := results[|results| - 1];
      var t' := Tally(Scores(init), Successes(init), |init| - Successes(init));
      assert Plausible(init) by {
        forall i | 0 <= i < |init| ensures (if init[i].success then MinScore <= init[i].score <= MaxScore else init[i].score == 0) {
          assert init[i] == results[i];
        }
      }
      TallyBounds(t', init);
    }
  }

  /** An account that played ends with tallies whose total lies between 600
      and 900 times the number of successes. */
  lemma ProcessUserTally(s: ClientState, initData: string, numberOfGames: int)
    ensures var r := ProcessUser(s, initData, numberOfGames);
      r.0.Played? ==> MinScore * r.0.tally.successCount <= r.0.tally.totalScore <= MaxScore * r.0.tally.successCount
  {
    var (loggedIn, s1) := Login(s, Some(initData));
    if loggedIn {
      var (informed, s2) := Me(s1);
      if informed {
        RoundsTally(s2, initData, 0, TotalBatches(numberOfGames), Tally(0, 0, 0), []);
        var r := Rounds(s2, initData, 0, TotalBatches(numberOfGames), Tally(0, 0, 0), []);
        TallyBounds(r.1, r.2);
      }
    }
  }

  /** An account whose login fails stops there: no user-info request, no
      game, and no closing pause; every other account ends with the closing
      pause. */
  lemma LoginFailureStops(s: ClientState, initData: string, numberOfGames: int)
    ensures var r := ProcessUser(s, initData, numberOfGames);
      && (r.0 == LoginFailed <==> !Login(s, Some(initData)).0)
      && (r.0 == LoginFailed ==>
            && NoneSentFrom(r.1.trace, |s.trace|, UsersMe) && NoneSentFrom(r.1.trace, |s.trace|, GamesStart)
            && NoneSentFrom(r.1.trace, |s.trace|, GamesWin)
            && |r.1.trace| > 0 && r.1.trace[|r.1.trace| - 1].Sent?)
      && (r.0 != LoginFailed ==> |r.1.trace| > 0 && r.1.trace[|r.1.trace| - 1] == Waited(FinalPause))
  {
    LoginConfined(s, Some(initData));
    var (loggedIn, s1) := Login(s, Some(initData));
    assert forall i :: |s.trace| <= i < |s1.trace| ==> s1.trace[i] in RequestTraffic(AuthLogin, Credentials(Some(initData)), Some(initData));
  }

  /** An account whose info fetch fails starts no game. */
  lemma InfoFailureStops(s: ClientState, initData: string, numberOfGames: int)
    ensures var r := ProcessUser(s, initData, numberOfGames);
      r.0 == InfoFailed ==> NoneSentFrom(r.1.trace, |s.trace|, GamesStart) && NoneSentFrom(r.1.trace, |s.trace|, GamesWin)
  {
    LoginConfined(s, Some(initData));
    var (loggedIn, s1) := Login(s, Some(initData));
    if loggedIn {
      RequestConfined(s1, UsersMe, NoBody, 0);
      var (informed, s2) := Me(s1);
      if !informed {
        var r := ProcessUser(s, initData, numberOfGames);
        assert forall i :: |s.trace| <= i < |s1.trace| ==> s1.trace[i] in RequestTraffic(AuthLogin, Credentials(Some(initData)), Some(initData));
        assert forall i :: |s1.trace| <= i < |s2.trace| ==> s2.trace[i] in RequestTraffic(UsersMe, NoBody, Some(initData));
        NoneSentCompose(s1.trace, s2.trace, |s.trace|, GamesStart);
        NoneSentCompose(s1.trace, s2.trace, |s.trace|, GamesWin);
        NoneSentCompose(s2.trace, r.1.trace, |s.trace|, GamesStart);
        NoneSentCompose(s2.trace, r.1.trace, |s.trace|, GamesWin);
      }
    }
  }
}
