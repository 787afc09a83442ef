/** The retry policy, the session side effects and the per-account round loop
    of the JavaScript client (index.js), as functions over an explicit client
    state. The class in IndexJsClient runs the same steps imperatively and is
    proved equal to these functions. */
module IndexJs {
  import opened Api

  /** `response.data` of a successful request: a JSON object, or a value with
      no properties (the text of an empty or unparsable body). */
  datatype Data = NotObject | Object(fields: Payload)

  /** The `{ success, ... }` object that `request` resolves to. */
  datatype Reply = Success(data: Data) | Failure

  /** A call that resolves to a value, or throws. */
  datatype Flow<T> = Returned(value: T) | Threw

  /** What `playGame` resolves to. */
  datatype GameResult = GameResult(score: int, success: bool)

  /** The local tallies of `processUser`. */
  datatype Tally = Tally(totalScore: int, successCount: nat, failureCount: nat)

  /** How `processUser` ends for one account. */
  datatype Account = LoginFailed | InfoFailed | Played(tally: Tally)

  /** The fields of a ByBit object, the oracles it consumes (network outcomes
      and random draws) and the trace of what it has done. */
  datatype ClientState = ClientState(
    headers: map<string, string>,   // this.headers
    defaults: map<string, string>,  // this.axiosInstance.defaults.headers
    currentInitData: Option<string>,
    game: Data,
    userInfo: Data,
    net: seq<Outcome>,
    dice: seq<nat>,
    trace: seq<Event>)

  /** A 429 is retried while the retry count is below this. */
  const MaxRateLimitRetries: nat := 3
  /** A 401 triggers a re-login while the retry count is below this. */
  const MaxRelogins: nat := 1
  const MinGameTime: int := 90
  const MaxGameTime: int := 112
  const MinScore: int := 600
  const MaxScore: int := 900
  /** `playGame` is started once per batch. */
  const BatchSize: int := 1
  /** User info is fetched again after every batch whose index leaves this
      remainder modulo `RefetchPeriod`. */
  const RefetchPeriod: int := 5
  const RefetchRemainder: int := 4
  /** Seconds waited after a re-login that follows a thrown batch. */
  const ReloginPause: nat := 4
  /** Seconds waited when an account is done. */
  const FinalPause: nat := 3

  /** JavaScript's `%`: the remainder takes the sign of the dividend. */
  function JsRem(a: int, n: int): (r: int)
    requires n > 0
    ensures a >= 0 ==> r == a % n
    ensures a < 0 ==> -n < r <= 0
    ensures (a - r) % n == 0
  {
    if a >= 0 then
      assert a - a % n == (a / n) * n;
      MultipleMod(a / n, n);
      a % n
    else
      assert a + (-a) % n == -((-a) / n) * n;
      MultipleMod(-((-a) / n), n);
      -((-a) % n)
  }

  lemma MultipleMod(q: int, n: int)
    requires n > 0
    ensures (q * n) % n == 0
  {
    var k, m := (q * n) / n, (q * n) % n;
    assert m == (q - k) * n;
    if q - k >= 1 {
      assert false;
    } else if q - k <= -1 {
      assert false;
    }
  }

  /** `Math.ceil(n / d)` for a positive divisor. */
  function CeilDiv(n: int, d: int): (r: int)
    requires d > 0
    ensures (r - 1) * d < n <= r * d
  {
    -((-n) / d)
  }

  /** The number of batches for `numberOfGames` games. */
  function TotalBatches(numberOfGames: int): int
  {
    CeilDiv(numberOfGames, BatchSize)
  }

  /** The value `${token}` gives for the access token of a login reply. */
  function TokenText(data: Data): string
  {
    match data
    case Object(p) => if p.accessToken.Some? then p.accessToken.value else "undefined"
    case NotObject => "undefined"
  }

  /** `m[k] = v`; axios sends no header whose value is undefined. */
  function Assign(m: map<string, string>, k: string, v: Option<string>): map<string, string>
  {
    if v.Some? then m[k := v.value] else m - {k}
  }

  /** `request(method, url, data, retryCount)`: one attempt; a 429 is retried
      after a wait while `retryCount < 3`; a 401 re-logs in with the current
      init data while `retryCount < 1`, and the request is retried only when
      that login succeeds. Every retry increments the one shared counter. */
  function Request(s: ClientState, endpoint: Endpoint, body: Body, retryCount: nat): (r: (Reply, ClientState))
    decreases |s.net|, 0
    ensures |r.1.net| <= |s.net|
    ensures r.0.Success? ==> |r.1.net| < |s.net|
  {
    var (outcome, rest) := Exchange(s.net);
    var attempted := s.(net := rest, trace := s.trace + [Sent(endpoint, body)]);
    match outcome
    case Ok(p) => (Success(Object(p)), attempted)
    case Empty => (Success(NotObject), attempted)
    case Malformed => (Success(NotObject), attempted)
    case OtherError => (Failure, attempted)
    case Status(code) =>
      if code == TooManyRequests && retryCount < MaxRateLimitRetries then
        Request(attempted.(trace := attempted.trace + [Waited(RateLimitWait)]), endpoint, body, retryCount + 1)
      else if code == Unauthorized && retryCount < MaxRelogins then
        var (loggedIn, s') := Login(attempted, attempted.currentInitData);
        if loggedIn then Request(s', endpoint, body, retryCount + 1) else (Failure, s')
      else
        (Failure, attempted)
  }

  /** `login(initData)`: records the init data, posts it, and on success
      installs the bearer token in both header sets and the init data in the
      axios defaults. */
  function Login(s: ClientState, initData: Option<string>): (r: (bool, ClientState))
    decreases |s.net|, 1
    ensures |r.1.net| <= |s.net|
    ensures r.0 ==> |r.1.net| < |s.net|
  {
    var (reply, s') := Request(s.(currentInitData := initData), AuthLogin, Credentials(initData), 0);
    match reply
    case Failure => (false, s')
    case Success(data) =>
      var bearer := "Bearer " + TokenText(data);
      (true, s'.(headers := s'.headers[AuthorizationHeader := bearer],
                 defaults := Assign(s'.defaults[AuthorizationHeader := bearer], InitDataHeader, initData)))
  }

  /** `me()`: fetches the user info and stores it on success. */
  function Me(s: ClientState): (r: (bool, ClientState))
    ensures |r.1.net| <= |s.net|
  {
    var (reply, s') := Request(s, UsersMe, NoBody, 0);
    match reply
    case Failure => (false, s')
    case Success(data) => (true, s'.(userInfo := data))
  }

  /** `start()`: starts a game and stores the response as the current game. */
  function Start(s: ClientState): (r: (bool, ClientState))
    ensures |r.1.net| <= |s.net|
  {
    var (reply, s') := Request(s, GamesStart, EmptyObject, 0);
    match reply
    case Failure => (false, s')
    case Success(data) => (true, s'.(game := data))
  }

  /** The body `win` posts: the rewards and id of the stored game, echoed,
      with the chosen score and game time. `None` when reading `game.rewards`
      throws a TypeError. */
  function SettlementFor(game: Data, score: int, gameTime: int): Option<Body>
  {
    match game
    case NotObject => None
    case Object(p) =>
      match p.rewards
      case None => None
      case Some(rw) => Some(Settlement(rw.bagCoins, rw.bits, rw.gifts, p.id, score, gameTime))
  }

  /** `win({ score, gameTime })`: settles the stored game and stores the reply. */
  function Win(s: ClientState, score: int, gameTime: int): (r: (Flow<bool>, ClientState))
    ensures |r.1.net| <= |s.net|
  {
    match SettlementFor(s.game, score, gameTime)
    case None => (Threw, s)
    case Some(settlement) =>
      var (reply, s') := Request(s, GamesWin, settlement, 0);
      match reply
      case Failure => (Returned(false), s')
      case Success(data) => (Returned(true), s'.(game := data))
  }

  /** The game time and the score `playGame` draws, and the draws left. */
  function Draws(dice: seq<nat>): (r: (int, int, seq<nat>))
    ensures MinGameTime <= r.0 <= MaxGameTime && MinScore <= r.1 <= MaxScore
  {
    var (gameTime, dice1) := Roll(dice, MinGameTime, MaxGameTime - MinGameTime + 1);
    var (score, dice2) := Roll(dice1, MinScore, MaxScore - MinScore + 1);
    (gameTime, score, dice2)
  }

  /** `playGame(gameNumber)`: draws a game time and a score, starts a game,
      waits the game time and settles it. */
  function PlayGame(s: ClientState): (r: (Flow<GameResult>, ClientState))
    ensures |r.1.net| <= |s.net|
  {
    var (gameTime, score, dice') := Draws(s.dice);
    var (started, s1) := Start(s.(dice := dice'));
    if !started then
      (Returned(GameResult(0, false)), s1)
    else
      var (won, s2) := Win(s1.(trace := s1.trace + [Waited(gameTime)]), score, gameTime);
      match won
      case Threw => (Threw, s2)
      case Returned(ok) => (Returned(if ok then GameResult(score, true) else GameResult(0, false)), s2)
  }

  /** The tallies after one more processed result. */
  function Count(t: Tally, g: GameResult): Tally
  {
    Tally(t.totalScore + g.score,
          if g.success then t.successCount + 1 else t.successCount,
          if g.success then t.failureCount else t.failureCount + 1)
  }

  /** The state after one pass of the batch loop of `processUser`, and the
      batch index the loop continues with. */
  datatype StepResult = StepResult(state: ClientState, next: int, tally: Tally, results: seq<GameResult>)

  /** The batch loop after `playGame` settled: tally the result or, on a
      throw, log in again and step the index back when that succeeds. */
  function Settle(played: Flow<GameResult>, s: ClientState, initData: string, batch: int, tally: Tally, results: seq<GameResult>): (r: StepResult)
    ensures (r.next == batch && |r.state.net| <= |s.net|) || (r.next == batch - 1 && |r.state.net| < |s.net|)
    ensures r.next == batch - 1 <==> played.Threw? && Login(s, Some(initData)).0
  {
    match played
    case Returned(g) => StepResult(s, batch, Count(tally, g), results + [g])
    case Threw =>
      var (refreshed, s') := Login(s, Some(initData));
      if refreshed then StepResult(s'.(trace := s'.trace + [Waited(ReloginPause)]), batch - 1, tally, results)
      else StepResult(s', batch, tally, results)
  }

  /** `if (batch % 5 === 4) await this.me()`. */
  function Refetch(s: ClientState, batch: int): (r: ClientState)
    ensures |r.net| <= |s.net|
  {
    if JsRem(batch, RefetchPeriod) == RefetchRemainder then Me(s).1 else s
  }

  /** `if (batch < totalBatches - 1) await this.wait(3)`. */
  function Pause(s: ClientState, batch: int, totalBatches: int): ClientState
  {
    if batch < totalBatches - 1 then s.(trace := s.trace + [Waited(RoundGap)]) else s
  }

  /** One pass of the batch loop: play, settle, re-fetch the user info on
      every fifth index, pause unless this was the last batch. */
  function Step(s: ClientState, initData: string, batch: int, totalBatches: int, tally: Tally, results: seq<GameResult>): (r: StepResult)
    ensures (r.next == batch + 1 && |r.state.net| <= |s.net|) || (r.next == batch && |r.state.net| < |s.net|)
  {
    var (played, s1) := PlayGame(s);
    var settled := Settle(played, s1, initData, batch, tally, results);
    var s3 := Refetch(settled.state, settled.next);
    StepResult(Pause(s3, settled.next, totalBatches), settled.next + 1, settled.tally, settled.results)
  }

  /** The batch loop of `processUser` from index `batch` on. */
  function Rounds(s: ClientState, initData: string, batch: int, totalBatches: int, tally: Tally, results: seq<GameResult>): (r: (ClientState, Tally, seq<GameResult>))
    decreases |s.net|, totalBatches - batch
  {
    if batch < totalBatches then
      var st := Step(s, initData, batch, totalBatches, tally, results);
      Rounds(st.state, initData, st.next, totalBatches, st.tally, st.results)
    else
      (s, tally, results)
  }

  /** `processUser(initData, batchNumber, numberOfGames)`: log in, fetch the
      user info, play the batches, pause. */
  function ProcessUser(s: ClientState, initData: string, numberOfGames: int): (r: (Account, ClientState))
  {
    var (loggedIn, s1) := Login(s, Some(initData));
    if !loggedIn then
      (LoginFailed, s1)
    else
      var (informed, s2) := Me(s1);
      if !informed then
        (InfoFailed, s2.(trace := s2.trace + [Waited(FinalPause)]))
      else
        var (s3, tally, _) := Rounds(s2, initData, 0, TotalBatches(numberOfGames), Tally(0, 0, 0), []);
        (Played(tally), s3.(trace := s3.trace + [Waited(FinalPause)]))
  }
}
