/** The retry policy, the session side effects and the per-account round loop
    of the C# client (Program.cs), as functions over an explicit client state.
    Exceptions that the client does not catch end the whole run; they are the
    `Crashed` result. The class in ProgramCsClient runs the same steps
    imperatively and is proved equal to these functions. */
module ProgramCs {
  import opened Api

  /** A call that completes with a value, or throws an exception that
      nothing catches (a NullReferenceException, a FormatException or a
      RuntimeBinderException), which ends the program. */
  datatype Run<T> = Value(value: T) | Crashed

  /** The tallies of `ProcessUserAsync`. */
  datatype Tally = Tally(totalScore: int, successCount: nat, failureCount: nat)

  /** How `ProcessUserAsync` ends for one account. */
  datatype Account =
    | LoginFailed
    | InfoFailed
    | StartFailed(tally: Tally)  // a round whose start failed ended the account
    | Completed(tally: Tally)

  /** The fields of a ByBit object, the oracles it consumes and the trace of
      what it has done. `headers` is `client.DefaultRequestHeaders`: each
      header name has a list of values. */
  datatype CsState = CsState(
    headers: map<string, seq<string>>,
    accessToken: Option<string>,
    initData: Option<string>,
    game: Option<Payload>,
    userInfo: Option<Payload>,
    net: seq<Outcome>,
    dice: seq<nat>,
    trace: seq<Event>)

  /** A 429 is retried while the retry count is below this. */
  const MaxRateLimitRetries: nat := 3
  /** A 401 triggers a re-login while the retry count is below this. */
  const MaxRelogins: nat := 1
  /** `new Random().Next(90, 200)`: the upper bound is exclusive. */
  const MinGameTime: int := 90
  const GameTimeBound: int := 200
  /** `new Random().Next(600, 900)`. */
  const MinScore: int := 600
  const ScoreBound: int := 900

  /** `DefaultRequestHeaders.Authorization = new AuthenticationHeaderValue("Bearer", token)`:
      the one value of the header is replaced. */
  function Authorize(h: map<string, seq<string>>, token: string): map<string, seq<string>>
  {
    h[AuthorizationHeader := ["Bearer " + token]]
  }

  /** `DefaultRequestHeaders.Add(name, value)`: one more value for the header. */
  function AddHeader(h: map<string, seq<string>>, name: string, value: string): (r: map<string, seq<string>>)
    ensures name in r && r[name] == (if name in h then h[name] else []) + [value]
    ensures forall k :: k in h && k != name ==> k in r && r[k] == h[k]
    ensures forall k :: k in r ==> k in h || k == name
  {
    h[name := (if name in h then h[name] else []) + [value]]
  }

  /** `RequestAsync(method, url, data, retryCount)`: one attempt; a non-2xx
      status whose message holds "429" is retried after a wait while
      `retryCount < 3`; one whose message holds "401" re-logs in with the
      stored init data while `retryCount < 1`, and the request is retried
      only when that login succeeds. Every other failure, and an empty or
      non-JSON body, yields null (`Value(None)`). */
  function Request(s: CsState, endpoint: Endpoint, body: Body, retryCount: nat): (r: (Run<Option<Payload>>, CsState))
    decreases |s.net|, 0
    ensures |r.1.net| <= |s.net|
    ensures r.0 == Value(None) || |r.1.net| < |s.net|
  {
    var (outcome, rest) := Exchange(s.net);
    var attempted := s.(net := rest, trace := s.trace + [Sent(endpoint, body)]);
    match outcome
    case Ok(p) => (Value(Some(p)), attempted)
    case Empty => (Value(None), attempted)
    case Malformed => (Value(None), attempted)
    case OtherError => (Value(None), attempted)
    case Status(code) =>
      if code == TooManyRequests && retryCount < MaxRateLimitRetries then
        Request(attempted.(trace := attempted.trace + [Waited(RateLimitWait)]), endpoint, body, retryCount + 1)
      else if code == Unauthorized && retryCount < MaxRelogins then
        var (loggedIn, s') := Login(attempted, attempted.initData);
        match loggedIn
        case Crashed => (Crashed, s')
        case Value(ok) => if ok then Request(s', endpoint, body, retryCount + 1) else (Value(None), s')
      else
        (Value(None), attempted)
  }

  /** `LoginAsync(initData)`: records the init data, posts it, and on a
      non-null reply stores the access token, makes it the bearer token and
      adds the init data as one more `tl-init-data` value. A reply without an
      access token crashes. */
  function Login(s: CsState, initData: Option<string>): (r: (Run<bool>, CsState))
    decreases |s.net|, 1
    ensures |r.1.net| <= |s.net|
    ensures r.0 == Value(false) || |r.1.net| < |s.net|
  {
    var (reply, s') := Request(s.(initData := initData), AuthLogin, Credentials(initData), 0);
    match reply
    case Crashed => (Crashed, s')
    case Value(None) => (Value(false), s')
    case Value(Some(p)) =>
      match p.accessToken
      case None => (Crashed, s')
      case Some(token) =>
        var authorized := Authorize(s'.headers, token);
        (Value(true), s'.(accessToken := Some(token),
                          headers := if initData.Some? then AddHeader(authorized, InitDataHeader, initData.value) else authorized))
  }

  /** `MeAsync()`: fetches and stores the user info; reading a missing
      `firstName`, `score` or `bybitId`, or a score that is not an integer,
      crashes. */
  function Me(s: CsState): (r: (Run<bool>, CsState))
    ensures |r.1.net| <= |s.net|
  {
    var (reply, s') := Request(s, UsersMe, NoBody, 0);
    match reply
    case Crashed => (Crashed, s')
    case Value(None) => (Value(false), s')
    case Value(Some(p)) =>
      var stored := s'.(userInfo := Some(p));
      if p.firstName.None? || p.score.None? || p.bybitId.None? then (Crashed, stored) else (Value(true), stored)
  }

  /** `StartGameAsync()`: starts a game and stores the reply. */
  function Start(s: CsState): (r: (Run<bool>, CsState))
    ensures |r.1.net| <= |s.net|
  {
    var (reply, s') := Request(s, GamesStart, EmptyObject, 0);
    match reply
    case Crashed => (Crashed, s')
    case Value(None) => (Value(false), s')
    case Value(Some(p)) => (Value(true), s'.(game := Some(p)))
  }

  /** `WinGameAsync(score, gameTime)`: settles the stored game, echoing its
      rewards and id; the stored game is not updated. Reading the rewards of
      a missing game, or of a game without rewards, crashes. */
  function Win(s: CsState, score: int, gameTime: int): (r: (Run<bool>, CsState))
    ensures |r.1.net| <= |s.net|
  {
    match s.game
    case None => (Crashed, s)
    case Some(g) =>
      match g.rewards
      case None => (Crashed, s)
      case Some(rw) =>
        var (reply, s') := Request(s, GamesWin, Settlement(rw.bagCoins, rw.bits, rw.gifts, g.id, score, gameTime), 0);
        match reply
        case Crashed => (Crashed, s')
        case Value(v) => (Value(v.Some?), s')
  }

  /** The game time and the score a round draws, and the draws left. */
  function Draws(dice: seq<nat>): (r: (int, int, seq<nat>))
    ensures MinGameTime <= r.0 < GameTimeBound && MinScore <= r.1 < ScoreBound
  {
    var (gameTime, dice1) := Roll(dice, MinGameTime, GameTimeBound - MinGameTime);
    var (score, dice2) := Roll(dice1, MinScore, ScoreBound - MinScore);
    (gameTime, score, dice2)
  }

  /** The tallies after one settled round. */
  function Count(t: Tally, won: bool, score: int): Tally
  {
    if won then Tally(t.totalScore + score, t.successCount + 1, t.failureCount)
    else Tally(t.totalScore, t.successCount, t.failureCount + 1)
  }

  /** One pass of the round loop of `ProcessUserAsync`: draw, start (a failed
      start ends the account: `None`), wait the game time, settle and tally,
      and pause unless this was the last round. */
  function Round(s: CsState, batch: int, totalBatches: int, tally: Tally): (r: (Run<Option<Tally>>, CsState))
    ensures |r.1.net| <= |s.net|
  {
    var (gameTime, score, dice') := Draws(s.dice);
    var (started, s1) := Start(s.(dice := dice'));
    match started
    case Crashed => (Crashed, s1)
    case Value(ok) =>
      if !ok then (Value(None), s1)
      else
        var (won, s2) := Win(s1.(trace := s1.trace + [Waited(gameTime)]), score, gameTime);
        match won
        case Crashed => (Crashed, s2)
        case Value(w) =>
          var s3 := if batch < totalBatches - 1 then s2.(trace := s2.trace + [Waited(RoundGap)]) else s2;
          (Value(Some(Count(tally, w, score))), s3)
  }

  /** The round loop from index `batch` on. */
  function Rounds(s: CsState, batch: int, totalBatches: int, tally: Tally): (r: (Run<Account>, CsState))
    decreases totalBatches - batch
  {
    if batch < totalBatches then
      var (played, s1) := Round(s, batch, totalBatches, tally);
      match played
      case Crashed => (Crashed, s1)
      case Value(None) => (Value(StartFailed(tally)), s1)
      case Value(Some(t)) => Rounds(s1, batch + 1, totalBatches, t)
    else
      (Value(Completed(tally)), s)
  }

  /** `ProcessUserAsync(initData, batchNumber, numberOfGames)`: log in, fetch
      the user info, play the rounds. `Math.Ceiling(numberOfGames / 1.0)` is
      `numberOfGames` itself. */
  function ProcessUser(s: CsState, initData: string, numberOfGames: int): (r: (Run<Account>, CsState))
  {
    var (loggedIn, s1) := Login(s, Some(initData));
    match loggedIn
    case Crashed => (Crashed, s1)
    case Value(ok) =>
      if !ok then (Value(LoginFailed), s1)
      else
        var (informed, s2) := Me(s1);
        match informed
        case Crashed => (Crashed, s2)
        case Value(ok2) =>
          if !ok2 then (Value(InfoFailed), s2)
          else Rounds(s2, 0, numberOfGames, Tally(0, 0, 0))
  }
}
