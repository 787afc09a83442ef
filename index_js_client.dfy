/** The ByBit class of index.js: its fields are updated in place, `request`
    runs as a loop over its retry counter, and `processUser` as a loop over
    the batch index. Most methods are proved to compute exactly the function
    of the same name in IndexJs. The exceptions are these. `Wait` states its
    new state directly. `Draw` is proved against `Roll`, and `Batch` against
    `Step`. `Attempt` and `Recover` are each one step of `Request`: they
    either finish it or leave a state from which `Request` at the next
    counter gives the same result. */
module IndexJsClient {
  import opened Api
  import opened IndexJs

  class ByBit {
    var headers: map<string, string>
    var defaults: map<string, string>
    var currentInitData: Option<string>
    var game: Data
    var userInfo: Data
    /** The outcomes the network will give, in order. */
    var net: seq<Outcome>
    /** The draws `Math.random` will give, in order. */
    var dice: seq<nat>
    /** What the object has done so far. */
    var trace: seq<Event>

    function State(): ClientState
      reads this
    {
      ClientState(headers, defaults, currentInitData, game, userInfo, net, dice, trace)
    }

    /** `new ByBit()`: both header sets start as the identity headers. */
    constructor (identity: map<string, string>, network: seq<Outcome>, draws: seq<nat>)
      ensures State() == ClientState(identity, identity, None, NotObject, NotObject, network, draws, [])
    {
      headers := identity;
      defaults := identity;
      currentInitData := None;
      game := NotObject;
      userInfo := NotObject;
      net := network;
      dice := draws;
      trace := [];
    }

    /** `wait(seconds)`, as a counted event. */
    method Wait(seconds: nat)
      modifies this
      ensures State() == old(State()).(trace := old(trace) + [Waited(seconds)])
    {
      trace := trace + [Waited(seconds)];
    }

    /** One draw of `Math.floor(Math.random() * count) + lo`. */
    method Draw(lo: int, count: nat) returns (x: int)
      requires count > 0
      modifies this
      ensures (x, dice) == Roll(old(dice), lo, count)
      ensures State() == old(State()).(dice := dice)
    {
      x, dice := Roll(dice, lo, count).0, Roll(dice, lo, count).1;
    }

    /** One attempt of `request`: either the reply the call ends with
        (`done`), or the retry count it goes on with after a wait or a
        successful re-login. */
    method Attempt(endpoint: Endpoint, body: Body, retry: nat) returns (done: bool, reply: Reply, next: nat)
      modifies this
      decreases |net|, 1
      ensures done ==> (reply, State()) == IndexJs.Request(old(State()), endpoint, body, retry)
      ensures !done ==> |net| < |old(net)| && IndexJs.Request(State(), endpoint, body, next) == IndexJs.Request(old(State()), endpoint, body, retry)
    {
      ghost var before := State();
      var outcome;
      outcome, net := Exchange(net).0, Exchange(net).1;
      trace := trace + [Sent(endpoint, body)];
      done, reply, next := true, Failure, retry;
      match outcome {
        case Ok(p) => reply := Success(Object(p));
        case Empty => reply := Success(NotObject);
        case Malformed => reply := Success(NotObject);
        case OtherError =>
        case Status(code) =>
          done, reply, next := Recover(endpoint, body, code, retry, before);
      }
    }

    /** What `request` does after an attempt answered with a status other
        than 2xx: wait and retry on a 429, re-log in and retry on a 401,
        give up otherwise. `before` is the state before the attempt. */
    method Recover(endpoint: Endpoint, body: Body, code: int, retry: nat, ghost before: ClientState) returns (done: bool, reply: Reply, next: nat)
      requires Exchange(before.net).0 == Status(code)
      requires State() == before.(net := Exchange(before.net).1, trace := before.trace + [Sent(endpoint, body)])
      modifies this
      decreases |before.net|, 0
      ensures done ==> (reply, State()) == IndexJs.Request(before, endpoint, body, retry)
      ensures !done ==> |net| < |before.net| && IndexJs.Request(State(), endpoint, body, next) == IndexJs.Request(before, endpoint, body, retry)
    {
      done, reply, next := true, Failure, retry;
      if code == TooManyRequests && retry < MaxRateLimitRetries {
        Wait(RateLimitWait);
        done, next := false, retry + 1;
      } else if code == Unauthorized && retry < MaxRelogins {
        var loggedIn := Login(currentInitData);
        if loggedIn {
          done, next := false, retry + 1;
        }
      }
    }

    method Request(endpoint: Endpoint, body: Body, retryCount: nat) returns (reply: Reply)
      modifies this
      decreases |net|, 2
      ensures (reply, State()) == IndexJs.Request(old(State()), endpoint, body, retryCount)
    {
      var retry := retryCount;
      while true
        invariant IndexJs.Request(State(), endpoint, body, retry) == IndexJs.Request(old(State()), endpoint, body, retryCount)
        invariant |net| <= |old(net)|
        decreases |net|
      {
        var done, result, next := Attempt(endpoint, body, retry);
        if done {
          return result;
        }
        retry := next;
      }
    }

    method Login(initData: Option<string>) returns (success: bool)
      modifies this
      decreases |net|, 3
      ensures (success, State()) == IndexJs.Login(old(State()), initData)
    {
      currentInitData := initData;
      var reply := Request(AuthLogin, Credentials(initData), 0);
      success := reply.Success?;
      if success {
        var bearer := "Bearer " + TokenText(reply.data);
        headers := headers[AuthorizationHeader := bearer];
        defaults := Assign(defaults[AuthorizationHeader := bearer], InitDataHeader, initData);
      }
    }

    method Me() returns (success: bool)
      modifies this
      ensures (success, State()) == IndexJs.Me(old(State()))
    {
      var reply := Request(UsersMe, NoBody, 0);
      success := reply.Success?;
      if success {
        userInfo := reply.data;
      }
    }

    method Start() returns (success: bool)
      modifies this
      ensures (success, State()) == IndexJs.Start(old(State()))
    {
      var reply := Request(GamesStart, EmptyObject, 0);
      success := reply.Success?;
      if success {
        game := reply.data;
      }
    }

    method Win(score: int, gameTime: int) returns (result: Flow<bool>)
      modifies this
      ensures (result, State()) == IndexJs.Win(old(State()), score, gameTime)
    {
      var settlement := SettlementFor(game, score, gameTime);
      if settlement.None? {
        return Threw;
      }
      var reply := Request(GamesWin, settlement.value, 0);
      if reply.Success? {
        game := reply.data;
      }
      result := Returned(reply.Success?);
    }

    method PlayGame() returns (result: Flow<GameResult>)
      modifies this
      ensures (result, State()) == IndexJs.PlayGame(old(State()))
    {
      var gameTime := Draw(MinGameTime, MaxGameTime - MinGameTime + 1);
      var score := Draw(MinScore, MaxScore - MinScore + 1);
      var started := Start();
      if !started {
        return Returned(GameResult(0, false));
      }
      Wait(gameTime);
      var won := Win(score, gameTime);
      match won {
        case Threw => result := Threw;
        case Returned(ok) => result := Returned(if ok then GameResult(score, true) else GameResult(0, false));
      }
    }

    /** One pass of the batch loop of `processUser`: the index the loop goes
        on with (one back when a thrown batch is to be re-run) and the tallies. */
    method Batch(initData: string, batch: int, totalBatches: int, tally: Tally, ghost results: seq<GameResult>)
      returns (next: int, tally': Tally, ghost results': seq<GameResult>)
      modifies this
      ensures StepResult(State(), next, tally', results') == Step(old(State()), initData, batch, totalBatches, tally, results)
    {
      var played := PlayGame();
      ghost var settled := Settle(played, State(), initData, batch, tally, results);
      var index := batch;
      match played {
        case Returned(g) =>
          tally' := Count(tally, g);
          results' := results + [g];
        case Threw =>
          tally', results' := tally, results;
          var refreshed := Login(Some(initData));
          if refreshed {
            Wait(ReloginPause);
            index := batch - 1;
          }
      }
      assert settled == StepResult(State(), index, tally', results');
      if JsRem(index, RefetchPeriod) == RefetchRemainder {
        var refetched := Me();
      }
      if index < totalBatches - 1 {
        Wait(RoundGap);
      }
      next := index + 1;
    }

    method ProcessUser(initData: string, numberOfGames: int) returns (account: Account)
      modifies this
      ensures (account, State()) == IndexJs.ProcessUser(old(State()), initData, numberOfGames)
    {
      var loggedIn := Login(Some(initData));
      if !loggedIn {
        return LoginFailed;
      }
      var informed := Me();
      if !informed {
        Wait(FinalPause);
        return InfoFailed;
      }
      var tally := Tally(0, 0, 0);
      ghost var results: seq<GameResult> := [];
      ghost var first := State();
      var totalBatches := TotalBatches(numberOfGames);
      var batch := 0;
      while batch < totalBatches
        invariant Rounds(State(), initData, batch, totalBatches, tally, results)
               == Rounds(first, initData, 0, totalBatches, Tally(0, 0, 0), [])
        decreases |net|, totalBatches - batch
      {
        batch, tally, results := Batch(initData, batch, totalBatches, tally, results);
      }
      Wait(FinalPause);
      account := Played(tally);
    }
  }
}
