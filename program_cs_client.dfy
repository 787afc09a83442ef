/** The ByBit class of Program.cs: its fields are updated in place,
    `RequestAsync` runs as a loop over its retry counter, and
    `ProcessUserAsync` as a loop over the round index. Most methods are
    proved to compute exactly the function of the same name in ProgramCs.
    The exceptions are these. `Wait` states its new state directly, and
    `Draw` is proved against `Roll`. `Attempt` and `Recover` are each one
    step of `Request`: they either finish it or leave a state from which
    `Request` at the next counter gives the same result. */
module ProgramCsClient {
  import opened Api
  import opened ProgramCs

  class ByBit {
    /** `client.DefaultRequestHeaders`. */
    var headers: map<string, seq<string>>
    var accessToken: Option<string>
    var initData: Option<string>
    var game: Option<Payload>
    var userInfo: Option<Payload>
    /** The outcomes the network will give, in order. */
    var net: seq<Outcome>
    /** The draws `new Random().Next` will give, in order. */
    var dice: seq<nat>
    /** What the object has done so far. */
    var trace: seq<Event>

    function State(): CsState
      reads this
    {
      CsState(headers, accessToken, initData, game, userInfo, net, dice, trace)
    }

    /** `new ByBit()`: the default headers start as the identity headers. */
    constructor (identity: map<string, seq<string>>, network: seq<Outcome>, draws: seq<nat>)
      ensures State() == CsState(identity, None, None, None, None, network, draws, [])
    {
      headers := identity;
      accessToken := None;
      initData := None;
      game := None;
      userInfo := None;
      net := network;
      dice := draws;
      trace := [];
    }

    /** `WaitAsync(seconds)`, as a counted event. */
    method Wait(seconds: nat)
      modifies this
      ensures State() == old(State()).(trace := old(trace) + [Waited(seconds)])
    {
      trace := trace + [Waited(seconds)];
    }

    /** One draw of `new Random().Next(lo, lo + count)`. */
    method Draw(lo: int, count: nat) returns (x: int)
      requires count > 0
      modifies this
      ensures (x, dice) == Roll(old(dice), lo, count)
      ensures State() == old(State()).(dice := dice)
    {
      x, dice := Roll(dice, lo, count).0, Roll(dice, lo, count).1;
    }

    /** One attempt of `RequestAsync`: either the result the call ends with
        (`done`), or the retry count it goes on with after a wait or a
        successful re-login. */
    method Attempt(endpoint: Endpoint, body: Body, retry: nat) returns (done: bool, reply: Run<Option<Payload>>, next: nat)
      modifies this
      decreases |net|, 1
      ensures done ==> (reply, State()) == ProgramCs.Request(old(State()), endpoint, body, retry)
      ensures !done ==> |net| < |old(net)| && ProgramCs.Request(State(), endpoint, body, next) == ProgramCs.Request(old(State()), endpoint, body, retry)
    {
      ghost var before := State();
      var outcome;
      outcome, net := Exchange(net).0, Exchange(net).1;
      trace := trace + [Sent(endpoint, body)];
      done, reply, next := true, Value(None), retry;
      match outcome {
        case Ok(p) => reply := Value(Some(p));
        case Empty =>
        case Malformed =>
        case OtherError =>
        case Status(code) =>
          done, reply, next := Recover(endpoint, body, code, retry, before);
      }
    }

    /** What `RequestAsync` does after an attempt answered with a status
        other than 2xx: wait and retry on a 429, re-log in and retry on a
        401, give up otherwise. `before` is the state before the attempt. */
    method Recover(endpoint: Endpoint, body: Body, code: int, retry: nat, ghost before: CsState) returns (done: bool, reply: Run<Option<Payload>>, next: nat)
      requires Exchange(before.net).0 == Status(code)
      requires State() == before.(net := Exchange(before.net).1, trace := before.trace + [Sent(endpoint, body)])
      modifies this
      decreases |before.net|, 0
      ensures done ==> (reply, State()) == ProgramCs.Request(before, endpoint, body, retry)
      ensures !done ==> |net| < |before.net| && ProgramCs.Request(State(), endpoint, body, next) == ProgramCs.Request(before, endpoint, body, retry)
    {
      done, reply, next := true, Value(None), retry;
      if code == TooManyRequests && retry < MaxRateLimitRetries {
        Wait(RateLimitWait);
        done, next := false, retry + 1;
      } else if code == Unauthorized && retry < MaxRelogins {
        var loggedIn := Login(initData);
        if loggedIn.Crashed? {
          reply := Crashed;
        } else if loggedIn.value {
          done, next := false, retry + 1;
        }
      }
    }

    method Request(endpoint: Endpoint, body: Body, retryCount: nat) returns (reply: Run<Option<Payload>>)
      modifies this
      decreases |net|, 2
      ensures (reply, State()) == ProgramCs.Request(old(State()), endpoint, body, retryCount)
    {
      var retry := retryCount;
      while true
        invariant ProgramCs.Request(State(), endpoint, body, retry) == ProgramCs.Request(old(State()), endpoint, body, retryCount)
        invariant |net| <= |old(net)|
        decreases |net|
      {
        var done, result, next := Attempt(endpoint, body, retry);
        if done {
          return result;
        }
        retry := next;
      }
    }

    method Login(data: Option<string>) returns (result: Run<bool>)
      modifies this
      decreases |net|, 3
      ensures (result, State()) == ProgramCs.Login(old(State()), data)
    {
      initData := data;
      var reply := Request(AuthLogin, Credentials(data), 0);
      if reply.Crashed? {
        return Crashed;
      }
      if reply.value.None? {
        return Value(false);
      }
      var token := reply.value.value.accessToken;
      if token.None? {
        return Crashed;
      }
      accessToken := token;
      headers := Authorize(headers, token.value);
      if data.Some? {
        headers := AddHeader(headers, InitDataHeader, data.value);
      }
      result := Value(true);
    }

    method Me() returns (result: Run<bool>)
      modifies this
      ensures (result, State()) == ProgramCs.Me(old(State()))
    {
      var reply := Request(UsersMe, NoBody, 0);
      if reply.Crashed? {
        return Crashed;
      }
      if reply.value.None? {
        return Value(false);
      }
      var p := reply.value.value;
      userInfo := Some(p);
      if p.firstName.None? || p.score.None? || p.bybitId.None? {
        return Crashed;
      }
      result := Value(true);
    }

    method Start() returns (result: Run<bool>)
      modifies this
      ensures (result, State()) == ProgramCs.Start(old(State()))
    {
      var reply := Request(GamesStart, EmptyObject, 0);
      if reply.Crashed? {
        return Crashed;
      }
      if reply.value.Some? {
        game := reply.value;
      }
      result := Value(reply.value.Some?);
    }

    method Win(score: int, gameTime: int) returns (result: Run<bool>)
      modifies this
      ensures (result, State()) == ProgramCs.Win(old(State()), score, gameTime)
    {
      if game.None? || game.value.rewards.None? {
        return Crashed;
      }
      var rw := game.value.rewards.value;
      var reply := Request(GamesWin, Settlement(rw.bagCoins, rw.bits, rw.gifts, game.value.id, score, gameTime), 0);
      if reply.Crashed? {
        return Crashed;
      }
      result := Value(reply.value.Some?);
    }

    /** One pass of the round loop: the tallies to go on with, or `None`
        when the start failed. */
    method Round(batch: int, totalBatches: int, tally: Tally) returns (result: Run<Option<Tally>>)
      modifies this
      ensures (result, State()) == ProgramCs.Round(old(State()), batch, totalBatches, tally)
    {
      var gameTime := Draw(MinGameTime, GameTimeBound - MinGameTime);
      var score := Draw(MinScore, ScoreBound - MinScore);
      var started := Start();
      if started.Crashed? {
        return Crashed;
      }
      if !started.value {
        return Value(None);
      }
      Wait(gameTime);
      var won := Win(score, gameTime);
      if won.Crashed? {
        return Crashed;
      }
      var next := Count(tally, won.value, score);
      if batch < totalBatches - 1 {
        Wait(RoundGap);
      }
      result := Value(Some(next));
    }

    method ProcessUser(data: string, numberOfGames: int) returns (result: Run<Account>)
      modifies this
      ensures (result, State()) == ProgramCs.ProcessUser(old(State()), data, numberOfGames)
    {
      var loggedIn := Login(Some(data));
      if loggedIn.Crashed? {
        return Crashed;
      }
      if !loggedIn.value {
        return Value(LoginFailed);
      }
      var informed := Me();
      if informed.Crashed? {
        return Crashed;
      }
      if !informed.value {
        return Value(InfoFailed);
      }
      var tally := Tally(0, 0, 0);
      ghost var first := State();
      var batch := 0;
      while batch < numberOfGames
        invariant Rounds(State(), batch, numberOfGames, tally) == Rounds(first, 0, numberOfGames, Tally(0, 0, 0))
        decreases numberOfGames - batch
      {
        var played := Round(batch, numberOfGames, tally);
        if played.Crashed? {
          return Crashed;
        }
        if played.value.None? {
          return Value(StartFailed(tally));
        }
        tally := played.value.value;
        batch := batch + 1;
      }
      result := Value(Completed(tally));
    }
  }
}
