/** What both clients exchange with the game server, as the clients see it:
    the outcome of one HTTP exchange, the requests they send, the pauses they
    take, and the random draws they make. The network, the clock and the random
    number generator are oracles: sequences the model consumes from the front. */
module Api {

  datatype Option<+T> = None | Some(value: T)

  /** The `rewards` object of a started game. */
  datatype Rewards = Rewards(bagCoins: int, bits: int, gifts: int)

  /** The fields of a JSON response object that the clients read. A field is
      `None` when the object lacks it; `score` is also `None` when it cannot be
      read as an integer (in Program.cs, as a 32-bit integer for `int.Parse`). */
  datatype Payload = Payload(
    accessToken: Option<string>,
    id: Option<string>,
    rewards: Option<Rewards>,
    firstName: Option<string>,
    score: Option<int>,
    bybitId: Option<string>)

  /** What one HTTP exchange yields. */
  datatype Outcome =
    | Ok(payload: Payload)  // a 2xx status with a JSON object as body
    | Empty                 // a 2xx status with an empty body
    | Malformed             // a 2xx status with a body that is not JSON
    | Status(code: int)     // a response whose status is not 2xx
    | OtherError            // no response at all: a refused connection (in index.js also a timeout)

  /** The four API paths the clients use. */
  datatype Endpoint = AuthLogin | UsersMe | GamesStart | GamesWin

  /** The JSON body sent with a request. */
  datatype Body =
    | NoBody
    | EmptyObject
    | Credentials(initData: Option<string>)
    | Settlement(bagCoins: int, bits: int, gifts: int, gameId: Option<string>, score: int, gameTime: int)

  /** What the client does that the outside world can observe: one request
      attempt, or one wait of a number of seconds. */
  datatype Event = Sent(endpoint: Endpoint, body: Body) | Waited(seconds: nat)

  const TooManyRequests: int := 429
  const Unauthorized: int := 401
  /** Seconds waited before a request that got HTTP 429 is retried. */
  const RateLimitWait: nat := 60
  /** Seconds waited between two rounds. */
  const RoundGap: nat := 3
  const AuthorizationHeader: string := "Authorization"
  const InitDataHeader: string := "tl-init-data"

  /** The next exchange: the head of the oracle, or no response at all once
      the oracle is exhausted. */
  function Exchange(net: seq<Outcome>): (Outcome, seq<Outcome>)
  {
    if net == [] then (OtherError, []) else (net[0], net[1..])
  }

  /** One random integer in [lo, lo + count): drawn from the head of the dice
      oracle, or `lo` once it is exhausted. */
  function Roll(dice: seq<nat>, lo: int, count: nat): (r: (int, seq<nat>))
    requires count > 0
    ensures lo <= r.0 < lo + count
    ensures r.1 == if dice == [] then [] else dice[1..]
  {
    if dice == [] then (lo, []) else (lo + dice[0] % count, dice[1..])
  }

  /** Every event from index `from` on is one of `allowed`. */
  ghost predicate AllFrom(trace: seq<Event>, from: nat, allowed: set<Event>)
  {
    forall i :: from <= i < |trace| ==> trace[i] in allowed
  }

  /** What one request call may do: attempt itself, attempt a login with the
      stored init data, and wait out a rate limit. */
  function RequestTraffic(endpoint: Endpoint, body: Body, initData: Option<string>): set<Event>
  {
    {Sent(endpoint, body), Sent(AuthLogin, Credentials(initData)), Waited(RateLimitWait)}
  }

  /** No event from index `from` on is a request to `endpoint`. */
  ghost predicate NoneSentFrom(trace: seq<Event>, from: nat, endpoint: Endpoint)
  {
    forall i :: from <= i < |trace| ==> !(trace[i].Sent? && trace[i].endpoint == endpoint)
  }

  /** Some event from index `from` on is a request to `endpoint`. */
  ghost predicate SomeSentFrom(trace: seq<Event>, from: nat, endpoint: Endpoint)
  {
    exists i :: from <= i < |trace| && trace[i].Sent? && trace[i].endpoint == endpoint
  }

  /** `m'` agrees with `m` on every key outside `keys`. */
  ghost predicate SameExcept<K, V>(m: map<K, V>, m': map<K, V>, keys: set<K>)
  {
    && (forall k :: k in m && k !in keys ==> k in m' && m'[k] == m[k])
    && (forall k :: k in m' && k !in keys ==> k in m)
  }

  /** `n` copies of `x`. */
  function Repeat<T>(x: T, n: nat): (r: seq<T>)
    ensures |r| == n
    ensures forall i :: 0 <= i < n ==> r[i] == x
  {
    if n == 0 then [] else [x] + Repeat(x, n - 1)
  }

  lemma PrefixAt<T>(a: seq<T>, b: seq<T>, i: nat)
    requires a <= b && i < |a|
    ensures b[i] == a[i]
  {
    assert a == b[..|a|];
  }

  /** `k` rate-limited attempts, each followed by the 60-second wait. */
  function RetryTrace(endpoint: Endpoint, body: Body, k: nat): (r: seq<Event>)
    ensures |r| == 2 * k
  {
    if k == 0 then [] else [Sent(endpoint, body), Waited(RateLimitWait)] + RetryTrace(endpoint, body, k - 1)
  }

  /** The rate-limit trace grows at its end. */
  lemma {:induction false} RetryTraceSnoc(endpoint: Endpoint, body: Body, k: nat)
    ensures RetryTrace(endpoint, body, k) + [Sent(endpoint, body), Waited(RateLimitWait)] == RetryTrace(endpoint, body, k + 1)
    decreases k
  {
    if k > 0 {
      RetryTraceSnoc(endpoint, body, k - 1);
    }
  }

  /** The 429s a counter at `retryCount` still retries, when 429s are
      retried while the counter is below `cap`. */
  function RetryBudget(retryCount: nat, cap: nat): (n: nat)
    ensures retryCount + n == if retryCount < cap then cap else retryCount
  {
    if retryCount < cap then cap - retryCount else 0
  }

  /** How many of the first `cap` outcomes of `net` are HTTP 429s in a row. */
  ghost function LeadingRateLimits(net: seq<Outcome>, cap: nat): (n: nat)
    ensures n <= cap && n <= |net|
    ensures forall i :: 0 <= i < n ==> net[i] == Status(TooManyRequests)
    ensures n < cap && n < |net| ==> net[n] != Status(TooManyRequests)
  {
    if cap == 0 || net == [] || net[0] != Status(TooManyRequests) then 0
    else 1 + LeadingRateLimits(net[1..], cap - 1)
  }

  /** No outcome in `net` is an HTTP 401. */
  ghost predicate NoUnauthorized(net: seq<Outcome>)
  {
    forall i :: 0 <= i < |net| ==> net[i] != Status(Unauthorized)
  }
}
