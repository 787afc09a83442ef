# BybitsweepS client: retry policy, session side effects and round loop

BybitsweepS is a bot for a coin-sweeper game API. It has two clients, `index.js` (Node) and
`Program.cs` (C#). Each client logs an account in with its Telegram init data and fetches the
user info. It then plays N rounds: start a game, wait the game time, post a "win" with a
self-chosen score, and tally the result. Every HTTP request goes through one helper:

- it retries an HTTP 429 after a 60-second wait while its retry counter is below 3;
- it re-logs in after an HTTP 401 while the same counter is below 1.

This project models, for both clients:

- the request retry state machine (`request` / `RequestAsync`);
- the side effects of a login on the session headers and fields;
- the per-account orchestration loop (`processUser` / `ProcessUserAsync`).

The network is an oracle, a sequence of outcomes: `Ok(payload)`, `Empty`, `Malformed`,
`Status(code)` and `OtherError`. Each attempt consumes one outcome; once the sequence is used
up, every attempt gets no response. Random draws come from a second oracle of naturals, reduced
into the source's ranges. What a client does that can be observed is a trace of events:
`Sent(endpoint, body)` per request attempt and `Waited(seconds)` per wait.

Each client has three modules:

- **`IndexJs` / `ProgramCs`**: the state of a ByBit object as a datatype, and every operation as
  a function over it.
- **`IndexJsClient` / `ProgramCsClient`**: a `class ByBit` whose fields are updated in place.
  The recursive retry becomes a `while` loop over the counter, each pass one `Attempt`, with the
  handling of a non-2xx status in `Recover`. The round loop becomes a `while` loop over the batch
  index. Most methods' postconditions say that the result and the new field values are exactly
  what the function of the same name computes from the old state. Four methods are proved
  against differently named functions. `IndexJsClient.ByBit.Batch` equals `IndexJs.Step`.
  `Draw`, in both clients, equals `Api.Roll`. `Wait` states its new trace directly.
  `Attempt` and `Recover` each either finish the call, equal to `Request` of the state before
  the attempt, or leave a state from which `Request` at the next counter gives that same result.
- **`IndexJsProperties` / `ProgramCsProperties`**: what those functions guarantee.

In the table below, the row of a client method also covers the function of the same name in
`IndexJs` / `ProgramCs`, which its postcondition equals: `Me`, `Start`, `Win`, `PlayGame`,
`Round` and `ProcessUser`. The `ProcessUser` rows also cover the round loops `IndexJs.Rounds`
and `ProgramCs.Rounds`, which those methods run as `while` loops.

`Api` holds what both clients share: outcomes, endpoints, bodies, events and the two oracles.

Termination: `request` and `login` call each other. A 401 on the login request re-enters
`login` with a fresh counter, so the source has no bound (see "Divergences"). The model's
`decreases` measure is the length of the network oracle. Every attempt consumes one outcome,
and an exhausted oracle ends every request with a failure.

## Model

| member | source | states |
|---|---|---|
| Api.Roll | index.js:192-193 | a random draw `Math.floor(Math.random() * count) + lo` lies in [lo, lo + count) |
| IndexJs.JsRem | index.js:268 | JavaScript `%`: equals the Euclidean remainder for a non-negative dividend, lies in (-n, 0] for a negative one, and always differs from the dividend by a multiple of n |
| IndexJs.CeilDiv | index.js:232 | `Math.ceil(n / d)` is the least r with n <= r * d |
| IndexJs.Request | index.js:64-91 | a request never grows the network oracle, and a successful one consumes from it (the termination measure) |
| IndexJs.Login | index.js:93-120 | as for Request; a successful login consumed an outcome |
| IndexJs.Draws | index.js:192-193 | the game time is in [90, 112] and the score in [600, 900] |
| IndexJs.Settle | index.js:244-266 | a settled batch keeps its index, or steps back by one exactly when the game threw and the re-login with the account's init data succeeded; stepping back consumes network |
| IndexJs.Step | index.js:234-278 | one pass of the loop body advances the index by one, or keeps it while consuming network |
| IndexJsClient.ByBit.Request | index.js:64-91 | the retry loop's reply and new fields equal IndexJs.Request |
| IndexJsClient.ByBit.Login | index.js:93-120 | sets `currentInitData`, then the bearer token in both header sets and `tl-init-data` on success, equal to IndexJs.Login |
| IndexJsClient.ByBit.Me | index.js:122-145 | stores the user info on success, equal to IndexJs.Me |
| IndexJsClient.ByBit.Start | index.js:147-156 | stores the started game on success, equal to IndexJs.Start |
| IndexJsClient.ByBit.Win | index.js:158-174 | throws when the stored game has no rewards; otherwise posts them and stores the reply on success, equal to IndexJs.Win |
| IndexJsClient.ByBit.PlayGame | index.js:191-210 | draws, starts, waits the game time and settles, equal to IndexJs.PlayGame |
| IndexJsClient.ByBit.Batch | index.js:244-277 | one pass of the batch loop body, equal to IndexJs.Step |
| IndexJsClient.ByBit.ProcessUser | index.js:212-284 | login, info fetch, batch loop with its tallies, closing pause, equal to IndexJs.ProcessUser |
| IndexJsProperties.RequestConfined | index.js:64-91 | a request, re-logins included, changes only the Authorization headers, the net, the trace and `tl-init-data` (only to the stored init data); it sends only itself, login attempts and 60-second waits, and ends on an attempt |
| IndexJsProperties.LoginConfined | index.js:93-120 | a login records its init data whatever the outcome; on success both header sets carry the same bearer value and `tl-init-data` is exactly the init data |
| IndexJsProperties.RateLimitRun | index.js:71-75 | k 429s in a row, while the counter allows k retries, cost k attempts, each followed by a wait of 60, and raise the counter by k |
| IndexJsProperties.RateLimitExhausted | index.js:71-89 | when every answer is 429, a call makes 4 - retryCount attempts and 3 - retryCount waits and fails |
| IndexJsProperties.RateLimitOnly | index.js:64-91 | without a 401, a request is at most 3 - retryCount rate-limited attempts plus one final attempt, and changes no header |
| IndexJsProperties.UnauthorizedAfterRetryFails | index.js:76-89 | once the counter is 1 or more, a 401 fails after that one attempt, with no re-login |
| IndexJsProperties.RateLimitThenUnauthorizedFails | index.js:71-89 | the counter is shared: 429 then 401 fails after two attempts and one wait, with no login |
| IndexJsProperties.FailedReloginNotRetried | index.js:76-89 | a 401 whose re-login fails returns failure in the state that login left, for any endpoint; a request other than a login is not sent again |
| IndexJsProperties.ReloginRetriesOnce | index.js:76-89 | 401, a successful re-login, then 401 again: the request is sent twice around one login attempt, fails, and keeps the new bearer token |
| IndexJsProperties.LoginInstallsToken | index.js:101-105 | a 2xx login reply installs "Bearer " + token in both header sets ("Bearer undefined" for an empty, unparsable or token-less body) and the init data, after one attempt |
| IndexJsProperties.LoginFailureKeepsHeaders | index.js:113-119 | a login that fails without meeting a 401 leaves both header sets unchanged |
| IndexJsProperties.NestedReloginChangesHeaders | index.js:76-104 | a login answered 401, then 2xx (the nested re-login), then no response fails but has replaced the Authorization header |
| IndexJsProperties.LoginKeepsReentering | index.js:76-101 | with n 401s, a login makes n + 1 attempts and fails: its attempts have no bound |
| IndexJsProperties.MeAndStartStore | index.js:122-156 | `me` and `start` change only their own field, and a failed call changes neither |
| IndexJsProperties.WinEchoesGame | index.js:158-166 | every win attempt, retries included, posts the stored rewards and id unchanged, with the chosen score and game time |
| IndexJsProperties.WinThrowsWithoutRewards | index.js:159-162 | `win` throws exactly when the stored game is not an object with rewards, and then changes nothing |
| IndexJsProperties.PlayGameTrace | index.js:191-210 | `playGame` sends no user-info request and waits only 60 seconds or the game time in [90, 112] |
| IndexJsProperties.PlayGameScore | index.js:191-209 | a failed game scores 0; a successful one scores the drawn value in [600, 900], and its win request posted that score and the drawn game time |
| IndexJsProperties.StartFailureSkipsWin | index.js:197-198 | a failed `start` yields score 0, failure, and no win request |
| IndexJsProperties.StepRefetch | index.js:268-272 | a batch re-fetches the user info exactly when its final index (after `batch--`) is 4 modulo 5 under JavaScript's remainder |
| IndexJsProperties.StepPause | index.js:274-277 | a batch ends with the 3-second pause exactly when its final index is below totalBatches - 1 |
| IndexJsProperties.EmptyStartReruns | index.js:147-266 | a start answered with an empty 2xx body makes `win` throw; after a successful re-login the pass at index 0 ends at index 0 with nothing counted and exactly five events added |
| IndexJsProperties.EmptyStartsKeepRerunning | index.js:234-278 | n such pairs of replies leave the loop at index 0 with the same tallies, having consumed 2n outcomes and added 5n events: the loop has no bound |
| IndexJsProperties.StepRerun | index.js:244-266 | the same index is re-run exactly when the game threw and the re-login succeeded; a thrown batch is never counted; a returned result is counted once |
| IndexJsProperties.RoundsTally | index.js:227-253 | the batch loop keeps totalScore equal to the sum of the results' scores, successCount equal to the number of successes, and successCount + failureCount equal to the number of results |
| IndexJsProperties.TallyBounds | index.js:246-253 | tallies of such results satisfy 600 * successCount <= totalScore <= 900 * successCount |
| IndexJsProperties.ProcessUserTally | index.js:212-284 | an account that played ends with 600 * successCount <= totalScore <= 900 * successCount |
| IndexJsProperties.LoginFailureStops | index.js:216-283 | the account reports a login failure exactly when the login fails; it then sends no user-info, start or win request and ends on the login attempt, without the closing pause; every other account ends with the 3-second pause |
| IndexJsProperties.InfoFailureStops | index.js:224-281 | an account whose info fetch fails sends no start or win request |
| ProgramCs.AddHeader | Program.cs:121 | `DefaultRequestHeaders.Add` appends one value to the header's list and leaves every other header unchanged |
| ProgramCs.Request | Program.cs:54-107 | a request never grows the network oracle, and a non-null or crashed one consumes from it |
| ProgramCs.Login | Program.cs:109-128 | as for Request |
| ProgramCs.Draws | Program.cs:196-197 | `Random.Next` excludes its upper bound: game time in [90, 199], score in [600, 899] |
| ProgramCsClient.ByBit.Request | Program.cs:54-107 | the retry loop's reply and new fields equal ProgramCs.Request |
| ProgramCsClient.ByBit.Login | Program.cs:109-128 | sets `initData`, then the token, the bearer header and one more `tl-init-data` value on a non-null reply; crashes without a token; equal to ProgramCs.Login |
| ProgramCsClient.ByBit.Me | Program.cs:130-147 | stores a non-null reply and crashes on a missing field, equal to ProgramCs.Me |
| ProgramCsClient.ByBit.Start | Program.cs:149-160 | stores the started game on a non-null reply, equal to ProgramCs.Start |
| ProgramCsClient.ByBit.Win | Program.cs:162-176 | posts the stored rewards and id and does not update the game, equal to ProgramCs.Win |
| ProgramCsClient.ByBit.Round | Program.cs:196-220 | one pass of the round loop body, equal to ProgramCs.Round |
| ProgramCsClient.ByBit.ProcessUser | Program.cs:178-224 | login, info fetch, round loop with its tallies, equal to ProgramCs.ProcessUser |
| ProgramCsProperties.RequestConfined | Program.cs:54-107 | a request, re-logins and crashes included, changes only the token, the Authorization header and the `tl-init-data` values (only by appending the stored init data); it sends only itself, login attempts and 60-second waits |
| ProgramCsProperties.LoginConfined | Program.cs:109-128 | a login records its init data whatever the outcome; on success the Authorization header is exactly the stored bearer token and the last `tl-init-data` value is the init data |
| ProgramCsProperties.RateLimitRun | Program.cs:85-90 | k 429s in a row, while the counter allows k retries, cost k attempts, each followed by a wait of 60, and raise the counter by k |
| ProgramCsProperties.RateLimitExhausted | Program.cs:85-106 | when every answer is 429, a call makes 4 - retryCount attempts and 3 - retryCount waits and yields null |
| ProgramCsProperties.RateLimitOnly | Program.cs:54-107 | without a 401, a request cannot crash, makes at most 3 - retryCount rate-limited attempts plus one, and changes no header |
| ProgramCsProperties.UnauthorizedAfterRetryFails | Program.cs:91-106 | once the counter is 1 or more, a 401 yields null after that one attempt, with no re-login |
| ProgramCsProperties.RateLimitThenUnauthorizedFails | Program.cs:85-106 | 429 then 401 yields null after two attempts and one wait, with no login |
| ProgramCsProperties.FailedReloginNotRetried | Program.cs:91-106 | a 401 whose re-login fails yields null in the state that login left, for any endpoint; a request other than a login is not sent again |
| ProgramCsProperties.ReloginRetriesOnce | Program.cs:91-106 | 401, a re-login that gets a token, then 401 again: the request is sent twice around one login attempt, yields null, and keeps the new token as the bearer value |
| ProgramCsProperties.EmptyReplyIsFailure | Program.cs:69-83 | an empty or unparsable 2xx body is null after one attempt, and login, user info, start and win then all report failure |
| ProgramCsProperties.LoginCrashesWithoutToken | Program.cs:111-119 | a non-null login reply without `accessToken` crashes with only the init data stored: no token is stored and no header changes |
| ProgramCsProperties.LoginInstallsToken | Program.cs:117-123 | a login reply with a token stores it, makes it the one bearer value and appends the init data, after one attempt |
| ProgramCsProperties.InitDataAccumulates | Program.cs:120-121 | two successful logins leave both init data values in `tl-init-data`, while Authorization holds only the second token |
| ProgramCsProperties.LoginFailureKeepsHeaders | Program.cs:116-127 | a login that fails without meeting a 401 changes no header |
| ProgramCsProperties.NestedReloginChangesHeaders | Program.cs:91-121 | a login answered 401, then a reply with a token (the nested re-login), then no response fails, but has stored the token, replaced the Authorization header and added one `tl-init-data` value |
| ProgramCsProperties.LoginKeepsReentering | Program.cs:91-116 | with n 401s, a login makes n + 1 attempts and fails: its attempts have no bound |
| ProgramCsProperties.MeChecksFields | Program.cs:132-142 | a non-null info reply is stored, then crashes when `firstName`, an integer `score` or `bybitId` is missing |
| ProgramCsProperties.MeAndStartStore | Program.cs:130-160 | `MeAsync` and `StartGameAsync` change only their own field, and a null reply changes neither |
| ProgramCsProperties.WinEchoesGame | Program.cs:162-175 | every win attempt posts the stored rewards and id unchanged; the stored game is not updated |
| ProgramCsProperties.RoundTally | Program.cs:199-213 | a failed start ends the account with the tallies unchanged and no win request; a settled win adds the score and a success, a failed one only a failure |
| ProgramCsProperties.RoundWaits | Program.cs:196-220 | every wait in a round is 60 seconds, the game time in [90, 199], or the 3-second pause |
| ProgramCsProperties.RoundPause | Program.cs:217-220 | a round that goes on ends with the 3-second pause exactly when it is not the last |
| ProgramCsProperties.RoundsTally | Program.cs:190-221 | the loop keeps 600 * successCount <= totalScore <= 899 * successCount; a completed loop settled every round |
| ProgramCsProperties.ProcessUserTally | Program.cs:178-224 | a completed account has successCount + failureCount = numberOfGames and the score bound |
| ProgramCsProperties.LoginFailureStops | Program.cs:182-183 | a login failure returns before any user-info, start or win request |
| ProgramCsProperties.InfoFailureStops | Program.cs:185-186 | an info failure starts no game |

## Divergences

Each of these is a behaviour of the code that a reader of the client might not expect. The
model follows the code in every case.

- **Unbounded re-login.** `login` sends its request with a counter of 0 (index.js:101,
  Program.cs:116). A 401 on that request re-enters `login` (index.js:76-78, Program.cs:91-94),
  and this repeats with no bound. `LoginKeepsReentering` shows that n 401s cost n + 1 attempts.
  The model terminates only because the network oracle is finite.
- **No stall detection.** Neither client halts an account whose score stops changing.
  index.js:268-272 only re-fetches the user info and prints it, and Program.cs never re-fetches
  during the loop.
- **No round proof `h`.** No such field is ever sent (index.js:159-166, Program.cs:164-172).
- **`tl-init-data` accumulates in Program.cs.** Program.cs:121 adds one more value on every
  successful login (`InitDataAccumulates`). index.js:105 overwrites the value.
- **A token-less login reply.** In index.js, an empty, unparsable or token-less 2xx reply still
  counts as a successful login, and it installs `Bearer undefined` (`LoginInstallsToken`). In
  Program.cs, only a JSON reply without `accessToken` crashes the program
  (`LoginCrashesWithoutToken`). An empty or unparsable reply is null there and fails the login
  (`EmptyReplyIsFailure`). Neither client rejects the account as an authentication error.
- **A failed login can change the headers (both clients).** A nested re-login can succeed
  inside a login that then fails (`IndexJsProperties.NestedReloginChangesHeaders`,
  `ProgramCsProperties.NestedReloginChangesHeaders`). In Program.cs it also stores the token and
  adds one more `tl-init-data` value. So "headers unchanged on failure" holds only when no 401 is
  met (`LoginFailureKeepsHeaders`).
- **A failed re-login after a thrown batch (index.js).** index.js:263-265 advances to the next
  batch. It does not stop the account, and the thrown batch is counted neither as a success nor
  as a failure (`StepRerun`).
- **An empty start reply re-runs a batch without bound (index.js).** A 2xx start reply with an
  empty body, or an object without `rewards`, is stored as the game (index.js:149-150). `win`
  then throws reading `game.rewards` (index.js:160), and when the re-login succeeds, `batch--`
  (index.js:262) re-runs the same index. While the server keeps answering this way, the loop
  does not end (`EmptyStartReruns`, `EmptyStartsKeepRerunning`). In Program.cs an empty reply
  is null, which ends the account (Program.cs:151, 200), and a game without rewards crashes
  `WinGameAsync` (Program.cs:166).
- **The re-fetch index after `batch--`.** The `batch % 5 === 4` test uses the index after the
  decrement. A re-run batch 5 therefore also re-fetches, and a re-run batch 0 tests -1
  (`StepRefetch`).
- **A network failure does not re-login.** Only a 401 triggers a re-login. No response at all is
  a plain failure.
- **A failed start ends the account in Program.cs** (Program.cs:200). index.js counts it as a
  failed round and goes on.
- **The closing pause (index.js:283)** also follows an info failure, but not a login failure.

## Left out

- program.cs (the lower-case file): a display-only poller loop with a five-minute delay; it is
  all I/O.
- The transport: axios, HttpClient, the base URL, the `content-type` header and the identity
  header values. The constructors take the identity headers as a parameter.
- Logging, spinners, boxes, colours and the countdown text of `wait` / `WaitAsync`. A wait is an
  event carrying its duration.
- Input and file reading: `askNumber`, `Console.ReadLine`, `int.Parse` of the run parameters,
  data.txt and query.txt, and the `main` / `MainAsync` account loops. `numberOfGames` is a
  parameter.
- Random number generation: an oracle of naturals, reduced into the source's ranges.
- `Promise.all` batching. The batch size is 1, so one game runs per batch and nothing runs
  concurrently.
- The `gameNumber` and `batchNumber` parameters. They are only logged.
- JSON bodies that are valid but not objects (such as `null`) in index.js. The model has no such
  outcome; reading a field of `null` would throw.
- In Program.cs, exceptions other than HttpRequestException from `SendAsync`, such as a
  timeout's TaskCanceledException. `OtherError` stands for a refused connection, which the
  generic handler catches.
- Program.cs matches the exception message against "429" and "401". The model matches the
  status code.
- A user-info `score` outside the 32-bit range in Program.cs. `int.Parse` throws on it, while
  the model reads it as an integer; a `score` the model cannot read is `None`, which crashes.
- 32-bit wrap-around of `totalScore` in Program.cs. Reaching 2^31 takes more than two million
  rounds of at least 90 seconds each.
- ProgramCs.Login: when the stored init data is null (a re-login before any login, which
  `ProcessUserAsync` never does), the model adds no `tl-init-data` value.
- IndexJsProperties.LoginFailureKeepsHeaders and ProgramCsProperties.LoginFailureKeepsHeaders:
  stated only for a network without 401s, because the unconditional claim is false in both
  clients (IndexJsProperties.NestedReloginChangesHeaders,
  ProgramCsProperties.NestedReloginChangesHeaders).
- IndexJsProperties.RateLimitOnly and ProgramCsProperties.RateLimitOnly: stated only for a
  network without 401s. With 401s, re-logins add their own attempts without bound
  (LoginKeepsReentering).
- IndexJs.Request, IndexJs.Login, ProgramCs.Request and ProgramCs.Login: their own contracts
  state only the termination measure. What they do is stated in the properties modules.
