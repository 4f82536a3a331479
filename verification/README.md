# API pooling proxy: a verified model

This project models the request gate, the failover engine, the row store and the health
checker of the Rust proxy, and the console parser of the Java admin layer, in Dafny 4.11,
and proves properties of them. `dafny verify dfyconfig.toml` checks everything.

The components whose methods update fields are classes (`RateLimiter`, `BotProtect`,
`LoadBalancer`, `Database`, `HealthChecker`, `Server`, `AdminApi`). Each method is proved
against a function on the values of its fields, and the theorems are about runs of those
functions.

* **Gates.** `RateLimiting` and `BotProtection` treat the two in-memory gates over runs of
  calls with nondecreasing time, counted in nanoseconds. In both, a map swept in bulk is
  shown to answer every call as a machine for one key alone that is never swept, and that
  machine as a declarative account that only mentions call times. `Gates` puts the two in a
  row and settles when the per-IP limit can be the gate that refuses, if both read one clock:
  never iff it is at least the bot quota. `GateRuns` settles it for the concurrent pipeline,
  which reads the clock at each gate and lets requests wait between them: twice the quota with
  requests one at a time, one more for each that may wait, a quota more for each further minute
  of the rate window. The shipped settings (100 and 120) meet the first condition, not the second.
* **Load balancer.** `LoadBalancing` proves fairness of round-robin, that
  least-connections is round-robin until something completes, and when in-flight counts
  are exact.
* **Pipeline.** `Proxy.Advance` is one atomic step of one request: a lock, a database call
  or an awaited answer. `ProxyServer.Server.RouteRequest` is the sequential handler, a loop
  over mutable objects, proved to perform exactly those steps. `Concurrency` interleaves
  the steps of any number of requests with administration and health writes, and
  `Admissions`, `Accounting`, `UserKeyCounters`, `KeyCounters`, `Budget` and `Revocation`
  prove what holds in every state of every such run. `FailoverTurns` says which keys a
  request's attempts go to in either mode, whatever else runs meanwhile. `FailoverRuns`
  states everything the loop does when nothing interferes, and `ServedAlone` that such a run
  is one of the interleavings.
* **Store and health.** `Store` has the tables and their operations, `StoreRows` what each
  operation means for lookups, `StoreRuns` the invariant over all sequences of them, `Admin`
  the handlers that perform them, `Health` the probe history behind a provider's status, with
  the two writes of a probe kept apart.
* **Console.** `Cli` has the line splitter and the option parser.

Inputs of the model that the program draws from its surroundings: clock readings, random
identifiers and keys, whether an expiry date has passed, whether a body could be read,
what each upstream attempt meets, whether a probe reached its provider.

Where documentation and code differ, the code is followed. `docs/architecture.md` says
three consecutive failures make a provider inactive. The counter lives in the process, so
after a restart a provider already inactive stays so on a first failure
(`Health.RestartKeepsStatus`). And a probe's health and status are two database calls: a
provider re-added between them, on a third failure, ends up inactive with health 100
(`Health.TornHappens`). `Health.RowExpectedIff` says that these are the only exceptions.

The same document says that after a retriable answer the next key is tried. In round-robin
mode it is, unless other requests' turns have brought the same key up again
(`FailoverTurns.AttemptsCollideIff`). In least-connections mode every attempt goes to the first
candidate again (`FailoverTurns.LeastConnectionsStays`), because the pipeline never tells the
balancer that a request starts or ends.

The console skips a blank line and then reads the first argument of the others; a line such as
`""` has none, so reading it throws and ends the console (`Cli.NoArgumentIff`,
`Cli.QuotesHaveNoArgument`).

## Model

| member | source | states |
|---|---|---|
| RateLimiting.RateLimiter.CheckAndConsume | rust-core/src/rate_limiter.rs:26-51 | The in-place limiter returns the answer and leaves the buckets that `Consume` gives, sweep included |
| RateLimiting.RateLimiter.Reset | rust-core/src/rate_limiter.rs:53-55 | Forgets every bucket |
| RateLimiting.ConsumeSimulates | rust-core/src/rate_limiter.rs:28-50 | One call, of any key, keeps the stored bucket standing for the single-key limiter's, and answers as it does |
| RateLimiting.SweepingIsInvisible | rust-core/src/rate_limiter.rs:44-48 | Over every run the swept map stands for every key's own, never swept, limiter |
| RateLimiting.AdmitsAsSingleKey | rust-core/src/rate_limiter.rs:26-51 | Every decision of every run is the single-key limiter's |
| RateLimiting.Isolation | rust-core/src/rate_limiter.rs:26-51 | A key's decisions depend on its own calls only, whatever other keys do in two runs |
| RateLimiting.AdmitsIffGranted | rust-core/src/rate_limiter.rs:33-42 | A call is admitted iff fewer than its limit of the earlier calls in its tumbling window were admitted, windows being fixed by call times alone |
| RateLimiting.NextAdmittedIff | rust-core/src/rate_limiter.rs:33-42 | A call is admitted iff fewer calls of its key than its limit were since the start of its window, which is less than a window ago |
| RateLimiting.SweptInFigures | rust-core/src/rate_limiter.rs:44-48 | An admitted call that leaves more than 10 000 keys drops exactly those whose window is over, and any other drops none |
| RateLimiting.IntervalBound | rust-core/src/rate_limiter.rs:33-42 | At most L * (ceil(T / window) + 1) admissions of one key in any closed interval of length T, over any run |
| RateLimiting.IntervalBoundIsTight | rust-core/src/rate_limiter.rs:33-42 | For every limit and every whole number of windows the bound is attained; one window gives 2 * L |
| BotProtection.FromSettings | rust-core/src/bot_protect.rs:30-42 | Quota and block minutes as configured but at least one, both lists as given, so a block is at least as long as a window |
| BotProtection.BotProtect.Check | rust-core/src/bot_protect.rs:44-88 | The in-place check returns the decision and leaves the maps that `CheckStep` gives |
| BotProtection.OneTooManyIff | rust-core/src/bot_protect.rs:34-77 | On a fresh start, whatever other IPs do, the check after a watched IP's quota of checks is refused iff less than 60 s have passed since its first |
| BotProtection.ListedAnswers | rust-core/src/bot_protect.rs:45-53 | Everybody is let through if the protection is off, the whitelist always, the rest of the blacklist never |
| BotProtection.SweptInFigures | rust-core/src/bot_protect.rs:79-87 | A check that lets its IP through drops, if the last sweep is over 300 s ago, exactly other IPs' ended windows and blocks, else nothing |
| BotProtection.BotProtect.IsBlocked | rust-core/src/bot_protect.rs:90-96 | True iff a stored block has not ended |
| BotProtection.CheckSimulates | rust-core/src/bot_protect.rs:57-87 | One check, of any IP, keeps both maps standing for the single-IP state and answers as it does |
| BotProtection.AnswersAsSingleIp | rust-core/src/bot_protect.rs:79-87 | Sweeping both maps and other IPs' traffic never change an answer |
| BotProtection.BlockedIff | rust-core/src/bot_protect.rs:57-77 | A watched IP is refused at a check iff a check of it at most a block length ago was the one too many of its window |
| BotProtection.BlocksIff | rust-core/src/bot_protect.rs:64-77 | A check writes a block entry, ending a block length later, iff it is the one too many of its window |
| BotProtection.BlocksApart | rust-core/src/bot_protect.rs:57-77 | Over every run two writes of one IP's block entry are at least a block apart, so checks made while blocked extend nothing |
| BotProtection.ExcessIsCovered | rust-core/src/bot_protect.rs:64-85 | In every reachable state a count above the quota is one above it and covered by a block that outlasts its window, or its window is over |
| BotProtection.IsBlockedIff | rust-core/src/bot_protect.rs:90-96 | In every reachable state and at every time since its latest check, `is_blocked` holds iff the IP is watched and a trigger of it happened less than a block length ago |
| BotProtection.IsBlockedAgreesIff | rust-core/src/bot_protect.rs:90-96 | After a check `is_blocked` agrees with it, exactly unless the IP is refused by the blacklist |
| BotProtection.FreshQuotaAfterBlock | rust-core/src/bot_protect.rs:33-35 | The first check that counts after a block, and the following ones up to the quota, are allowed however they are spaced |
| Gates.LimiterKeysDistinct | rust-core/src/proxy.rs:147-195 | Limiter keys of IPs and of user keys never collide |
| Gates.SingleReadingDominationIff | rust-core/src/proxy.rs:133-154 | If both gates saw one clock reading, the per-IP limit would never refuse a watched IP iff it is at least the bot quota |
| GateRuns.ConcurrentDominationIff | rust-core/src/proxy.rs:133-154 | Over all concurrent runs with at most m requests of a watched IP between the gates at once, the per-IP limit never refuses one iff it is at least quota * (ceil(window / 60 s) + 1) + m - 1 |
| GateRuns.SurgeIsLimited | rust-core/src/proxy.rs:143-154 | For any smaller limit, a concurrent run in which it refuses one |
| GateRuns.SerialDominationIff | rust-core/src/proxy.rs:133-154 | With requests one at a time, a clock reading at each gate and the 60 s window: iff it is at least twice the quota |
| GateRuns.ShippedSettings | rust-core/src/config.rs:105-109 | 100 attempts and 120 requests per IP dominate with one reading, and not in the pipeline |
| LoadBalancing.LeastLoaded | rust-core/src/load_balancer.rs:44-55 | The leftmost candidate with the fewest requests in flight |
| LoadBalancing.LoadBalancer.Select | rust-core/src/load_balancer.rs:33-57 | Both modes: the candidate chosen and the state left are `Choose`'s; nothing only for no candidates |
| LoadBalancing.LoadBalancer.TrackStart | rust-core/src/load_balancer.rs:59-61 | One more request in flight for the key |
| LoadBalancing.LoadBalancer.TrackEnd | rust-core/src/load_balancer.rs:63-69 | One fewer, never below zero |
| LoadBalancing.TurnsGoRound | rust-core/src/load_balancer.rs:38-43 | A provider's turns go round its positions whoever is served in between |
| LoadBalancing.RoundRobinFair | rust-core/src/load_balancer.rs:38-43 | Each position is chosen the floor or ceiling of its share of the provider's turns, from any starting index |
| LoadBalancing.NearbyTurnsDiffer | rust-core/src/load_balancer.rs:38-43 | Turns of a provider fewer than n of its own turns apart choose different positions |
| LoadBalancing.LeastConnectionsIsRoundRobin | rust-core/src/load_balancer.rs:44-69 | Without completions the m-th pick is position m mod n and counts are the floor or ceiling of m / n |
| LoadBalancing.InFlightIff | rust-core/src/load_balancer.rs:59-69 | The in-flight count is starts minus ends iff no prefix of the trace ends more than it started |
| StoreRows.AddProviderMeans | rust-core/src/db.rs:298-310 | Goes through iff name and id are unused, says which is not, and then exactly the lookup of that name changes |
| StoreRows.DeleteProviderMeans | rust-core/src/db.rs:312-320 | Takes the provider, all its keys and all its models out of every lookup and leaves all others, in order |
| StoreRows.DeleteUndoesAdd | rust-core/src/db.rs:298-320 | In a store whose references hold, deleting a provider just added restores every table |
| StoreRows.AddProviderKeyMeans | rust-core/src/db.rs:322-340 | Goes through iff the provider exists and id and value are unused; the key becomes its provider's last candidate, no other provider's change |
| StoreRows.RemoveProviderKeyMeans | rust-core/src/db.rs:342-347 | Takes away the row with that id and no other, and says whether there was one |
| StoreRows.RemoveUndoesAdd | rust-core/src/db.rs:322-347 | Removing a key just added restores every table |
| StoreRows.AddUserMeans | rust-core/src/db.rs:396-413 | Goes through iff name and id are unused, says which is not, and then exactly the lookup of that name changes |
| StoreRows.AddUserKeyMeans | rust-core/src/db.rs:482-499 | Goes through iff id and value are unused, whoever the user is; the value then looks up an active, unused row, no other lookup changes |
| StoreRows.RevokeMeans | rust-core/src/db.rs:501-509 | An active value looks up a revoked row afterwards, every other lookup stays, the report is right, and a second time nothing changes |
| StoreRows.UseMeans | rust-core/src/db.rs:288-294 | The row with that id, looked up by its value, has one more use; every other lookup stays |
| StoreRows.SuccessMeans | rust-core/src/db.rs:245-251 | The row with that id has one more use and no failures; every other lookup stays |
| StoreRows.FailureMeans | rust-core/src/db.rs:253-259 | The row with that id has one more failure; every other lookup stays |
| StoreRows.NoneMarked | rust-core/src/db.rs:245-259 | Marking a key that has been removed meanwhile changes nothing |
| Store.Database.ImportModels | rust-core/src/db.rs:369-394 | The loop leaves the models of the fold `Import` and returns exactly the growth |
| Store.ImportIsStable | rust-core/src/db.rs:374-391 | When inserts succeed, what is appended is each trimmed, non-blank, new name once, in order of first appearance |
| Store.TrimmedCharacters | rust-core/src/db.rs:377-378 | Which characters around a model's name do not belong to it, by code point |
| Store.ImportKeepsNoRepeats | rust-core/src/db.rs:376-391 | A duplicate-free list stays so even when inserts fail |
| Store.ImportUnique | rust-core/src/db.rs:380-391 | Model rows keep distinct ids whatever ids an import draws |
| Store.ImportConcat | rust-core/src/db.rs:376-391 | Importing a ++ b is importing a, then b |
| Store.ImportIdempotent | rust-core/src/db.rs:376-391 | Importing the same names again adds nothing |
| Store.CandidatesDistinct | rust-core/src/db.rs:220-243 | The active keys listed for a provider are distinct |
| StoreRuns.DeleteStagesConsistent | rust-core/src/db.rs:316-318 | References hold after each of the three deletes of a provider |
| StoreRuns.ApplySound | rust-core/src/db.rs:298-509 | Every operation keeps rows unique and every reference pointing at a row |
| StoreRuns.RevokeExact | rust-core/src/db.rs:501-509 | Revoking touches the active row of that value and no other |
| StoreRuns.RunSound | rust-core/src/admin.rs:341-374 | The same over every interleaving of the operations, key generation being a lookup and a later insert; a user key row keeps its identity and its status only moves from active to revoked |
| StoreRuns.InsertConsistentIff | rust-core/src/admin.rs:346-358 | Inserting a user key keeps a consistent store so iff its user exists or the insert fails: why the handler looks the user up first |
| Admin.HandlersSound | rust-core/src/admin.rs:174-387 | Every handler served alone is a possible run of store operations, keeps the store consistent, and never reactivates or uncounts a user key |
| Admin.RefusedIffUnchanged | rust-core/src/admin.rs:174-387 | A handler answers with an error iff no table has changed; otherwise it has left one log entry |
| Admin.GeneratedKeyAuthenticates | rust-core/src/admin.rs:341-374 | A key handed out authenticates as its user's until it expires, with the limit and tier asked for, or else the configured limit and the user's tier |
| Admin.AddedUserHasTier | rust-core/src/admin.rs:310-327 | A user created has the tier asked for, or "default" |
| Admin.AddedKeyHasHeader | rust-core/src/admin.rs:200-213 | A key added keeps the auth header given, unless that is nothing but whitespace |
| Admin.AnswersInFigures | rust-core/src/admin.rs:174-387 | Every handler's status by its reason: 200 or 201, 400, 404 |
| Admin.RevokedKeyIsRefused | rust-core/src/admin.rs:376-387 | After a revocation, whatever its answer, the key opens nothing and every other key opens what it did |
| Admin.AdminApi.HandleGenerateKey | rust-core/src/admin.rs:341-374 | The handler, a lookup and then an insert, leaves the tables and the status of the run of store operations |
| Routing.RouteIff | rust-core/src/proxy.rs:156-169 | A path is routed to a provider and upstream path iff it is slashes, then these two, the second empty or from a slash to a non-slash, then slashes |
| Routing.NoRouteIff | rust-core/src/proxy.rs:157-161 | There is no route iff the path is nothing but slashes |
| Routing.TargetMeans | rust-core/src/proxy.rs:233-235 | The upstream URL is the base without its trailing slashes, the stripped path after the provider name character by character, and the query |
| Failover.ExactlyOneCompletion | rust-core/src/proxy.rs:245-314 | Given what attempts would meet, exactly one number of attempts completes a request |
| Failover.CompleteInFigures | rust-core/src/proxy.rs:245-439 | A completed list has one to three attempts, no more than candidates; all before the last met a network error, 5xx, 401, 403 or 429, and the last did not unless it had to be last |
| Proxy.StepFits | rust-core/src/proxy.rs:130-325 | Every step of a request, in any shared state, keeps its place and its history in agreement |
| Proxy.RefusalsInFigures | rust-core/src/proxy.rs:130-323 | The status of every refusal by where it happens: 403, 429, 400, 401, 404, 503, 502; a blocked IP is logged |
| Proxy.AuthenticationIff | rust-core/src/proxy.rs:156-185 | A request gets past authentication iff its path is not slashes alone and it presents the value of an active key that has no expiry date or has not reached it |
| ProxyServer.Solo | rust-core/src/proxy.rs:130-325 | A request served alone always ends |
| ProxyServer.Server.RouteRequest | rust-core/src/proxy.rs:130-325 | The sequential handler leaves the bot, limiter, balancer and database, and gives the reply, of the step machine run alone |
| ProxyServer.Server.AuthenticateKey | rust-core/src/proxy.rs:171-185 | Yields the key row or the status to refuse with, in the code's order |
| ProxyServer.Server.Forward | rust-core/src/proxy.rs:245-325 | The failover loop does the machine's steps; its early exits never fire and the selected candidate is always found |
| FailoverRuns.LoopInFigures | rust-core/src/proxy.rs:245-439 | By statuses: attempts go on past network errors, 5xx, 401, 403 and 429, and nothing else, up to three and the number of candidates; the answer is the last response met, or 502 |
| FailoverRuns.MovesOnIff | rust-core/src/proxy.rs:268-307 | With two candidates or more the first answer is returned iff it is outside 500..599 and not 401, 403 or 429; else a 2xx met second is |
| FailoverRuns.MarksInFigures | rust-core/src/proxy.rs:268-304 | A 2xx credits its key and clears its failures, a network error, 5xx, 401, 403 or 429 counts one, any other answer leaves all keys alone |
| FailoverRuns.FailoverAlone | rust-core/src/proxy.rs:245-325 | The whole loop: attempts made, reply, the log entries one by one, marks per attempt, user key charged iff answered, nothing else changed |
| FailoverTurns.AttemptsCollideIff | rust-core/src/proxy.rs:246-262 | In round-robin mode, in every concurrent run, two attempts of a request go to the same key iff the turns of that provider taken in between, by anybody, are a multiple of the number of candidates |
| FailoverTurns.LeastConnectionsStays | rust-core/src/load_balancer.rs:44-55 | In least-connections mode, in every concurrent run, every attempt of a request goes to the first of its candidates |
| FailoverTurns.AttemptsGoToDistinctKeys | rust-core/src/proxy.rs:246-262 | As long as no other request selects for the provider, and whatever else runs, attempts go to distinct candidates; with at most three, all failing, every one is tried |
| ServedAlone.SoloIsConcurrent | rust-core/src/proxy.rs:130-325 | Serving a request alone is one of the concurrent runs |
| Concurrency.EveryAnswerIsRight | rust-core/src/proxy.rs:245-439 | In every concurrent run the store is consistent, at most three attempts are made, each but the last past a network error, 5xx, 401, 403 or 429, and a finished request has answered the last response it met, or 502 |
| Admissions.SentMeansPassed | rust-core/src/proxy.rs:133-201 | In every concurrent run a request with anything sent upstream has passed the four gates, in order, each in a state that let it through |
| Admissions.TriedKeysWereActive | rust-core/src/proxy.rs:203-222 | In every concurrent run every key a request was sent with had been listed for it, active then, as a key of a provider it had before found active under the name in its path |
| Accounting.ProvidersNeverExceedUsers | rust-core/src/admin.rs:405-406 | In every state of every run the providers' total use does not exceed the users', if it did not at start-up |
| Accounting.QuietTotals | rust-core/src/proxy.rs:284-318 | With no request in flight the users' total has grown by exactly the answered requests |
| UserKeyCounters.UserKeyCountersExact | rust-core/src/db.rs:288-294 | In every run each user key counts exactly the charged requests admitted on it |
| KeyCounters.KeyCountersExact | rust-core/src/proxy.rs:268-304 | In every run each provider key's `used` counts its answers 200 to 299 and `failed` its network errors, 5xx, 401, 403 and 429 since the last of them |
| KeyCounters.RunLedger | rust-core/src/proxy.rs:270-311 | In every run each attempt is accounted for once and logged once, or about to be |
| Budget.KeyBudget | rust-core/src/proxy.rs:187-201 | In every run the upstream sends for requests one key got admitted in a span T are at most 3 * L * (ceil(T / window) + 1), L the key's own limit if positive, else the configured one |
| Budget.KeyGateIff | rust-core/src/proxy.rs:187-201 | In every run a request gets through its key's gate iff fewer requests than that limit were admitted on the key since its window began |
| Revocation.RevokedNeverReachesUpstream | rust-core/src/proxy.rs:174-180 | A revoked key stays revoked, and no request not past authentication by then is admitted or sent upstream with it |
| Health.HealthChecker.ProbeRound | rust-core/src/health.rs:31-46 | A round over the providers in the table at its start leaves the counters and tables of their probes, in order |
| Health.FailuresInFigures | rust-core/src/health.rs:34-45 | Undisturbed, a success leaves 100 and active, and failures after it 80, 60, 40, 20 and then 0, inactive from the third |
| Health.SecondFailureCosts | rust-core/src/health.rs:39-41 | Of two failures in a row the second leaves 20 points less than the first, never below zero |
| Health.CounterIsStreak | rust-core/src/health.rs:33-39 | The counter of a name is the number of its failed probes since its last successful one, across deletions and re-additions |
| Health.RowExpectedIff | rust-core/src/health.rs:34-45 | In every run, from any table, with the writes of a probe apart and anything in between: a row of a name not half written has the columns its history calls for iff it was not re-added between the two writes of its latest, third or later, failure; else it is inactive with health 100 |
| Health.OwedAt | rust-core/src/health.rs:36-45 | Between the two writes of a probe: after a success the row is active; from the third failure it has the health of its run, or is as inserted if it was re-added since |
| Health.TornHappens | rust-core/src/health.rs:41-44 | The exception is reachable for any provider in any table |
| Health.InactiveIff | rust-core/src/health.rs:34-45 | A row is inactive iff its run is three or more and its latest failure completed on it, or it was found so and has not been reached since |
| Health.ProbeOutcome | rust-core/src/health.rs:34-45 | When a probe is done: active after a success, inactive from the third failure, and the run's health iff the row was not re-added meanwhile |
| Health.ReactivatedOnlyByProbe | rust-core/src/health.rs:34-37 | A row that stays turns active exactly by its successful probe |
| Health.ReactivatedBetween | rust-core/src/health.rs:34-45 | Over any stretch of a run a name's row turns from not active to active only by a success or a re-add |
| Health.RestartKeepsStatus | rust-core/src/health.rs:26-26 | A row the checker found keeps its status until a success or a third failure |
| Cli.SplitArgs | java-admin/src/main/java/com/api/pool/cli/CLIHandler.java:512-532 | The loop returns `Split` |
| Cli.SeparatorsInFigures | java-admin/src/main/java/com/api/pool/cli/CLIHandler.java:519-523 | Which characters separate arguments, by code point |
| Cli.SplitKeeps | java-admin/src/main/java/com/api/pool/cli/CLIHandler.java:516-531 | The tokens of any line concatenate to exactly its kept characters |
| Cli.SplitTokens | java-admin/src/main/java/com/api/pool/cli/CLIHandler.java:516-531 | No token is empty or holds a quote |
| Cli.SplitEmptyIff | java-admin/src/main/java/com/api/pool/cli/CLIHandler.java:127-128 | A line has no first argument iff it keeps no character |
| Cli.NoArgumentIff | java-admin/src/main/java/com/api/pool/cli/CLIHandler.java:127-128 | A line has no first argument iff it holds only quotes and unquoted whitespace |
| Cli.QuotesHaveNoArgument | java-admin/src/main/java/com/api/pool/cli/CLIHandler.java:123-128 | A line of quotes alone gets past the check for blank lines and has none |
| Cli.TrimmedInFigures | java-admin/src/main/java/com/api/pool/cli/CLIHandler.java:123-123 | The console trims exactly the characters up to U+0020 |
| Cli.SplitRenderIff | java-admin/src/main/java/com/api/pool/cli/CLIHandler.java:511-532 | Splitting undoes quoting and joining iff no argument is empty or holds a quote |
| Cli.ParseOptions | java-admin/src/main/java/com/api/pool/cli/CLIHandler.java:494-509 | The loop returns `Parse` |
| Cli.OptionsInFigures | java-admin/src/main/java/com/api/pool/cli/CLIHandler.java:496-507 | An argument is an option iff it begins with two dashes, and is called what follows them |
| Cli.ParseIsSettings | java-admin/src/main/java/com/api/pool/cli/CLIHandler.java:496-507 | On every command line, skipping consumed values changes nothing: every position makes its setting, the last of a name winning |
| Cli.ParsePairsIff | java-admin/src/main/java/com/api/pool/cli/CLIHandler.java:493-509 | Rendered `--name value` pairs parse to the last value of each name iff every value that looks like an option is made up for by the other pairs: its name is set again, and so is the name it is taken for, unless that was blank |
| Cli.CommandLineIff | java-admin/src/main/java/com/api/pool/cli/CLIHandler.java:493-532 | The same for a command line typed with quotes, split and parsed |

## Left out

- RoundRobinFair: counters and indices are unbounded naturals, so the wrap of `usize` after 2^64 selections is not modelled; the same holds for `u64` counts and `used`/`failed` columns elsewhere, and `usize::MAX` as a starting minimum is "none seen yet".
- AttemptsGoToDistinctKeys: needs that no other request selects for the provider meanwhile; `AttemptsCollideIff` says exactly what happens otherwise.
- RowExpectedIff: leaves out the states in which a probe of the name is between its two writes (`OwedAt` has those); the counter and the first write are one event, the counter being the checker's own.
- SplitArgs: characters are Unicode scalar values, not UTF-16 units, and the option map has no insertion order.
- KeyCountersExact: provider key ids are never issued twice, as for the random UUIDs of the code.
- SQLite itself, its files, migrations and ignored I/O errors: a call is atomic and fails only on a broken constraint.
- HTTP transport, header filtering, credential injection, streaming, body replay, extraction of the user key and the client IP from headers.
- Admin sessions, login, password hashing, JSON bodies and responses, masking, and the log's message texts and timestamps.
- `list_models` and `list_providers` sort by name; the model lists in insertion order, on which nothing proved here depends.
- The Java `DatabaseManager` as a second writer of the same database, the text UI, configuration loading and session files.
