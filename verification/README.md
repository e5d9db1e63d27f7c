# cloudtap in Dafny

cloudtap runs a tunnel daemon and wraps the frp client behind an adapter. This project models
its five stateful pieces and its policy validation, and proves what holds over all of their
runs and interleavings.

- **Restart supervisor** (`Backoff`, `RestartHistory`, `FrpConfig`, `Supervisor`). The loop that
  starts frpc, waits for it, and restarts it with exponential backoff. The loop is a method over
  a script of rounds that says, for each turn, what the operating system and the context do; a
  claim about every script is a claim about every run. Durations are signed 64-bit nanoseconds
  and doubling wraps. Ghost fields record outcomes, sleeps, attempts and process events. The loop
  body is cut into methods (`Advance`, `Turn`, `AfterStartError`, `AfterStart`, `AfterExit`) at its branches.
- **Adapter protocol** (`AdapterProtocol`, `LoopRefinement`). Any number of concurrent Start and
  Stop calls, the loop, and the webhook goroutine, as atomic steps on the shared flags, the cancel
  function, the error channel and the done channel. `LoopRefinement` shows that each turn of the
  supervisor's loop is a run of the protocol's loop steps with the same outcome.
- **Webhook** (`Metadata`, `Events`, `Tracker`, `Webhook`). Event building with its map-merging
  loops, the request handlers as a class, and the connection tracker, whose map and counter are
  updated in separate steps.
- **Daemon shutdown** (`Daemon`). Both server goroutines, the HTTP server's listening helper, the
  closing goroutine and main, as atomic steps.
- **Tunnel manager** (`Manager`). Its critical sections as atomic steps of any number of callers,
  and the class whose methods carry them out.
- **Policy** (`Policy`). Validation and defaulting.

Where documentation and code differ, the model follows the code:

- `MaxRetries` 0 is documented as unlimited; the constructor turns it into 10, so no adapter ever
  retries without limit (`FrpConfig.LoopConfigIsLimited`).
- "After this many failures, Start returns an error" holds exactly once the context is cancelled
  or the webhook server has failed early, since Start waits for the webhook server first
  (`AdapterProtocol.GivenUpStartReturnsExactly`).
- A Stop that runs between Start's two assignments finds no cancel function, cancels nothing and
  keeps every later Stop from cancelling (`AdapterProtocol.StopWorksIffCancelIsSet`).
- The connection count is not the number of tracked connections once a live proxy has been
  registered again (`Webhook.WebhookServer.ActiveConnections`, `Tracker.CountAgainstMap`,
  `Tracker.DriftExample`).
- From 2^62 nanoseconds on, doubling a delay makes it negative. Whether a loop gets there depends
  on its retry limit too (`Backoff.ClosedFormExactlyUpTo`): with one second and ten retries it
  never does, whatever the cap.

## Model

| member | source | states |
|---|---|---|
| Backoff.NarrowDelay | pkg/adapter/frp/adapter.go:369-373 | with both settings below 2^62 ns, the delay after f failures is the initial delay for f = 0 and min(initial * 2^f, cap) otherwise, and it never exceeds the larger setting |
| Backoff.ClosedFormExactlyUpTo | pkg/adapter/frp/adapter.go:351-373 | with a limit of n failures, 64-bit doubling with a cap follows that closed form at every count below n if and only if n <= 1, or the initial delay is below 2^62 ns and so is the cap or initial * 2^(n - 2) |
| Backoff.ClosedFormExactlyWhenNarrow | pkg/adapter/frp/adapter.go:369-373 | without a limit it follows the closed form if and only if both settings are below 2^62 ns |
| Backoff.ShortLoopIsNarrow | pkg/adapter/frp/adapter.go:80-88 | one second and ten retries follow the closed form whatever the cap |
| Backoff.ScaledIsProduct | pkg/adapter/frp/adapter.go:369-370 | n doublings without wrapping are multiplication by 2^n |
| RestartHistory.FailuresAreTrailing | pkg/adapter/frp/adapter.go:398-416 | the failure count is n exactly if the last n outcomes are failures and the one before them is not |
| RestartHistory.ResetsAreOthers | pkg/adapter/frp/adapter.go:405-416 | the resets of a history are as many as its outcomes that are not failures |
| RestartHistory.BelowAtEveryPoint | pkg/adapter/frp/adapter.go:351-354 | "below the limit so far" means that the trailing failures of every prefix of the history are below it |
| RestartHistory.AllowanceIsProduct | pkg/adapter/frp/adapter.go:335-441 | the allowance of a history with k resets is (k + 1) * limit |
| RestartHistory.RetryBudget | pkg/adapter/frp/adapter.go:335-441 | a history whose failure count was below the limit until now stays within its allowance, by as much as its failure count is below the limit |
| RestartHistory.TotalWaitBounded | pkg/adapter/frp/adapter.go:425-437 | any history of n outcomes sleeps at most n times the larger setting, whatever the settings are |
| RestartHistory.TotalWaitNotNegative | pkg/adapter/frp/adapter.go:425-437 | while nothing wraps, the total is not negative |
| RestartHistory.AllFailingTotal | pkg/adapter/frp/adapter.go:363-376 | n failures in a row sleep at most initial * (2^n - 1), and exactly that if and only if n <= 1 or the last sleep is not capped |
| FrpConfig.LoopConfigIsLimited | pkg/adapter/frp/adapter.go:155-169 | defaulting does not change whether a configuration is valid; a valid one reaches the loop with positive delay, cap and retry limit, so unlimited retries are out of reach |
| Supervisor.Supervisor.constructor | pkg/adapter/frp/adapter.go:171-176 | a new adapter has no process, no attempts and no history |
| Supervisor.Supervisor.StartProcess | pkg/adapter/frp/adapter.go:444-472 | starts one child when none is live, or leaves everything but the attempt count alone on failure |
| Supervisor.Supervisor.StopProcess | pkg/adapter/frp/adapter.go:501-521 | signals the current child, by kill if the interrupt cannot be sent, and forgets it; does nothing without one |
| Supervisor.Supervisor.WaitProcess | pkg/adapter/frp/adapter.go:475-498 | without a command nothing happens; otherwise either the child is reaped and its error returned, or the context was cancelled and the child is signalled |
| Supervisor.Supervisor.AfterStartError | pkg/adapter/frp/adapter.go:347-377 | first backoff site: from any history the sleep, the new delay, the failure count and the verdict are those the history calls for, and at the head again attempts, sleeps and outcomes agree in number |
| Supervisor.Supervisor.AfterStart | pkg/adapter/frp/adapter.go:379-386 | the same promise with the wait included; if the context was cancelled meanwhile the loop halts, and a child not yet reaped has been signalled |
| Supervisor.Supervisor.AfterExit | pkg/adapter/frp/adapter.go:388-439 | second backoff site and both resets: the same promise after an exit, so the one formula for the delay survives clean, stable and short runs alike |
| Supervisor.Supervisor.Turn | pkg/adapter/frp/adapter.go:335-440 | one turn ends as the declarative verdict on its round says, and either restores the head invariant (delay a function of the failure count, no live child) or ends the loop; once the context is cancelled it starts nothing, leaves nothing live and forgets the command; otherwise it makes one attempt, and a child it started is reaped or, if the turn is cancelled while waiting, signalled |
| Supervisor.Supervisor.RunLoop | pkg/adapter/frp/adapter.go:331-441 | for every script: the loop goes on exactly while the verdicts say so; its sleeps and delay are those of its history, and while nothing wraps the delay is min(initial * 2^failures, cap); the error comes exactly when the trailing failures first reach the limit; nil only after cancellation; reconnectAttempts counts the attempts gone past; a last attempt is made exactly if the context is not cancelled when the last turn begins; children started are as many as the attempted rounds that start one; one child at a time; none is left live but one that the last turn abandoned, and that has been signalled |
| Supervisor.Supervisor.Advance | pkg/adapter/frp/adapter.go:335-440 | a turn as part of the run: it extends the rounds gone past, or returns with everything the loop promises |
| Supervisor.Supervisor.ReturnedWithinBudget | pkg/adapter/frp/adapter.go:335-441 | a loop that has returned made at most (k + 1) * MaxRetries start attempts, k being its resets |
| Supervisor.Supervisor.GaveUpAfterFailures | pkg/adapter/frp/adapter.go:351-376 | a loop that gave up after failures alone slept MaxRetries - 1 times, since it does not sleep after the last one, and in all as long as that many delays together |
| Supervisor.Supervisor.GaveUpTotal | pkg/adapter/frp/adapter.go:351-376 | that is at most RestartDelay * (2^(MaxRetries - 1) - 1), and exactly that if and only if MaxRetries <= 2 or the last sleep is not capped |
| Supervisor.Supervisor.DefaultTotal | pkg/adapter/frp/adapter.go:80-88 | with the default settings it is 511 seconds |
| Supervisor.Supervisor.HeadDelay | pkg/adapter/frp/adapter.go:369-373 | while nothing wraps, the delay at the head of the loop is min(initial * 2^failures, cap) and lies between zero and the larger setting |
| Supervisor.Supervisor.SleepsAreClosedForm | pkg/adapter/frp/adapter.go:363-376 | and so is every sleep after a failure, while a clean or stable exit is followed by the initial delay |
| Supervisor.VerdictMeans | pkg/adapter/frp/adapter.go:336-432 | the loop gives up exactly if the limit is reached before cancellation is seen; it halts only after cancellation; a cancellation that its selects take ends it one way or the other |
| Supervisor.FailureMeansShort | pkg/adapter/frp/adapter.go:327-411 | an attempt counts as a failure exactly if nothing started, or the child ended with an error after less than 30 seconds |
| Supervisor.CancelledExactly | pkg/adapter/frp/adapter.go:336-342 | the context is cancelled after some rounds exactly if it was before or one of them cancels it |
| Supervisor.CancelledStays | pkg/adapter/frp/adapter.go:336-342 | cancellation is monotone |
| Supervisor.OneAtEveryPoint | pkg/adapter/frp/adapter.go:444-521 | at every point of a run at most one child is live, and none is when a new one starts |
| Supervisor.AttemptBudget | pkg/adapter/frp/adapter.go:335-441 | a run with k resets makes at most (k + 1) * MaxRetries start attempts, an attempt cut off by cancellation included |
| Supervisor.FinitelyManyResetsEnd | pkg/adapter/frp/adapter.go:335-441 | the loop cannot go past (k + 1) * MaxRetries rounds with k resets, so it ends when resets do |
| AdapterProtocol.StepKeepsInv | pkg/adapter/frp/adapter.go:205-284 | every atomic step of every goroutine keeps the protocol invariant |
| AdapterProtocol.EveryRunIsSafe | pkg/adapter/frp/adapter.go:205-284 | in every interleaving: the done channel is closed at most once; one Start and one Stop get past their swaps; Stop returns nil only after the loop and the webhook server have returned; Start completes only after cancellation or an early webhook failure; the loop returns nil only after cancellation; the webhook's send never blocks |
| AdapterProtocol.EveryResultExplained | pkg/adapter/frp/adapter.go:205-284 | in every interleaving, by the steps of the run alone: a Start that completes returns the max-retries error if and only if its own last allowed attempt failed, and nil otherwise; it is refused if and only if it was refused up front or came late to its swap; a Stop returns that nothing was started if and only if it looked before any Start's swap or came late to its own, nil if and only if it saw the done channel closed, the timeout if and only if it timed out; the context is cancelled if and only if its owner cancelled it or a Stop called a cancel function already assigned; the webhook server has failed early if and only if it was rejected or could not listen |
| AdapterProtocol.CoreStepDescends | pkg/adapter/frp/adapter.go:246-253 | after cancellation every step of Start, its loop or the webhook goroutine lowers the rank |
| AdapterProtocol.NeverStuck | pkg/adapter/frp/adapter.go:246-253 | after cancellation such a step is enabled until the done channel is closed |
| AdapterProtocol.CancelledRunDrains | pkg/adapter/frp/adapter.go:246-283 | after cancellation every run has at most 11 such steps, and where none is left the done channel is closed |
| AdapterProtocol.MissedCancelNeverCloses | pkg/adapter/frp/adapter.go:264-283 | once the winning Stop has gone past a nil cancel, no run without outside cancellation or early webhook failure closes the done channel, so Stop can only time out |
| AdapterProtocol.QuietRunToClose | pkg/adapter/frp/adapter.go:246-253 | from every cancelled state there is a run to the closed done channel in which nobody cancels again and the webhook server does not fail, and a loop that gave up makes Start return the error |
| AdapterProtocol.StopWorksIffCancelIsSet | pkg/adapter/frp/adapter.go:270-273 | the winning Stop can lead to the closed done channel by itself if and only if it finds the cancel function set |
| AdapterProtocol.WindowIsReachable | pkg/adapter/frp/adapter.go:220-225 | a Stop can win while the cancel function is not yet set |
| AdapterProtocol.GivenUpStartReturnsExactly | pkg/adapter/frp/adapter.go:246-253 | once the loop has given up, Start can return the error without anybody cancelling and without a webhook failure to come if and only if the context is cancelled or the webhook server has failed already |
| AdapterProtocol.GivenUpStartWaits | pkg/adapter/frp/adapter.go:246-250 | otherwise Start does not return in any run in which nobody cancels and the webhook server does not fail before it serves |
| AdapterProtocol.GivingUpIsReachable | pkg/adapter/frp/adapter.go:346-354 | a state in which Start waits so is reachable |
| LoopRefinement.TurnIsProtocolRun | pkg/adapter/frp/adapter.go:335-440 | every turn of the supervisor's loop is a sequence of protocol steps with the same outcome |
| LoopRefinement.LoopIsProtocolRun | pkg/adapter/frp/adapter.go:331-441 | so is every sequence of turns that goes on |
| LoopRefinement.ReturnIsProtocolRun | pkg/adapter/frp/adapter.go:331-441 | and every return of the loop |
| Tracker.TrackedIffLive | pkg/adapter/frp/webhook.go:500-522 | a key is tracked if and only if its latest event stored it |
| Tracker.Conservation | pkg/adapter/frp/webhook.go:500-524 | under every interleaving, count + pending increments - pending decrements = tracked keys + overwrites of live keys |
| Tracker.CountAgainstMap | pkg/adapter/frp/webhook.go:298-301 | with nothing pending the count is at least the number of tracked keys, with equality if and only if no live key was registered again; always it is at least minus the pending increments |
| Tracker.DriftExample | pkg/adapter/frp/webhook.go:492-501 | registering a proxy twice and closing it leaves a count of one and nothing tracked |
| Tracker.Registration | pkg/adapter/frp/webhook.go:500-501 | a registration served without interference is a run of the tracker that adds one key and one to the count |
| Tracker.Removal | pkg/adapter/frp/webhook.go:522-524 | a removal served without interference is a run that takes the key away, and one off the count only if it was there |
| Tracker.KeysCollideExactly | pkg/adapter/frp/webhook.go:494 | keys of two run IDs can coincide if and only if one ID continues the other after a slash |
| Tracker.SlashFreeDistinguishable | pkg/adapter/frp/webhook.go:494 | run IDs without a slash never do |
| Tracker.RefinesPairsExactly | pkg/adapter/frp/webhook.go:492-524 | on every run over a set of run IDs the string-keyed map is a map keyed by (run ID, proxy name), if and only if no two of the IDs can be confused |
| Metadata.Merge | pkg/adapter/frp/webhook.go:417-419 | the merging loop gives the same map in whatever order it meets the entries |
| Metadata.MergeLeavesOthers | pkg/adapter/frp/webhook.go:479-484 | merging under one prefix neither overwrites nor adds a key under another, the reserved one included |
| Metadata.MergeIsRecoverable | pkg/adapter/frp/webhook.go:479-484 | the merged map can be read back under its prefix |
| Metadata.MergeKeepsRecoverable | pkg/adapter/frp/webhook.go:479-484 | what can be read back under another prefix stays the same |
| Events.Build | pkg/adapter/frp/webhook.go:397-419 | builds the event that its message calls for, whatever the order of map entries; every handler asks with it |
| Events.NewProxyMetadataRecoverable | pkg/adapter/frp/webhook.go:461-484 | the user's metas, the proxy's metas and the adapter's own entries can all be read back from a NewProxy event |
| Events.LoginEventSays | pkg/adapter/frp/webhook.go:397-419 | kind, user and connection ID of a Login event, and what stands under its five reserved keys whatever metas were merged in |
| Events.CloseAndUserConnSay | pkg/adapter/frp/webhook.go:529-618 | the same for CloseProxy and NewUserConn events |
| Events.NewProxyReserved | pkg/adapter/frp/webhook.go:450-484 | kind, user and connection ID of a NewProxy event; under a reserved key it has the adapter's own entry, whatever the metas are |
| Events.JoinedDomainsRecoverable | pkg/adapter/frp/webhook.go:471-473 | the list of custom domains can be read back from its joined form if no domain has a comma in it |
| Events.OtherMetadataRecoverable | pkg/adapter/frp/webhook.go:407-419 | the same for Login and NewUserConn events |
| Webhook.WebhookServer.constructor | pkg/adapter/frp/webhook.go:190-213 | a new server tracks nothing |
| Webhook.LiveIsRegistered | pkg/adapter/frp/webhook.go:492-524 | the tracker holds a key live exactly if the latest request about it was an allowed NewProxy |
| Webhook.OverwritesAreReregistrations | pkg/adapter/frp/webhook.go:500-524 | the overwrites in the tracker are the requests that registered a live proxy again |
| Webhook.NoReregistrations | pkg/adapter/frp/webhook.go:500-501 | there are none of those exactly if no request registers a key that the requests before it have left registered |
| Webhook.WebhookServer.ActiveConnections | pkg/adapter/frp/webhook.go:299-301 | returns the number of tracked proxies plus the number of requests that registered a live proxy again; so exactly the tracked proxies if and only if no request registered a key that was registered already |
| Webhook.WebhookServer.HandleNewProxy | pkg/adapter/frp/webhook.go:431-504 | tracks and counts the proxy if and only if the body is well formed and a handler allows it |
| Webhook.WebhookServer.HandleCloseProxy | pkg/adapter/frp/webhook.go:507-546 | untracks the proxy whatever the handler says, uncounting it only if it was tracked; never rejects |
| Webhook.RegisteredIsLatest | pkg/adapter/frp/webhook.go:492-524 | a key is registered exactly if some request registered it and none after that closed it |
| Webhook.AnswersAre | pkg/adapter/frp/webhook.go:351-373 | a rejection with a reason comes exactly for a readable Login, NewProxy or NewUserConn whose event the handler denies with that reason; each malformed rejection exactly for the unreadable body of its operation; nothing else is rejected |
| Webhook.WebhookServer.ProcessRequest | pkg/adapter/frp/webhook.go:351-373 | after any request a key is tracked if and only if the latest request about it was an allowed NewProxy rather than a well-formed CloseProxy; the count is the number of tracked keys plus the registrations of live ones; the answer is a denial with its reason exactly if the handler denies the event of a readable Login, NewProxy or NewUserConn, and a malformed rejection exactly for the unreadable bodies; the handler is given this request's event only |
| Daemon.StepKeepsInv | cmd/cloudtapd/main.go:44-94 | every atomic step of every goroutine keeps the shutdown invariant |
| Daemon.EveryRunIsSafeAndShort | cmd/cloudtapd/main.go:44-94 | in every interleaving: no send on the error channel blocks or follows its close; the channel is closed once; main ends only after both servers have returned, with an error if and only if one of them returned one, and reports the first sent; there are at most 16 steps besides signals |
| Daemon.FatalIsFirstError | cmd/cloudtapd/main.go:69-93 | in every interleaving that ends main, by the steps of the run alone: it ends with exactly this error if and only if the server that sent first was given it, and without an error if and only if gRPC serving returned none, the HTTP shutdown failed with none and no broken listener's error was received; a closed server is no error |
| Daemon.NoShutdownWithoutReason | cmd/cloudtapd/main.go:71-83 | without a signal, and until a server returns, main keeps waiting and the HTTP server keeps serving |
| Daemon.InvIsSafe | cmd/cloudtapd/main.go:198-225 | the HTTP helper's one send never blocks, and runHTTPServer returns without an error only after its listener has ended without one |
| Daemon.StepDescends | cmd/cloudtapd/main.go:50-87 | every step but a signal lowers the rank |
| Daemon.NeverStuck | cmd/cloudtapd/main.go:71-87 | after a signal or a server error there is a step owed until main has ended |
| Daemon.RunsAreBounded | cmd/cloudtapd/main.go:44-94 | steps made and rank left never add up to more than the initial rank |
| Daemon.ShutdownCompletes | cmd/cloudtapd/main.go:69-94 | once a signal has arrived or a server has failed, the daemon comes to rest only with main ended |
| Manager.StepKeepsInv | pkg/tunnel/manager.go:127-218 | every critical section keeps the manager's invariant |
| Manager.EnteredIsLastWins | pkg/tunnel/manager.go:212-215 | entering targets in order leaves the last one of each name and nothing else |
| Manager.CacheRefinesFeed | pkg/tunnel/manager.go:99-218 | in every interleaving the cache is the latest snapshot, or the seed, followed by the registrations since, last of each name winning |
| Manager.RefreshesAreSpaced | pkg/tunnel/manager.go:203-216 | in every interleaving consecutive refreshes are at least the interval apart |
| Manager.EnsureOutcome | pkg/tunnel/manager.go:191-218 | a failed refresh changes neither cache nor refresh time and keeps Open from its second step; success without fetching means the cache is younger than the interval |
| Manager.OpenTunnelIsLatest | pkg/tunnel/manager.go:154-170 | the tunnel that the history leaves open is that of the latest Open or Close of the name |
| Manager.HistoryIsCaused | pkg/tunnel/manager.go:127-218 | in every interleaving each recorded event has a step of the run behind it: a fetch one that was given that snapshot, an open one whose dial worked, of a name its caller asked for, a close one with a live context; and every registration is recorded |
| Manager.ActiveTunnelsExplained | pkg/tunnel/manager.go:137-172 | in every interleaving a name is active if and only if its latest successful Open or Close was an Open; it leads to the target of that name that the cache held when it was dialled, and that dial worked |
| Manager.OpenTunnelStaysClosable | pkg/tunnel/manager.go:159-172 | an open tunnel stays open and closable until it is closed, whatever refreshes drop from the cache |
| Manager.Manager.constructor | pkg/tunnel/manager.go:99-115 | starts from the seed, the last target of each name winning, with 30 seconds unless a positive interval is given |
| Manager.Manager.EnterAll | pkg/tunnel/manager.go:212-215 | the filling loop gives the map in which the last target of each name wins |
| Manager.Manager.RegisterTarget | pkg/tunnel/manager.go:127-134 | enters the target under its name and is the registration step, so the cache stays the feed with the target added last |
| Manager.Manager.EnsureTargets | pkg/tunnel/manager.go:191-218 | succeeds if and only if the context is live, there is a source, and the cache is young or discovery works; then the cache is the old one or, last of each name winning, what was discovered; a failure changes nothing; is the refresh step, so all that is proved of runs holds of the object |
| Manager.Manager.CommitOpen | pkg/tunnel/manager.go:142-155 | is Open's second step: succeeds if and only if the name is cached and dialling works; then the tunnel to the cached target is entered and nothing else, and otherwise no tunnel changes |
| Manager.Manager.Open | pkg/tunnel/manager.go:137-156 | is both steps in turn, the second only if the first succeeds; succeeds if and only if the refresh does, the refreshed cache has the name and dialling works; a failure leaves the tunnels as they were |
| Manager.Manager.Close | pkg/tunnel/manager.go:159-172 | is the closing step: succeeds if and only if the context is live and the tunnel is open, and then removes it alone |
| Policy.ProtocolsAccepted | pkg/policy/types.go:150-163 | the accepted protocols are the seven names, each letter in either case or as one of the two characters that fold onto it |
| Policy.ValidateMatch | pkg/policy/types.go:141-166 | accepts CIDR notation and the seven protocols up to case folding |
| Policy.NoOffenders | pkg/policy/types.go:108-117 | rules are valid and distinct in name if and only if none offends |
| Policy.ValidatePolicy | pkg/policy/types.go:98-120 | accepts if and only if the default is empty, allow or deny, all rules are valid and names are distinct; otherwise reports the default, or the first offending rule, preferring its own fault to a repeated name |
| Policy.Parse | pkg/policy/types.go:187-205 | returns a policy if and only if the decoded one is acceptable; it has the same rules and a default of allow or deny |
| Policy.KeptExactly | pkg/policy/types.go:108-117 | what a deletion leaves are the rules at the kept positions and no others |
| Policy.DeletingKeepsAcceptable | pkg/policy/types.go:98-120 | deleting any rules keeps a policy acceptable |

## Left out

- Policy evaluation, glob and CIDR matching: not implemented in the repository.
- CIDR notation, YAML and JSON decoding are inputs: a predicate on strings and already decoded messages.
- Ordering of connect, request and disconnect events: not enforced by the webhook code.
- Events.Build: events carry their connection ID, kind, user, protocol and metadata; event IDs, timestamps, addresses, ports and target strings are left out.
- Webhook.WebhookServer.ProcessRequest: each request is served as a whole, and the connection handler is a function of the event; interleavings of requests are in `Tracker`.
- Malformed Ping bodies need no model, since they are answered like well-formed ones.
- Signals, pipes, process output, logging, UUIDs and clocks are choices of the environment.
- That frpc, the webhook server and the servers react to cancellation is assumed where termination is claimed: the steps are enabled and counted, their scheduling is not modelled.
- Go's data race on the cancel field is modelled as an atomic read and write.
- The 32-bit counters are unbounded integers.
- Manager.Manager.Open: runs its two sections without interleaving; runs in which other callers come between are those of the step model.
- ListTargets: the sorted list of names is not modelled; the cache it reads is.
- Status, LastError and address parsing: plain reads or library behaviour.
- cloudtapctl, the dialer, generated gRPC code and telemetry: client plumbing and generated code.
