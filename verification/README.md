# CrossCloudAnalyser in Dafny

A model of the peer-to-peer market pipeline and proofs of what it keeps over every input and every run. Four parts:

- **Ledger and registry.** The hash-chained ledger, its linear verifier and the verifier task that appends to the chain it
  checks, the peer table, the two state files written through a temporary file and a rename, and the canonical JSON text that
  every hash is taken of. SHA-256 is an arbitrary function: where a theorem needs collisions not to happen, it exhibits the
  two colliding texts instead of assuming that there are none.
- **Peer runtime.** Registration, heartbeats and re-registration against a registry that may lose its state, over a network
  that may lose requests or only replies; bounded retries with exponential backoff; the fan-out of one ingested message.
- **Ingestion, anomaly, simulator.** The index of last messages across restarts, windows bounded per symbol and saved lazily,
  the statistics behind the rule score, the floored random walk.
- **Risk.** Returns, compounding, drawdown, value at risk, the right-aligned portfolio series; and, from end to end, that
  simulated prices always have a snapshot.

How to read it. `PyText` holds Python text: code points, surrogates included. `CanonicalJson`, `JsonParser`, `JsonRoundTrip`,
`JsonCanonical` and `JsonSpelling` are the encoder, a reader, what they do to each other (RFC 8259, sections 3 to 7), and the
text itself. `Ledger` and `TamperEvidence` are the chain as a value. `JsonState`, `Registry` and `RegistryStore` are files, tables and the store;
`RegistryProcess` interleaves store calls, `RegistryApp` is the handlers run alone. `ServiceRuntime` and `Overlay` are a peer
and its timed life. `Ingestion`, `IngestionService`, `AnomalyMath`, `AnomalyService`, `Simulator`, `RiskMath`, `PortfolioMath`
and `RiskService` follow the services; `IngestionProcess` interleaves the ingestion handlers; `CrossService`, `Redelivery`,
`Detection` and `Pipeline` span several. `Numbers` is shared arithmetic. Classes stand for the source's stateful objects; each
method is tied to a function of the old state, and the results are about those functions.

Where the code and its documents differ, the code is modelled:

- `docs/P2P_OVERLAY.md:52-54` says that discovery returns online peers; the code returns every peer with the capability, with
  a fresh status (`RegistryStore.CapableIgnoresStatus`).
- `docs/P2P_OVERLAY.md:79-81` says that tampering with a block invalidates every later one. The verifier accepts exactly the
  ledgers that are their own re-chaining (`Ledger.VerifiedIffRechained`): a cut at the end, or a suffix computed afresh,
  verifies. What holds is that nothing below an unchanged tip can change (`TamperEvidence.TipBinding`).
- Two different strings can have one canonical text: a surrogate pair and the character it stands for. The exact condition, for
  every two values, is `JsonCanonical.SameTextIffSameMerged`.
- A simulated price can move by more than the 8.7 % that the draws allow, because the price is rounded after the move. The
  bound with rounding is 8.705 %; `Simulator.DrawRangeHoldsIffRoundsInwards` says from which prices 8.7 % does hold.
- With `retries` of zero or less `route_with_retries` posts nothing, records a failure, and yet returns no error
  (`ServiceRuntime.Runtime.RouteWithRetries`).
- The drawdown's peak starts at the equity after the first return, so a first loss is not counted
  (`RiskMath.DrawdownRange`), and a repeat of the first event can change it (`Redelivery.FirstRepeatChangesDrawdown`).
- `_max_drawdown` divides by zero, and a risk computation then answers with an exception, exactly on the returns of
  `RiskMath.ZeroPeakIffWipedOut`. The prices 1 and 0 are enough (`RiskService.FallToZeroRaises`), and no later event mends it
  (`RiskService.RaisesForEver`).
- A larger move can undo an alert, because the isolation forest scores the event's own features
  (`AnomalyService.AlertSurvivesLargerMovesIff`).
- An injected anomaly is flagged unless it is the symbol's first message or the price floor holds it
  (`Detection.InjectedAnomalyIsFlagged`, `FirstMessageScoresZero`, `FloorCanHideInjected`).
- The text of a heartbeat's timestamp is not checked, and one that cannot be read makes every later query that meets the peer
  raise (`RegistryStore.UnreadableHeartbeatStopsQueries`).
- Ingestion requests run in threads without a lock: two of one symbol that overlap can leave the index behind the messages
  (`IngestionProcess.OverlapLosesIndex`).
- Ingestion derives a move from the prices as sent, the risk peer from the rounded ones. They agree around a price iff it is
  given to six decimals (`CrossService.NeverDisturbsIffOnGrid`).

## Model

| member | source | states |
|---|---|---|
| JsonRoundTrip.LoadsOfDumps | shared/utils/hashing.py:8-9 | For every value, reading its canonical text gives the value back with dict entries in key order and adjacent surrogate pairs combined |
| JsonRoundTrip.ParseRendered | shared/utils/hashing.py:8-9 | The compact text of any value is read back whole, whatever may follow it inside a larger text |
| JsonRoundTrip.ScanEscaped | shared/utils/hashing.py:8-9 | Every string escaped under ensure_ascii reads back as itself, surrogate pairs combined |
| JsonCanonical.RoundTripIffPaired | shared/utils/hashing.py:8-9 | The text is undone by the reader, up to entry order, iff no string has an adjacent surrogate pair |
| JsonSpelling.CanonAscends | shared/utils/hashing.py:9 | In every dict of a canonical text, at any depth, each key is below the keys after it: smaller at the first difference, or a proper prefix |
| JsonSpelling.BeforeIffLess | shared/utils/hashing.py:9 | The order that keys are sorted by is that of the first different code point |
| JsonSpelling.EscapeIsSpelled | shared/utils/hashing.py:9 | Printable ASCII stands for itself, seven characters have two-character escapes, all others `\u` and lower-case hexadecimal code units |
| JsonSpelling.ValuesAreSpelled | shared/utils/hashing.py:9 | The texts of lists, of the empty dict, of null and of the truth values, without blanks |
| JsonCanonical.SameMeaningSameText | shared/utils/hashing.py:8-9 | Values that differ in dict insertion order only, at any depth, have the same text |
| JsonCanonical.SameTextIffSameMerged | shared/utils/hashing.py:8-9 | Any two values have the same text iff they are equal with keys sorted and surrogate pairs combined, in keys too |
| JsonCanonical.TextDecidesMeaning | shared/utils/hashing.py:8-9 | Hence values without adjacent surrogate pairs have the same text iff they are equal up to dict order, bool and int kept apart |
| JsonCanonical.CanonKeepsMeaning | shared/utils/hashing.py:8-9 | Sorting the keys changes no value |
| JsonCanonical.MeaningFixesCanon | shared/utils/hashing.py:8-9 | Equal values have identical sorted forms |
| JsonCanonical.StringsShareTextIffMergedEqual | shared/utils/hashing.py:8-9 | Exactly when two strings have the same text |
| JsonCanonical.SurrogatePairSharesText | shared/utils/hashing.py:8-9 | Every surrogate pair has the text, hence the hash, of the character it stands for |
| JsonCanonical.EqualHashEqualValueOrCollision | shared/utils/hashing.py:12-17 | Any two values have the same hash iff they are equal, sorted and with surrogate pairs combined, or their two texts collide under SHA-256; without such pairs, iff they are equal or collide |
| Ledger.FirstBad | registry_service/store.py:88-107 | The position found is the first whose link or hash is wrong |
| Ledger.Verify | registry_service/store.py:88-107 | The verdict is valid iff every block passes both checks |
| Ledger.VerifyNamesFirstBad | registry_service/store.py:88-107 | A failing verdict names the id of the first failing block, and which of the two checks failed |
| Ledger.AppendKeepsVerdict | registry_service/store.py:67-82 | An append changes neither the verdict nor the block it names, on intact and on broken ledgers |
| Ledger.TruncationVerifies | registry_service/store.py:88-107 | Every prefix of a verified ledger verifies, so a cut at the end is not seen |
| Ledger.VerifiedIffRechained | registry_service/store.py:88-107 | A ledger verifies iff computing all its links and hashes afresh changes nothing; ids are not checked |
| JsonSpelling.HeaderIsSpelled | registry_service/store.py:126-136 | The text that a block hash is taken of, in full: each of the six fields under its own name, in key order |
| TamperEvidence.HeaderMeaningFixesHeader | registry_service/store.py:126-136 | The hashed dict determines all six header fields |
| TamperEvidence.EqualHashEqualHeaderOrCollision | registry_service/store.py:126-136 | Equal block hashes come from equal headers or from colliding texts |
| TamperEvidence.TipBinding | registry_service/store.py:88-107 | Two verified ledgers with equal tip hashes are equal block for block, length included, or a pair of colliding header texts is found at equal depth |
| TamperEvidence.HashBindsPrefix | registry_service/store.py:88-107 | A block hash at any height of a verified ledger fixes that height and everything below it, or a collision is found |
| TamperEvidence.BuiltRecords | registry_service/store.py:67-82 | A ledger built by appends alone verifies, is numbered from 1, and records each request |
| TamperEvidence.TipBindsHistory | registry_service/store.py:67-107 | The tip hash fixes the number of appends and each one's time, event, actor and payload, or headers or payloads collide |
| JsonState.SaveIsAtomic | shared/storage/json_state.py:20-36 | No step of a save but the rename changes what any file loads as, and the rename replaces it whole |
| JsonState.FileSystem.SaveJsonFile | shared/storage/json_state.py:20-36 | The disk states a save goes through: temporary file torn, then whole, then renamed onto the target |
| Registry.PutThenLookup | registry_service/store.py:28-33 | A stored peer is found again, and no other entry of the table changes |
| Registry.FromItemsIsIdentity | registry_service/store.py:145-155 | Loading a saved peer table gives the same table in the same order |
| Registry.RecoverDuringSave | registry_service/store.py:145-168 | What a restart finds after a stop at each step of saving the two files |
| Registry.CrashAtomicIffOneFileChanges | registry_service/store.py:157-168 | A stop at any step leaves the state before or the state after, iff at most one of the two files changes |
| RegistryStore.InMemoryRegistryStore.Open | registry_service/store.py:145-155 | Starting on a disk gives the state recovered from it, and fails iff a file does not load |
| RegistryStore.InMemoryRegistryStore.SaveState | registry_service/store.py:157-168 | Memory and disk agree afterwards; the exact disk states on the way |
| RegistryStore.InMemoryRegistryStore.UpsertPeer | registry_service/store.py:28-33 | The peer is stored online and heard now, the ledger is untouched, and the call is crash-atomic |
| RegistryStore.InMemoryRegistryStore.HeartbeatPeer | registry_service/store.py:35-49 | A known peer's status and time are replaced, an unknown one writes nothing; crash-atomic |
| RegistryStore.InMemoryRegistryStore.AppendBlock | registry_service/store.py:67-82 | One linked and hashed block is appended, the peers are untouched; crash-atomic |
| RegistryStore.InMemoryRegistryStore.VerifyLedger | registry_service/store.py:88-107 | The loop gives the verdict of the specification |
| RegistryStore.InMemoryRegistryStore.PeerCounts | registry_service/store.py:109-113 | The counts are those of each status and add up to the table; it answers iff every stored timestamp can be read |
| RegistryStore.InMemoryRegistryStore.PeersWithCapability | registry_service/store.py:62-65 | The two comprehensions give the peers with the capability, in table order, or raise at a timestamp that cannot be read |
| RegistryStore.CapableAnswersIffReadable | registry_service/store.py:62-65 | A capability query answers iff the timestamp of every peer with the capability can be read |
| RegistryStore.CapableIgnoresStatus | registry_service/store.py:62-65 | An answer holds a peer iff it advertises the capability, stale and offline peers included |
| RegistryStore.MatchingInOrder | registry_service/store.py:62-65 | Each matching peer is found once, in table order |
| RegistryStore.UnreadableHeartbeatStopsQueries | registry_service/store.py:35-65 | After one heartbeat with a timestamp that cannot be read, queries for that node's capabilities and the counts fail, whatever other nodes do, until the node is heard again |
| RegistryStore.CrashKeepsVerdict | registry_service/store.py:67-82 | After a stop at any step of an append the recovered ledger has the verdict it had before, and the same error |
| RegistryProcess.EveryRunKeepsInv | registry_service/main.py:35-144 | Over every interleaving of store calls and restarts, from any ledger: earlier blocks stay, each new block is its origin's request, the verdict stays, accepted calls equal written blocks plus paused and cut-off handlers, and no node is dropped from the table |
| RegistryProcess.FromEmptyLedgerAlwaysVerifies | registry_service/main.py:35-144 | From an empty ledger every run keeps the ledger verified and numbered 1 to n, and no failure is ever counted or recorded |
| RegistryProcess.AlteredLedgerFailsForEver | registry_service/main.py:35-58 | From an altered ledger every verifier run counts one failure with the same error, and each failure has one block, is pending, or was cut off |
| RegistryProcess.LedgerOnlyGrows | registry_service/main.py:97-146 | Every ledger of a run is a prefix of every later one |
| RegistryProcess.NextKeepsVerdict | registry_service/main.py:35-58 | No store call changes the verdict, and failures move with runs only while it is bad |
| RegistryProcess.NextConserves | registry_service/main.py:97-123 | Every store call keeps the balance of accepted calls and written blocks |
| RegistryProcess.AcceptedCallsAreRecorded | registry_service/main.py:97-123 | Over every run the new blocks that say peer_registered, less those asked for, with the handlers paused or cut off, are the accepted registrations; likewise for peer_heartbeat and ledger_verification_failed |
| RegistryProcess.EveryUpsertIsAccepted | registry_service/store.py:28-33 | The accepted registrations are the upsert calls of the run |
| RegistryProcess.RegistrationSays | registry_service/main.py:98-105 | A registration's payload holds every field of the peer under its key, undeclared ones last |
| RegistryProcess.HeartbeatSays | registry_service/main.py:116-122 | A heartbeat's payload holds its status and its time |
| RegistryProcess.ReportSays | registry_service/main.py:49-55 | A report's payload holds the message of the first failing block and the block count |
| RegistryApp.App.RegisterPeer | registry_service/main.py:97-106 | Undisturbed, a registration stores the peer online and heard now, and appends one peer_registered block of that node that records every field of it |
| RegistryApp.App.PeerHeartbeat | registry_service/main.py:110-123 | Undisturbed, a heartbeat changes status and time, and appends one peer_heartbeat block that records both; an unknown peer gets 404 and nothing is written |
| RegistryApp.App.VerifierRound | registry_service/main.py:35-60 | One round counts a run and notes its time; on a bad ledger it counts a failure and appends one ledger_verification_failed block with the error and the block count, else it changes nothing |
| ServiceRuntime.Runtime.RegisterOrHeartbeat | shared/runtime/service_runtime.py:154-173 | One tick against the registry's handlers, for each fate of the request: a registration until one was answered, then a heartbeat; which block it leaves, who is in the table, and registered iff a good answer came back |
| ServiceRuntime.Runtime.TryRoute | shared/runtime/service_runtime.py:103-125 | The attempts made, their target, the time slept, and the body or the last error |
| ServiceRuntime.Runtime.RouteWithRetries | shared/runtime/service_runtime.py:85-147 | Success iff an attempt is accepted, at the first that is, without audit record; otherwise every attempt was made and exactly one routing_failed append is tried; an error iff none is accepted for positive retries, never an error for others |
| ServiceRuntime.AttemptCount | shared/runtime/service_runtime.py:103-125 | The number of attempts is the first accepted one, or all |
| ServiceRuntime.PausesClosedForm | shared/runtime/service_runtime.py:124-125 | k pauses add up to backoff * (2^k - 1) |
| ServiceRuntime.DeliveredMeansProcessed | shared/runtime/service_runtime.py:103-113 | A delivered route was processed by the target at least once and at most as often as retries allow |
| ServiceRuntime.FailedRouteSays | shared/runtime/service_runtime.py:127-145 | A routing_failed record holds target, URL, event type, attempts, and the last error or unknown, under their keys |
| Overlay.OnlineIffWithinNinetySeconds | shared/runtime/service_runtime.py:149-173 | With ticks at most I seconds apart and at most m requests lost in a row, from m + 2 ticks after a start or a loss of registry state on the peer is online at every query, iff (m + 1) * I <= 90 |
| Overlay.RunKeepsSettling | shared/runtime/service_runtime.py:149-173 | Over every such run the peer has been heard recently enough or is about to register |
| Overlay.TwoReachedTicksRestore | registry_service/main.py:110-114 | Whatever the registry holds, two ticks that reach it leave the peer in the table, heard at the second |
| Overlay.SilenceIsReported | registry_service/store.py:115-123 | A peer that falls silent is online for 90 seconds, stale up to 180 and offline after, whatever other peers do |
| Overlay.TickKeepsNodes | registry_service/store.py:28-49 | Re-registration after a lost reply leaves the set of nodes as it was |
| Ingestion.IndexEqualsScan | aws_ingestion/service.py:34-70 | With one request at a time, in every reachable state the index is what a scan of the raw messages gives |
| Ingestion.ScanFindsLast | aws_ingestion/service.py:106-110 | The scan maps a symbol to the last raw message for it |
| Ingestion.NormalizedSays | aws_ingestion/service.py:35-56 | An event holds price, volume, both relative changes and the notional value of its message, each under its own key and to half a unit in the sixth decimal |
| Ingestion.RestartsChangeNothing | aws_ingestion/service.py:106-119 | A run with restarts anywhere ends in the state of the run without them |
| IngestionProcess.IndexEqualsScanUnlessOverlap | aws_ingestion/service.py:34-60 | With handlers interleaved at every change of the shared lists, the index of a symbol that no handler is busy with is what a scan gives, unless two handlers of one symbol have overlapped between listing and writing the index |
| IngestionProcess.OverlapLosesIndex | aws_ingestion/service.py:58-60 | An overlap after which the index holds an older message than a scan, and so a restart, finds |
| IngestionProcess.LostIndexShows | aws_ingestion/service.py:35-42 | The next event then tells the two apart |
| IngestionProcess.UndisturbedIsIngest | aws_ingestion/service.py:34-60 | The steps of one handler, undisturbed, are one ingest |
| IngestionService.Service.IngestMessage | aws_ingestion/service.py:34-70 | The event, lists and index of the specification; every append and every post of the fan-out in order; exactly one of the two counters goes up, and the invariant keeps their sum equal to the ingests since start |
| IngestionService.Service.Record | aws_ingestion/service.py:34-61 | The message is normalised against its predecessor, listed, indexed and saved |
| IngestionService.Service.StoreNormalizedEvent | aws_ingestion/service.py:72-81 | An event is listed and saved; neither index nor counters move |
| IngestionService.Service.RouteToCapability | aws_ingestion/main.py:22-53 | The failures counted and the appends tried over all discovered peers |
| IngestionService.Service.RouteEvent | aws_ingestion/main.py:56-85 | It raises iff some peer failed, after contacting all three groups |
| IngestionService.EveryPeerIsContacted | aws_ingestion/main.py:31-41 | Every discovered peer is contacted, whatever failed before it |
| IngestionService.IngestAppendCount | aws_ingestion/main.py:22-85 | One ingest tries 1 + detect successes + store successes + failures of all three groups appends |
| IngestionService.FanOutSays | aws_ingestion/main.py:22-85 | What each append of a fan-out says, peer by peer: routed to the anomaly or the risk service, or given up after three attempts with path, kind and last error; only failures for computing peers |
| IngestionService.ThreeAttempts | shared/runtime/service_runtime.py:19-20 | By default at most three attempts, a quarter and half a second apart |
| IngestionService.EventRecordSays | aws_ingestion/service.py:63-68 | An ingested or stored event is recorded under its event type, with its texts under their keys |
| AnomalyMath.ScoreRangeAndMonotone | azure_anomaly/service.py:112-127 | The rule score lies in [0, 1] and does not fall when a move grows |
| AnomalyMath.ScoreOfPermutation | azure_anomaly/service.py:112-127 | The rule score depends on the window as a multiset |
| AnomalyMath.ScoreWithoutSamples | azure_anomaly/service.py:116-117 | Without samples the rule score is eight price moves and three volume moves, at most 1 |
| AnomalyMath.ScoreOfSteadyWindow | azure_anomaly/service.py:119-127 | Against samples that all moved alike the score is 65 % of the price move and 35 % of the volume move, each in units of theirs |
| AnomalyMath.ScoreOfStillWindow | azure_anomaly/service.py:125-127 | Against samples below the floors the units are 1 % and 2 % |
| AnomalyMath.BaselineOfTwo | azure_anomaly/service.py:122-123 | The baseline of two moves is the larger and half of their distance |
| AnomalyMath.TailBound | azure_anomaly/service.py:122-123 | Less than a fifth of any window exceeds its mean by more than two population deviations |
| AnomalyMath.BaselineTailBound | azure_anomaly/service.py:122-126 | Less than a fifth of a window exceeds the baseline as the score uses it, floor included |
| AnomalyService.PushIsLast | azure_anomaly/service.py:47 | Appending to the bounded deque is appending to the whole log and keeping its end |
| AnomalyService.Service.AnalyzeEvent | azure_anomaly/service.py:39-70 | The sample is always logged; alert, save and ledger note happen iff the score reaches the threshold; the alert's severity, score and reason are those of the score; the windows stay the ends of the logs |
| AnomalyService.Service.ReviewAlert | azure_anomaly/service.py:72-86 | Only the status of the named alert changes, the samples on disk are brought up to date, and the whole review is noted |
| AnomalyService.Service.Restart | azure_anomaly/service.py:165-173 | No alert and no review is lost, and of the samples exactly those since the last save |
| AnomalyService.AlertTells | azure_anomaly/service.py:54-62 | An alert names its event, is critical, high, medium or low from the scores 0.95, 0.9 and 0.85 on, and its reason names what is beyond 3 %, 20 % and the raw score 0.63, or that nothing is |
| AnomalyService.ModelScoreIs | azure_anomaly/service.py:130-137 | The model score rises in a line from 0 to 1 between the raw scores 0.35 and 0.7, and takes twelve samples |
| AnomalyService.RaisesWithoutSamplesIff | azure_anomaly/service.py:116-117 | Before any sample an event raises an alert whatever the forest says iff eight price moves and three volume moves reach the threshold |
| AnomalyService.AlertIffScoreReaches | azure_anomaly/service.py:39-60 | The deciding score lies in [0, 1] and does not fall with the forest's raw score; an alert is made iff it reaches the threshold |
| AnomalyService.RaisesWhateverForestIff | azure_anomaly/service.py:39-60 | An event raises an alert whatever the forest says of it iff its rule score alone reaches the threshold |
| AnomalyService.LargerMovesAlertIff | azure_anomaly/service.py:39-60 | All events with moves at least as large raise alerts, whatever the forest says of each, iff the rule score of the smallest reaches the threshold |
| AnomalyService.AlertSurvivesLargerMovesIff | azure_anomaly/service.py:112-137 | No forest lets a larger move undo an alert, iff the features are the same, or the window has less than 12 samples, or the threshold exceeds 1, or the larger move's rule score reaches it |
| Simulator.NextPriceMove | simulator/mqtt_publisher/generator.py:18-27 | One message moves the price by at most 8.705 % |
| Simulator.RoundingExceedsDrawRange | simulator/mqtt_publisher/generator.py:20-27 | Two draws from the first quote of AAPL, the second of which moves the price by more than 8.7 % |
| Simulator.DrawRangeHoldsIffRoundsInwards | simulator/mqtt_publisher/generator.py:20-27 | From which prices every move stays within 8.7 %: those whose millionths, times 87, leave a remainder by 1000 that is rounded down, ties to even |
| Simulator.WalkIsTame | simulator/mqtt_publisher/generator.py:18-27 | Over every run prices are at least a cent, on the six-decimal grid, and each return is within 8.705 % |
| Simulator.MarketSensorSimulator.constructor | simulator/mqtt_publisher/generator.py:9-16 | The four initial quotes, each the start of a walk; a cycle over all of them cannot fail |
| Simulator.MarketSensorSimulator.NextMessage | simulator/mqtt_publisher/generator.py:18-37 | The message carries the next price of its symbol's walk: within 0.705 % and 12 % in the volume without an anomaly; with one, 7.295 % the way the coin says unless the floor holds it, and from 32 % to 58 % in the volume; other symbols stay, an unknown one changes nothing |
| Simulator.MessageMoves | simulator/mqtt_publisher/generator.py:20-28 | Those bounds, for every quote and every draw |
| Simulator.InjectedIntoApple | simulator/mqtt_publisher/generator.py:23-28 | AAPL's first quote with an anomaly, draws 0 and coin up: price 226.8, volume 2175000 |
| Simulator.MarketSensorSimulator.GenerateCycle | simulator/mqtt_publisher/generator.py:39-49 | One message per selected symbol in order, each following the quote that those before it leave, with an anomaly for the given symbol only; all four symbols by default; it fails iff a symbol is unknown, at the first such, with the draws before it made |
| Simulator.SentPricesAreWalk | simulator/mqtt_publisher/generator.py:18-37 | The prices sent, without the initial quote, are a walk of the simulator |
| Simulator.SimulatedRiskIsDefined | gcp_risk/service.py:49-71 | Over simulated prices and without shorts or leverage every portfolio return is within 8.705 % and every measure is defined |
| RiskMath.CompoundingUndoesReturns | gcp_risk/service.py:111-117 | Compounding the returns between two moments gives the ratio of the prices |
| RiskMath.EquityIsRelativePrice | gcp_risk/service.py:132-136 | The equity curve at k is the price at k + 1 over the first price |
| RiskMath.RollingReturnIsPriceChange | gcp_risk/service.py:146-154 | The rolling return is the relative price change over the window, or over the whole series if it is shorter |
| RiskMath.DrawdownIsWorstFall | gcp_risk/service.py:138-144 | The one-pass loop finds the least relative change from any point to itself or a later one |
| RiskMath.DrawdownRange | gcp_risk/service.py:128-144 | For returns above -1 the drawdown lies in (-1, 0] and is 0 iff no return after the first is negative |
| RiskMath.FlatPeriodKeepsDrawdown | gcp_risk/service.py:128-144 | A zero return inserted anywhere after the first return leaves the drawdown as it was |
| RiskMath.ZeroPeakIffWipedOut | gcp_risk/service.py:132-143 | The loop divides by zero iff some return is exactly -1 and is the first, or the first is below -1 and those between are above -1 |
| RiskMath.ZeroPeakIffFallsToZeroFirst | gcp_risk/service.py:111-143 | For prices that are not negative it does iff the first price that is not zero is followed by a zero |
| RiskMath.VarIsOrderStatistic | gcp_risk/service.py:120-125 | The value at risk is one of the returns, with at most t below it and at least t + 1 at or below it |
| RiskMath.VarOfPermutation | gcp_risk/service.py:120-125 | The value at risk does not depend on the order of the returns |
| RiskMath.VarFallsWithConfidence | gcp_risk/service.py:120-125 | More confidence never gives a higher value at risk |
| PortfolioMath.CommonLengthIsLeast | gcp_risk/service.py:53-54 | The common length is that of the shortest non-empty series, 0 if all are empty |
| PortfolioMath.SeriesOfPermutation | gcp_risk/service.py:49-66 | The portfolio series does not depend on the order of the positions |
| PortfolioMath.SeriesOfSplit | gcp_risk/service.py:49-66 | A position may be split into two of the same symbol |
| PortfolioMath.SinglePositionSeries | gcp_risk/service.py:49-66 | One position of weight 1 has the series of its symbol |
| PortfolioMath.SeriesStaysWithin | gcp_risk/service.py:60-66 | Weights that are not negative and add up to at most 1 keep the series within the bound of its symbols |
| RiskService.MaxDrawdown | gcp_risk/service.py:127-144 | The two loops give the drawdown of the specification, and divide by zero exactly on returns that wipe the portfolio out |
| RiskService.RaisesIffFallsToZeroFirst | gcp_risk/service.py:44-90 | For a portfolio of one symbol and prices that are not negative, the computation raises iff the first price that is not zero is followed by a zero |
| RiskService.RaisesForEver | gcp_risk/service.py:37-42 | Once the computation for one symbol raises, it raises after every later event |
| RiskService.FallToZeroRaises | gcp_risk/service.py:111-143 | An input on which it raises: the prices 1 and 0 |
| RiskService.StoreAllAppends | gcp_risk/service.py:37-38 | Over any run of events a symbol's list grows by exactly its own, in order |
| RiskService.RollingReturnOf | gcp_risk/service.py:146-154 | The loop gives the compounded return of the window |
| RiskService.VolatilityIsAnnualDeviation | gcp_risk/service.py:68 | The square of the volatility is 252 times the population variance |
| RiskService.Service.PortfolioReturnAt | gcp_risk/service.py:60-66 | One entry is the weighted sum of the entries as far from the end, every index in bounds |
| RiskService.Service.PortfolioReturns | gcp_risk/service.py:49-66 | The loops give the right-aligned weighted series |
| RiskService.ComputedSays | gcp_risk/service.py:68-80 | Field by field, what a snapshot says: the root of 252 times the variance; one of the returns with at most a twentieth below it; the worst fall of the equity curve; zeros without returns |
| RiskService.RollingReturnSays | gcp_risk/service.py:71-80 | For one symbol with positive prices the rolling return is the relative change of the price over 24 steps, or over all |
| RiskService.Service.ComputeRisk | gcp_risk/service.py:44-90 | The snapshot of the specification is listed, recorded and saved; an exception changes nothing |
| RiskService.Service.IngestEvent | gcp_risk/service.py:37-42 | The event is stored whether or not the computation it sets off succeeds; other symbols stay; a snapshot is listed and recorded iff one was computed |
| RiskService.Service.SetPortfolio | gcp_risk/service.py:32-35 | The portfolio is replaced and saved |
| CrossService.ForwardedAreMade | aws_ingestion/service.py:34-56 | Over restarts and other symbols, each event forwarded for a symbol is made of its message and the symbol's message before |
| CrossService.ForwardedCarries | aws_ingestion/service.py:34-56 | So the events carry the rounded prices and the rounded moves from the prices sent before, whatever the prices |
| CrossService.ServicesAgreeIff | gcp_risk/service.py:111-117 | The services agree on a symbol iff the returns of its rounded prices are its rounded returns, to 5e-7 |
| CrossService.ReturnsMatchAttachedMoves | gcp_risk/service.py:111-117 | The returns the risk peer derives are the moves ingestion attached, predecessors of price zero dropped, to 5e-7, for prices given to six decimals |
| CrossService.NeverDisturbsIffOnGrid | aws_ingestion/service.py:35-48 | Among prices to six decimals, a price leaves the two services in agreement in every feed iff it is given to six decimals |
| CrossService.OffGridPriceDisagrees | aws_ingestion/service.py:48 | A price off the six decimals after which the derived return is far from the attached move |
| CrossService.OffGridPriceLosesReturn | gcp_risk/service.py:116 | A price that is stored as zero, after which the return is lost |
| Redelivery.RepeatsKeepMeasures | gcp_risk/service.py:128-144 | Repeats of prices that have a price before them leave the equity, peak and drawdown of the loop as they were |
| Redelivery.RepeatsStayWithin | gcp_risk/service.py:111-117 | Repeated prices keep the returns within any bound they were in |
| Redelivery.FirstRepeatKeepsDrawdownIff | gcp_risk/service.py:138-144 | A repeat of the first price keeps the drawdown iff every fall from the first price is matched by one from a later price |
| Redelivery.FirstRepeatChangesDrawdown | gcp_risk/service.py:138-144 | After a fall from the first price the drawdown is 0, and negative with the first price repeated |
| Detection.SimulatedAnomalyIsFlagged | simulator/mqtt_publisher/generator.py:18-49 | The first anomaly that the simulator's cycles inject for a symbol, after an ordinary message for it and off the price floor, raises a critical alert of score 1, whatever the forest, other symbols, restarts, and the samples kept |
| Detection.CycleGoesOn | simulator/mqtt_publisher/generator.py:39-49 | A cycle's messages go on with the quotes that earlier cycles have left |
| Detection.InjectedAnomalyIsFlagged | simulator/mqtt_publisher/generator.py:23-28 | After ordinary messages of its symbol an injected anomaly that the price floor does not hold raises a critical alert of score 1, whatever the forest, other symbols, restarts, and the samples kept |
| Detection.InjectedScoreIsFull | azure_anomaly/service.py:112-127 | Moves of injected size have the full rule score against every window of ordinary price moves, the empty one included |
| Detection.BaselineOfSmall | azure_anomaly/service.py:122-123 | The baseline of moves within a bound is at most three times the bound |
| Detection.FirstMessageScoresZero | azure_anomaly/service.py:112-127 | The rule is silent about a symbol's first message, whatever was injected |
| Detection.FloorCanHideInjected | simulator/mqtt_publisher/generator.py:27 | An anomaly injected at the price floor, and two ordinary samples, that leave the rule score below 0.65 |
| Pipeline.PricesArriveUnchangedIff | aws_ingestion/service.py:44-56 | A symbol's prices reach the risk peer as they were sent iff all are given to six decimals |
| Pipeline.DeliveredRoutesRepeat | shared/runtime/service_runtime.py:103-125 | If every route is delivered, the target processes every event at least once and in order, repeats next to each other |
| Pipeline.RedeliveryKeepsDrawdown | gcp_risk/service.py:37-42 | Repeats of a symbol's events after its first change neither its drawdown nor its total growth |
| Pipeline.PositivePricesHaveSnapshot | gcp_risk/service.py:44-90 | Over positive prices every portfolio without shorts or leverage gets a snapshot with drawdown in [-1, 0] |
| Pipeline.SimulatedFeedAlwaysHasSnapshot | gcp_risk/service.py:44-90 | Whatever is simulated, however ingestion restarts, and whichever forwarded events arrive, lost, repeated or out of order: every long-only portfolio gets a snapshot |
| Pipeline.DeliveredFeedKeepsBounds | gcp_risk/service.py:44-90 | If every route is delivered, lost replies and repeats included, value at risk is within 8.705 % as well |

## Left out

- SHA-256, uuid4 and the wall clock: an arbitrary function, identifiers and times passed in; a timestamp comes with the
  second that is read from it, if any.
- IEEE 754: prices, returns and scores are reals; `round(x, 6)` and `round(x, 4)` are exact, ties to even. `pstdev` and the
  root of 252 are passed in as values whose squares the lemmas constrain.
- JSON floats, keys that are not strings, and the `default=str` fallback of the encoder.
- FastAPI, httpx, MQTT, the blob store and file encodings: a request is answered, loses its reply, or is lost; a file holds a
  whole document or a torn one. Disk errors other than a stop of the process, and loss of power, are not modelled.
- A store without a state directory: the registry always has one.
- The isolation forest: its raw score is an input.
- Health endpoints, sensor ids, dashboards, scripts, infrastructure.
- TamperEvidence.TipBinding: asks that header strings have no adjacent surrogate pair, which validated strings never have.
- IngestionService.Service.IngestMessage: the ledger record of an event is shown without its numbers, which the JSON fragment
  does not hold; discovery results and each attempt's fate are inputs, and a discovery reply that does not validate is not
  modelled.
- IngestionService.Service.StoreNormalizedEvent: the ledger record of the event is shown without its numbers, for the same reason.
- Ingestion.IndexEqualsScan: requests come one at a time, here and in `IngestionService`, `CrossService` and what builds on them;
  `IngestionProcess` interleaves handlers, without restarts while one is under way.
- RegistryApp.App.VerifierRound: the loop's catch-all has nothing to catch, since disk errors are not modelled.
- AnomalyService.Service.AnalyzeEvent: an alert's reason is its parts, not their text, in which scores have two decimals;
  alerts are a map, so their listing order is not modelled.
- RiskService.Service.ComputeRisk: the ledger record is the snapshot itself, not its JSON text.
- RegistryProcess.EveryRunKeepsInv: a store call is one step, as its lock makes it; stops inside one are covered by the
  crash results of the store.
