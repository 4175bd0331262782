# Self-adaptive defence mesh: the simulation pipeline in Dafny

This project models the simulation pipeline of the cyber-defence mesh
backend. One pipeline step turns one synthesized threat into five updates:

- a hash-linked ledger block;
- a permanent history entry;
- an entry in a bounded live window;
- at most one automated response log, chosen by a severity policy;
- increments of the AI "threats analyzed" counter and of the origin node's "threats detected" counter.

The pipeline exists twice in the source, and both copies are modelled:

- `Services` (backend/services.py) is the store-backed engine. `BackgroundServices` keeps a block counter and writes to a document store. Each generation tick runs the pipeline. A separate sync step refreshes the node display metrics.
- `Enhanced` (backend/app_enhanced.py) is the in-memory twin. It holds module-level lists, a global block counter, a seeding routine run at import, a user-submission entry point with required-field validation and its own `pop(0)` window policy, and the AI-status recompute.

The supporting modules are:

- `Config` (backend/config.py): the constant tables.
- `Policy`: the severity policy both engines share.
- `Database` (backend/database.py): the collection-creation loop of `init_db` and the insert-if-empty seeding of `initialize_static_data`.
- `Records`: the document types, the random-draw helpers, the hash-chain predicate `WellChained` and the node-counter helpers.

How the source is represented:

- **Randomness.** Every `random.choice`, `random.randint` and coin of the source is an explicit draw passed by the caller (`Pick(xs, k) == xs[k % |xs|]`, `RandInt(lo, hi, k)`). Every outcome of the source is therefore some choice of draws, and every table entry can be drawn (`Records.PickCoversAll`).
- **Hashes.** The SHA-256 digests are caller-supplied strings of sixteen lowercase hex digits.
- **Clock.** `datetime.now()` is a caller-supplied number of seconds.
- **Store.** The document store is the `Database.Store` class, with one sequence field per collection.
- **Store updates.** `update_one` acts on the first matching document. `delete_one` removes the first copy.

Main invariants:

- **Chain.** Blocks are numbered 1, 2, 3, … in ledger order. Block 1 links to sixteen zeros, and every later block links to the current hash of the block before it (`Records.WellChained`). The block counter names the next block (`InSync`, `InSyncWith`).
- **Counters.** In the store-backed engine, the AI counter and the threat's node counter each move by exactly one per threat (`Services.CountersMatch`). In the twin, the AI counter counts each threat once under the corrected `GetAiStatus` (`CountsEachThreatOnce`), and the node counters count only the seeded threats, since a submission bumps none (`Enhanced.EnhancedApp.NodesCountSeededThreats`).
- **Mirror.** In the twin, the ledger mirrors the history position by position (`LedgerMirrorsHistory`).

## Model

| member | source | states |
|---|---|---|
| Records.Pick | backend/services.py:63-64 | A `random.choice` draw always yields an element of the list drawn from |
| Records.PickCoversAll | backend/services.py:63-64 | Every element of a list is the outcome of some draw |
| Records.RandInt | backend/services.py:69 | A `random.randint(lo, hi)` draw lies between lo and hi inclusive |
| Records.Lower | backend/services.py:76 | The lower-cased threat type has the same length and no upper-case letter. Each capital becomes its own lower-case letter and every other character is kept |
| Records.Decimal | backend/services.py:221 | Python's decimal rendering of a number is a non-empty run of digits. It starts with `0` exactly when the number is 0, so it has no leading zeros |
| Records.DecimalRoundTrip | backend/services.py:221 | The decimal rendering of a number reads back as that number |
| Records.FourDigits | backend/services.py:69 | A number in 1000..9999 is rendered with exactly four digits |
| Records.TaggedId | backend/services.py:69 | Threat and log ids start with their tag and a dash (`THR-`, `USR-`, `LOG-`) |
| Records.TaggedIdReadsBack | backend/services.py:69 | After the dash of a tagged id comes a non-empty run of digits that reads back as the drawn number, and a draw from 1000..9999 gives exactly four of them |
| Records.FieldsOfDigits | backend/services.py:221 | Splitting at dots a run of digits followed by a dot and more text yields the run and then the split of the rest |
| Records.FourFields | backend/services.py:221 | Four runs of digits joined by dots split back into exactly those four fields |
| Records.RandomIpOctets | backend/services.py:219-221 | A generated address splits at its dots into four non-empty digit fields without leading zeros. They read back as the four drawn octets: 1-255, 0-255, 0-255 and 1-255 |
| Records.GenesisIsDigest | backend/services.py:127 | The genesis link is sixteen zeros and is itself a 16-digit digest |
| Records.ChainExtends | backend/services.py:127-146 | Appending the block numbered after the chain and linked to its tail keeps the ledger a well-formed chain |
| Records.LinksToPrefixTail | backend/app_enhanced.py:89-106 | In a well-formed chain, block i is numbered i + 1 and links to the tail the ledger had before it (sixteen zeros for block 1) |
| Records.ConsecutiveBlocksLink | backend/app_enhanced.py:89-107 | In a well-formed chain, each later block is numbered one past its predecessor and carries its predecessor's current hash |
| Records.FirstWithId | backend/services.py:107-110 | The document an `update_one` by node id touches is the first with that id, or none when no document has it |
| Records.TotalAfterBump | backend/services.py:107-110 | Incrementing one node's counter raises the total of node counters by exactly one |
| Records.IncDetectedEffect | backend/services.py:107-110 | The `$inc` on a node id changes only the first matching row, and only its counter, by one. The total rises by one exactly when some row has the id |
| Records.AllMatchingIsFirstMatch | backend/app_enhanced.py:157-159 | With distinct ids, the twin's loop over all matching nodes bumps exactly the row the store's `update_one` would |
| Records.MirrorExtends | backend/app_enhanced.py:148-151 | Recording a threat and its block together keeps the ledger mirroring the history |
| Records.IncAllMatchingTotal | backend/app_enhanced.py:157-159 | For a listed id in a roster with distinct ids, the detection loop raises the total by one and keeps ids and locations |
| Config.ActionsFor | backend/services.py:156 | `RESPONSE_ACTIONS.get(severity, ['Alert Sent'])` is never empty |
| Config.ResponseActionTable | backend/config.py:60-65 | Every configured severity has a non-empty action list, of sizes 4, 3, 3 and 2. Alert Sent is in High, Medium and Low but not in Critical |
| Config.NodeTable | backend/config.py:43-47 | Three nodes with pairwise distinct ids Node-A, Node-B and Node-C, all Online |
| Config.CollectionTable | backend/config.py:10-17 | Six keys map to six pairwise distinct collection names |
| Policy.ChosenAction | backend/services.py:156-160 | The chosen action is one configured for the severity |
| Policy.OutcomeStatus | backend/services.py:181 | A log's status is Success exactly on the success coin, and Pending otherwise |
| Policy.FiresBySeverity | backend/services.py:159-168 | Critical and High are always answered, Medium exactly on its coin, and Low or an unknown severity never |
| Database.MissingCollections | backend/database.py:29-34 | The collections the loop creates are exactly the configured names missing from the snapshot |
| Database.CreateCollections | backend/database.py:29-34 | Afterwards every configured collection exists. Existing ones are not created again and no document changes |
| Database.InitDb | backend/database.py:29-43 | The collection loop, then the static seeding: the created list, the new collection set and both seeded collections |
| Database.SeedAiStatus | backend/database.py:52-67 | An empty AI collection gets exactly one document with nothing analyzed. A non-empty one is unchanged |
| Database.SeedNodes | backend/database.py:70-83 | An empty node collection gets one row per configured node, copying id, location and status, with distinct ids and no detections. A non-empty one is unchanged, even if nodes are missing |
| Database.InitializeStaticData | backend/database.py:48-83 | The AI and node collections become their seeded forms, and nothing else changes |
| Database.SeedingIdempotent | backend/database.py:51-83 | Seeding a second time, at any later clock reading, changes nothing |
| Services.NewThreat | backend/services.py:63-78 | Type, severity, source and status come from their tables and the node from the roster. The id starts with `THR-`, the timestamp is the clock reading, and the description names the type and the address |
| Services.NewThreatShape | backend/services.py:65-73 | A generated threat's id is `THR-` and four digits denoting a number in 1000..9999. Its address is a dotted quad of octets, with the first and last non-zero |
| Services.TailBlock | backend/services.py:124-126 | The tail lookup returns a stored block with the highest block number |
| Services.TailOfChainIsLast | backend/services.py:124-127 | In a well-formed chain, the tail lookup returns the last block, so the new block links to the block inserted just before |
| Services.NextAfterChainIsLength | backend/services.py:124-131 | For a well-formed ledger, the number after the highest stored block is the ledger length plus one |
| Services.ServiceBlockRecords | backend/services.py:130-141 | The block records its threat's id, type, node, severity and time, carries the counter's number, the link and both digests, and is marked verified |
| Services.ResponseFor | backend/services.py:150-184 | A log is written exactly when the policy fires. It copies the threat's ip, id, type, node and severity, has an action configured for the severity, and a Success or Pending status |
| Services.ResponseForId | backend/services.py:175 | A recorded log's id is `LOG-` and four digits denoting a number in 1000..9999 |
| Services.OldestLive | backend/services.py:90 | For a time-ordered window, the sort-and-limit query returns k threats, each older than every threat not returned |
| Services.RemoveFirst | backend/services.py:91-92 | Deleting by identity removes exactly one copy of the document |
| Services.RemoveFirstHead | backend/services.py:91-92 | Deleting the head document leaves the rest of the window |
| Services.AppendKeepsOrder | backend/services.py:84 | Inserting a threat newer than every live entry keeps the window in time order |
| Services.SplitOrdered | backend/services.py:90-92 | Cutting a time-ordered window leaves an ordered remainder, every cut entry older than every remaining one |
| Services.AdmittedKeepsNewest | backend/services.py:84-92 | With a forward-moving clock, the window after an insertion has min(n + 1, 10) entries. The new threat is last, time order is kept, and the evicted prefix is the surplus, each entry older than every survivor |
| Services.WindowHoldsLatest | backend/services.py:84-92 | After any sequence of admissions, the window holds exactly the last ten threats admitted (all of them if fewer) |
| Services.IncAnalyzed | backend/services.py:101-104 | The first AI document counts one more threat and takes the new update time. Other documents are unchanged, and an empty collection stays empty |
| Services.SeededCountersMatch | backend/database.py:53-82 | A freshly seeded store with an empty history satisfies counter conservation |
| Services.IncDetectedPreservesRoster | backend/services.py:107-110 | A counter bump keeps node ids distinct and every findable id findable |
| Services.TickKeepsCounters | backend/services.py:80-110 | One tick keeps conservation: the AI counter and the total of node counters both equal the history length |
| Services.SyncKeepsCounters | backend/services.py:204-215 | A node sync never changes a detection counter, a node id or a location |
| Services.SyncRefreshes | backend/services.py:204-215 | After a sync, every row of a configured node is synced now, Online, with latency 10-100 ms and uptime 98.0-100.9 |
| Services.BackgroundServices.constructor | backend/services.py:16-19 | Numbering starts at 1, whatever the store holds |
| Services.BackgroundServices.Resume | backend/services.py:19 | Corrected start: numbering continues after the highest stored block, so a well-formed ledger is in sync |
| Services.BackgroundServices.CreateBlockchainBlock | backend/services.py:116-146 | Exactly one block is appended, numbered by the counter and linked to the tail block. No stored block changes, the counter rises by one, and a ledger in sync stays in sync |
| Services.BackgroundServices.CreateResponseLog | backend/services.py:170-186 | Exactly one log for the threat is appended |
| Services.BackgroundServices.GenerateAutomatedResponse | backend/services.py:150-168 | The log collection grows by the policy's log, or by nothing |
| Services.BackgroundServices.AdmitLive | backend/services.py:83-92 | After the insertion and the deletion loop, the window is the admitted window. It stays time-ordered and keeps the new threat |
| Services.BackgroundServices.GenerateThreat | backend/services.py:58-112 | One tick appends the threat to the history, admits it to the window, and appends one block and at most one log. It bumps the AI counter and the threat's node counter. It keeps the chain in sync, the window ordered and the counters conserved |
| Services.BackgroundServices.UpdateNodeStatus | backend/services.py:200-215 | The node rows become the result of refreshing each configured node in roster order, and nothing else changes |
| Services.RestartReusesBlockNumber | backend/services.py:16-19 | As written: a new engine over a persisted ledger numbers its block 1 again, and the ledger is no longer a well-formed chain |
| Services.ResumeContinuesNumbering | backend/services.py:124-146 | Corrected: after a restart the blocks are numbered 1 and 2 and the chain stays well formed |
| Enhanced.InitialNodesMatchConfig | backend/app_enhanced.py:21-25 | The twin's node list has the configured ids and locations, in order, distinct and with no detections |
| Enhanced.DetectionKeepsRoster | backend/app_enhanced.py:157-159 | A detection for a listed node keeps the roster and raises the total by exactly one |
| Enhanced.BackDated | backend/app_enhanced.py:147 | A back-dated sample lies between `hi` and `lo` minutes before now |
| Enhanced.PickOnRoster | backend/app_enhanced.py:63-75 | Counter changes never change which node id and location a draw picks, and the picked id is listed |
| Enhanced.RealisticThreatFields | backend/app_enhanced.py:57-82 | A generated threat has its categorical fields, protocol and attack vector from their tables, and its node and location from one entry of the node list. The port is the rendering of an entry of the port list, and the description names the type and the address. Confidence is 75.00-99.00, the id is `THR-` and four digits (1000..9999), the address is a generated dotted quad, and the threat is not marked as submitted |
| Enhanced.SampleHistory | backend/app_enhanced.py:145-148 | The seeded history has one entry per tick |
| Enhanced.SampleHistoryStep | backend/app_enhanced.py:145-148 | Appending tick i's threat extends the history of the first i ticks to that of the first i + 1 |
| Enhanced.SampleHistoryAt | backend/app_enhanced.py:145-148 | History entry i is tick i's threat, stamped 10 minutes to a day before now |
| Enhanced.SampleLive | backend/app_enhanced.py:162-165 | The seeded live list has one entry per draw |
| Enhanced.SampleLiveStep | backend/app_enhanced.py:162-165 | Appending draw i's threat extends the live sample of the first i draws to that of the first i + 1 |
| Enhanced.SampleLiveAt | backend/app_enhanced.py:162-165 | Live entry i is draw i's threat, stamped within the last half hour |
| Enhanced.SubmittedThreatFields | backend/app_enhanced.py:263-279 | A submitted threat takes type, severity and ip from the body, and source, description, port, location, protocol and attack vector from the body or their defaults. Status is Monitoring, confidence 100.00, the id `USR-` and four digits (1000..9999), and it is marked as submitted |
| Enhanced.EnhancedBlockRecords | backend/app_enhanced.py:91-104 | The block records its threat, carries the counter's number, the link and both digests, is mined by the threat's node and holds one transaction |
| Enhanced.EnhancedResponseFor | backend/app_enhanced.py:110-138 | A log is produced exactly when the severity policy fires |
| Enhanced.EnhancedResponseFields | backend/app_enhanced.py:119-134 | A twin log has an action configured for the severity, the threat's identifying fields, and Success exactly on the coin (Pending otherwise). Its id is `LOG-` and four digits (1000..9999), its response time is 10-500 ms, and it is marked automated |
| Enhanced.SubmitWindow | backend/app_enhanced.py:284-288 | From at most ten entries, a submission leaves at most ten with the new threat last. It drops only the earliest-inserted entry, whatever its timestamp |
| Enhanced.StatusCode | backend/app_enhanced.py:256-316 | The status is 201 exactly for an accepted submission |
| Enhanced.EnhancedApp.constructor | backend/app_enhanced.py:14-46 | Empty lists, the initial node list, nothing analyzed and the counter at 1. Every invariant holds |
| Enhanced.EnhancedApp.CreateBlockchainBlock | backend/app_enhanced.py:84-108 | Appends and returns the block numbered by the counter and linked to the last list element. The counter rises by one and a chain in sync stays in sync |
| Enhanced.EnhancedApp.GenerateAutomatedResponse | backend/app_enhanced.py:110-138 | Returns the policy's log and appends it. The result is None exactly when nothing was appended |
| Enhanced.EnhancedApp.RecordDetection | backend/app_enhanced.py:157-159 | Every node whose id matches gains one detection |
| Enhanced.EnhancedApp.RecordSeeded | backend/app_enhanced.py:148-159 | A seeded threat enters the history and gets its block and possible log. Its node counts one more detection, and the chain, roster and mirror are kept |
| Enhanced.EnhancedApp.SeedOne | backend/app_enhanced.py:146-159 | One loop iteration records the tick's back-dated sample threat |
| Enhanced.EnhancedApp.SeedHistory | backend/app_enhanced.py:145-159 | The history grows by the thirty sample threats in tick order, with thirty more blocks and thirty more detections, keeping every invariant |
| Enhanced.EnhancedApp.SeedLive | backend/app_enhanced.py:162-165 | The live list grows by the ten live samples in draw order |
| Enhanced.EnhancedApp.InitializeSampleData | backend/app_enhanced.py:140-168 | The seeded history and live list, thirty blocks and detections, and the AI counter equal to the history length |
| Enhanced.EnhancedApp.Accept | backend/app_enhanced.py:281-310 | An accepted threat enters the submitted list, the history and the popped window. It gets one block and a possible log, the AI counter rises by one, node counters are untouched, and the reply carries the block number and the action or Monitoring |
| Enhanced.EnhancedApp.SubmitThreat | backend/app_enhanced.py:249-316 | A null body fails with 500 and a missing field is rejected with 400, both changing nothing. Otherwise the body's threat on the drawn node is accepted, and every counting invariant is kept |
| Enhanced.EnhancedApp.GetAiStatusAsWritten | backend/app_enhanced.py:227-230 | As written: the counter becomes the history length plus the number of submissions |
| Enhanced.EnhancedApp.GetAiStatus | backend/app_enhanced.py:229 | Corrected: the counter becomes the history length, counting each threat once |
| Enhanced.Startup | backend/app_enhanced.py:140-171 | After import: 30 history entries and 30 blocks in a well-formed chain, node counters summing to 30, 30 analyzed and 10 live threats |
| Enhanced.SubmissionCountedTwice | backend/app_enhanced.py:229-283 | As written: one accepted submission is processed once but reported as two analyzed threats |
| Enhanced.SubmissionCountedOnce | backend/app_enhanced.py:229-283 | Corrected: the same submission is reported once |
| Enhanced.CriticalSubmission | backend/app_enhanced.py:263-310 | A Critical submission on a fresh state gets 201 and block 1. It keeps its ip, is Monitoring, and is answered with a Critical action |
| Enhanced.IncompleteSubmission | backend/app_enhanced.py:255-260 | A body without an ip gets 400 and adds no block |

## Left out

- Threads and scheduling are left out (`start`, `stop`, the two loops, `time.sleep`, backend/services.py:21-56, 190-198), and with them the 10-second generation and 5-second sync intervals of backend/config.py. Each loop iteration is one call of `GenerateThreat` or `UpdateNodeStatus`. Concurrent readers of the window are not modelled.
- MongoDB connection handling is left out: `MongoClient`, ping, `create_index`, `get_db`, `close_db`. The database is the `Database.Store` object.
- The Flask routes, the JSON shaping and the GET routes of the twin are left out (sorting and slicing for display, `home`). So is the latency randomisation in `get_nodes_status`. `submit_threat` is modelled without its JSON reply beyond status, threat, block number and response.
- Analytics and PDF reports are left out: floating point, clock bucketing and a foreign library.
- SHA-256 and the `random.random()` salts of the hash helpers are not modelled. Digests are supplied by the caller, and only their shape (sixteen lowercase hex digits) is required.
- `datetime.now()` and ISO timestamp strings are not modelled. Times are integer seconds supplied by the caller. Store-side ordering by timestamp string is modelled as numeric order.
- Floats are kept as integers: confidence in hundredths of a percent, uptime in tenths, latency in ms. Formatted strings such as `"25ms"` and `"99.9%"` are kept as numbers.
- The twin's static AI fields (model type, accuracy 93.5, training status Active, false-positive rate, retrain times) are not modelled, since no modelled code path reads or changes them. The twin keeps only `threatsAnalyzed` and `updatedAt`.
- Only two kinds of submission body are modelled: JSON `null` and an object whose values are strings. Other bodies (a list, a string, numeric values such as a numeric port) and exceptions other than the null body's are not.
- One clock reading stands for every `datetime.now()` a loop makes. `UpdateNodeStatus` stamps every node row with the same sync time, where the source reads the clock once per node; `Refreshed` relies on that single reading. `InitializeStaticData` stamps the AI document and every node row with one reading, and `SeedHistory` and `SeedLive` back-date all their samples from one reading, where the source reads the clock anew for each document.
- Ports are strings. A generated threat's port is the decimal rendering of the drawn port number, and a submitted one is the body's string or `"0"`. The source keeps a number there.
- Threat id uniqueness is not claimed: threat, submission and log ids come from `randint(1000, 9999)` and may repeat.
- Services.BackgroundServices.GenerateThreat: requires a forward-moving clock (every live threat older than the new one). Which threats Mongo evicts among equal timestamps is not modelled.
- Services.TailBlock: among stored blocks with equal numbers it takes the one inserted last, whereas Mongo leaves that order unspecified.
- Enhanced.EnhancedApp.SeedOne: states the ledger length and the counters but not which block and log were added. `RecordSeeded` states those exactly for the same step.
- Enhanced.EnhancedApp.SeedHistory: states the history, ledger length, detections and invariants, but not the response logs appended.
- Enhanced.EnhancedApp.InitializeSampleData: like `SeedHistory`, does not state the response logs appended.
- Enhanced.Startup: states counts and chain validity. The exact contents are stated by `InitializeSampleData`.
- The seeding draws are fixed-length sequences (thirty ticks, ten live draws), matching the fixed loop bounds.
- Block numbers are not promised unique across runs: the engine restarts them at 1 on every construction, and the model keeps that (first finding below).
- The twin's live window is not kept in time order: it drops the entry inserted first, not the oldest by time, as the code does.

## Findings

| source | as written | input that shows it | evidently intended | confidence | as-written member | corrected member |
|---|---|---|---|---|---|---|
| backend/services.py:19 | `block_counter` starts at 1 in every new engine object, while the ledger persists in the store | a store holding block 1 from an earlier run; a new engine creates a block, which is numbered 1 again | numbering continues after the highest stored block | not executed | Services.RestartReusesBlockNumber | Services.ResumeContinuesNumbering |
| backend/app_enhanced.py:229 | `threatsAnalyzed` becomes `len(threat_history) + len(user_submitted_threats)`, but every submission is already in `threat_history` | a fresh state and one accepted submission: one threat processed, two reported | `len(threat_history)` | not executed | Enhanced.SubmissionCountedTwice | Enhanced.SubmissionCountedOnce |
