/** backend/services.py: the store-backed simulation engine. One generation
    tick synthesizes a threat, records it in the permanent history and in
    the bounded live window, appends a hash-linked ledger block, derives at
    most one automated response and bumps the AI and node counters. A
    separate sync step refreshes the node display metrics. */
module Services {
  import opened Records
  import Config
  import Policy
  import opened Database

  // ---------------------------------------------------------------------
  // Draws.

  /** The draws `_generate_threat` makes for the threat itself; `createdAt`
      is `datetime.now()`. */
  datatype ThreatDraw = ThreatDraw(
    typePick: nat,
    severityPick: nat,
    ip: IpDraw,
    idPick: nat,
    sourcePick: nat,
    statusPick: nat,
    nodePick: nat,
    createdAt: nat)

  /** Everything one generation tick draws: the threat, the two digests,
      the response draws and the clock reading stored as `updatedAt`. */
  datatype Tick = Tick(threat: ThreatDraw, hashes: HashDraw, response: ResponseDraw, updatedAt: nat)

  /** The draws of one node refresh: latency 10-100 ms and an uptime of
      98-100 with one decimal digit 0-9. */
  datatype SyncDraw = SyncDraw(latencyPick: nat, uptimeWholePick: nat, uptimeTenthPick: nat)

  // ---------------------------------------------------------------------
  // Threat synthesis.

  /** The threat document `_generate_threat` builds: every categorical field
      comes from its configured table, the node from the configured roster,
      the id is `THR-` and a number, the timestamp is the clock reading. */
  function NewThreat(d: ThreatDraw): (t: Threat)
    ensures t.threatType in Config.THREAT_TYPES && t.severity in Config.THREAT_SEVERITIES
    ensures t.source in Config.THREAT_SOURCES && t.status in Config.THREAT_STATUSES
    ensures t.nodeId in Config.NodeIds()
    ensures HasPrefix(t.threatId, "THR-") && t.timestamp == d.createdAt
    ensures t.description == Description(t.threatType, t.ip)
  {
    var kind := Pick(Config.THREAT_TYPES, d.typePick);
    var ip := RandomIp(d.ip);
    var node := Pick(Config.NODES, d.nodePick);
    assert node.nodeId in Config.NodeIds() by {
      assert node == Config.NODES[d.nodePick % |Config.NODES|];
      assert Config.NodeIds()[d.nodePick % |Config.NODES|] == node.nodeId;
    }
    Threat(
      TaggedId("THR", RandInt(1000, 9999, d.idPick)), kind, Pick(Config.THREAT_SEVERITIES, d.severityPick),
      Pick(Config.THREAT_SOURCES, d.sourcePick), ip, d.createdAt, Pick(Config.THREAT_STATUSES, d.statusPick),
      Description(kind, ip), node.nodeId, None, None, None, None, None, None)
  }

  /** The id of a generated threat is `THR-` and four digits denoting a
      number in 1000..9999; its address is a generated dotted quad. */
  lemma NewThreatShape(d: ThreatDraw)
    ensures FourDigitId(NewThreat(d).threatId, "THR") && GeneratedIp(NewThreat(d).ip)
  {
    TaggedIdReadsBack("THR", RandInt(1000, 9999, d.idPick));
    RandomIpOctets(d.ip);
  }

  // ---------------------------------------------------------------------
  // Ledger.

  /** The stored block with the highest `blockNumber` (what `find_one` sorted
      by `blockNumber` descending returns); among equal numbers the model
      takes the one inserted last. */
  function TailBlock(ledger: seq<Block>): (b: Block)
    requires ledger != []
    ensures b in ledger
    ensures forall x :: x in ledger ==> x.blockNumber <= b.blockNumber
    decreases |ledger|
  {
    var last := ledger[|ledger| - 1];
    if |ledger| == 1 then last
    else
      var prior := TailBlock(ledger[..|ledger| - 1]);
      assert forall x :: x in ledger ==> x in ledger[..|ledger| - 1] || x == last;
      if last.blockNumber >= prior.blockNumber then last else prior
  }

  /** `previous_hash`: the tail block's current hash, or sixteen zeros. */
  function PreviousHash(ledger: seq<Block>): string
  {
    if ledger == [] then GENESIS_HASH else TailBlock(ledger).currentHash
  }

  /** In a well-formed chain the highest-numbered block is the last one, so
      the store's tail lookup links to the block inserted just before. */
  lemma TailOfChainIsLast(ledger: seq<Block>)
    requires WellChained(ledger) && ledger != []
    ensures TailBlock(ledger) == ledger[|ledger| - 1]
    ensures PreviousHash(ledger) == ChainTail(ledger)
  {
    var b := TailBlock(ledger);
    var j :| 0 <= j < |ledger| && ledger[j] == b;
    assert ledger[|ledger| - 1] in ledger;
    assert ledger[|ledger| - 1].blockNumber == |ledger|;
  }

  /** The number a restarted engine should continue from. */
  function NextBlockNumber(ledger: seq<Block>): nat
  {
    if ledger == [] then 1 else TailBlock(ledger).blockNumber + 1
  }

  /** For a well-formed chain that number is the ledger length plus one. */
  lemma NextAfterChainIsLength(ledger: seq<Block>)
    requires WellChained(ledger)
    ensures NextBlockNumber(ledger) == |ledger| + 1
  {
    if ledger != [] {
      TailOfChainIsLast(ledger);
    }
  }

  /** The block `_create_blockchain_block` inserts. */
  function ServiceBlock(number: nat, t: Threat, h: HashDraw, previousHash: string): Block
  {
    Block(number, h.threatHash, h.blockHash, previousHash, t.threatType, t.threatId,
          t.timestamp, VERIFIED, t.nodeId, t.severity, None, None)
  }

  /** The inserted block records its threat (id, type, node, severity,
      time), carries the counter's number, the given link and the two
      digests, and is marked verified. */
  lemma ServiceBlockRecords(number: nat, t: Threat, h: HashDraw, previousHash: string)
    ensures var b := ServiceBlock(number, t, h, previousHash);
      && BlockRecords(b, t) && b.blockNumber == number && b.previousHash == previousHash
      && b.threatHash == h.threatHash && b.currentHash == h.blockHash && b.verificationStatus == VERIFIED
  {
  }

  // ---------------------------------------------------------------------
  // Responses.

  /** The log `_create_response_log` inserts. */
  function ServiceLog(t: Threat, action: string, d: ResponseDraw): ResponseLog
  {
    ResponseLog(TaggedId("LOG", RandInt(1000, 9999, d.logIdPick)), action, t.ip, t.threatType,
                t.threatId, d.loggedAt, Policy.OutcomeStatus(d.successCoin), t.nodeId, t.severity,
                None, None)
  }

  /** What `_generate_automated_response` records for a threat: a log
      exactly when the severity policy fires, carrying an action configured
      for the severity, the threat's identifying fields and a Success or
      Pending outcome. */
  function ResponseFor(t: Threat, d: ResponseDraw): (r: Option<ResponseLog>)
    ensures r.Some? <==> Policy.Fires(t.severity, d.mediumCoin)
    ensures r.Some? ==> LogDescribes(r.value, t)
    ensures r.Some? ==> r.value.action in Config.ActionsFor(t.severity)
    ensures r.Some? ==> r.value.status in Policy.RESPONSE_STATUSES
  {
    if Policy.Fires(t.severity, d.mediumCoin)
    then Some(ServiceLog(t, Policy.ChosenAction(t.severity, d.actionPick), d))
    else None
  }

  /** A recorded log's id is `LOG-` and four digits denoting a number in
      1000..9999. */
  lemma ResponseForId(t: Threat, d: ResponseDraw)
    ensures ResponseFor(t, d).Some? ==> FourDigitId(ResponseFor(t, d).value.logId, "LOG")
  {
    TaggedIdReadsBack("LOG", RandInt(1000, 9999, d.logIdPick));
  }

  // ---------------------------------------------------------------------
  // Live window.

  predicate OrderedByTime(s: seq<Threat>)
  {
    forall i, j :: 0 <= i < j < |s| ==> s[i].timestamp < s[j].timestamp
  }

  /** `find().sort('timestamp', 1).limit(k)`: the `k` live threats with the
      smallest timestamps. */
  function OldestLive(live: seq<Threat>, k: nat): (r: seq<Threat>)
    requires OrderedByTime(live) && k <= |live|
    ensures |r| == k && multiset(r) <= multiset(live)
    ensures forall i, j :: 0 <= i < k <= j < |live| ==> r[i].timestamp < live[j].timestamp
  {
    assert live == live[..k] + live[k..];
    live[..k]
  }

  /** `delete_one({'_id': doc['_id']})`: drop the first copy of `doc`. */
  function RemoveFirst(s: seq<Threat>, doc: Threat): (r: seq<Threat>)
    ensures multiset(r) == multiset(s) - multiset{doc}
  {
    if s == [] then []
    else if s[0] == doc then
      assert s == [s[0]] + s[1..];
      s[1..]
    else
      assert s == [s[0]] + s[1..];
      [s[0]] + RemoveFirst(s[1..], doc)
  }

  /** Deleting the head document by its identity leaves the rest. */
  lemma RemoveFirstHead(s: seq<Threat>)
    requires s != []
    ensures RemoveFirst(s, s[0]) == s[1..]
  {
  }

  /** The live window after inserting `t` and trimming to the limit. */
  function Admitted(live: seq<Threat>, t: Threat): seq<Threat>
  {
    var s := live + [t];
    if |s| > Config.LIVE_THREATS_LIMIT then s[|s| - Config.LIVE_THREATS_LIMIT..] else s
  }

  /** Appending a threat newer than every entry keeps time order. */
  lemma AppendKeepsOrder(live: seq<Threat>, t: Threat)
    requires OrderedByTime(live)
    requires forall x :: x in live ==> x.timestamp < t.timestamp
    ensures OrderedByTime(live + [t])
  {
    var s := live + [t];
    forall i, j | 0 <= i < j < |s| ensures s[i].timestamp < s[j].timestamp {
      if j == |live| {
        assert s[i] in live;
      } else {
        assert s[i] == live[i] && s[j] == live[j];
      }
    }
  }

  /** Cutting a time-ordered sequence leaves an ordered suffix, every entry
      of the prefix older than every entry of the suffix. */
  lemma SplitOrdered(s: seq<Threat>, k: nat)
    requires OrderedByTime(s) && k <= |s|
    ensures s == s[..k] + s[k..]
    ensures OrderedByTime(s[k..])
    ensures forall i, j :: 0 <= i < k && 0 <= j < |s| - k ==> s[..k][i].timestamp < s[k..][j].timestamp
  {
    var e, r := s[..k], s[k..];
    forall i, j | 0 <= i < j < |r| ensures r[i].timestamp < r[j].timestamp {
      assert r[i] == s[k + i] && r[j] == s[k + j];
    }
    forall i, j | 0 <= i < k && 0 <= j < |s| - k ensures e[i].timestamp < r[j].timestamp {
      assert e[i] == s[i] && r[j] == s[k + j];
    }
  }

  /** With a forward-moving clock the window never exceeds the limit, keeps
      time order, keeps the new threat (as its newest entry) and evicts
      exactly the surplus, each evicted threat older than every survivor. */
  lemma AdmittedKeepsNewest(live: seq<Threat>, t: Threat)
    requires OrderedByTime(live)
    requires forall x :: x in live ==> x.timestamp < t.timestamp
    ensures var r := Admitted(live, t);
      && |r| == (if |live| + 1 > Config.LIVE_THREATS_LIMIT then Config.LIVE_THREATS_LIMIT else |live| + 1)
      && r[|r| - 1] == t
      && OrderedByTime(r)
      && var evicted := (live + [t])[..|live| + 1 - |r|];
         && live + [t] == evicted + r
         && forall i, j :: 0 <= i < |evicted| && 0 <= j < |r| ==> evicted[i].timestamp < r[j].timestamp
  {
    var s := live + [t];
    AppendKeepsOrder(live, t);
    var k := if |s| > Config.LIVE_THREATS_LIMIT then |s| - Config.LIVE_THREATS_LIMIT else 0;
    assert Admitted(live, t) == s[k..];
    SplitOrdered(s, k);
  }

  /** Admitting threats one after another into an empty window. */
  function AdmitAll(ts: seq<Threat>): seq<Threat>
    decreases |ts|
  {
    if ts == [] then [] else Admitted(AdmitAll(ts[..|ts| - 1]), ts[|ts| - 1])
  }

  /** After any number of admissions the window holds exactly the last
      `LIVE_THREATS_LIMIT` threats admitted (all of them if fewer): after 25
      ticks, ticks 16 to 25. */
  lemma {:induction false} WindowHoldsLatest(ts: seq<Threat>)
    ensures var n := if |ts| < Config.LIVE_THREATS_LIMIT then |ts| else Config.LIVE_THREATS_LIMIT;
      AdmitAll(ts) == ts[|ts| - n..]
    decreases |ts|
  {
    if ts != [] {
      var init := ts[..|ts| - 1];
      WindowHoldsLatest(init);
      var n := if |init| < Config.LIVE_THREATS_LIMIT then |init| else Config.LIVE_THREATS_LIMIT;
      assert init[|init| - n..] + [ts[|ts| - 1]] == ts[|init| - n..];
    }
  }

  // ---------------------------------------------------------------------
  // Counters.

  /** `update_one({}, {'$inc': {'threatsAnalyzed': 1}, '$set': {'updatedAt': ...}})`:
      the first AI document counts one more threat; no document, no effect. */
  function IncAnalyzed(ai: seq<AiDoc>, updatedAt: nat): (r: seq<AiDoc>)
    ensures |r| == |ai|
    ensures ai != [] ==> r[0].threatsAnalyzed == ai[0].threatsAnalyzed + 1 && r[1..] == ai[1..]
    ensures ai != [] ==> r[0] == ai[0].(threatsAnalyzed := r[0].threatsAnalyzed, updatedAt := updatedAt)
  {
    if ai == [] then ai else ai[0 := ai[0].(threatsAnalyzed := ai[0].threatsAnalyzed + 1, updatedAt := updatedAt)]
  }

  /** Counter conservation: the AI counter and the node counters both equal
      the number of threats in the history, and every configured node has
      exactly one row. */
  predicate CountersMatch(ai: seq<AiDoc>, nodes: seq<NodeDoc>, history: seq<Threat>)
  {
    && |ai| > 0
    && ai[0].threatsAnalyzed == |history|
    && IdsDistinct(nodes)
    && (forall id :: id in Config.NodeIds() ==> FirstWithId(nodes, id).Some?)
    && TotalDetected(nodes) == |history|
  }

  predicate CountersMatchHistory(store: Store)
    reads store
  {
    CountersMatch(store.aiStatus, store.nodesStatus, store.threatHistory)
  }

  /** A freshly seeded store with no history satisfies counter conservation. */
  lemma SeededCountersMatch(now: nat)
    ensures CountersMatch(SeedAiStatus([], now), SeedNodes([], now), [])
  {
    var nodes := SeedNodes([], now);
    forall id | id in Config.NodeIds() ensures FirstWithId(nodes, id).Some? {
      var i :| 0 <= i < |Config.NodeIds()| && Config.NodeIds()[i] == id;
      assert nodes[i].nodeId == id;
    }
  }

  /** Bumping a counter keeps ids distinct and every id's row findable. */
  lemma IncDetectedPreservesRoster(nodes: seq<NodeDoc>, id: string)
    ensures var r := IncDetected(nodes, id);
      && (IdsDistinct(nodes) ==> IdsDistinct(r))
      && forall x :: FirstWithId(nodes, x).Some? ==> FirstWithId(r, x).Some?
  {
    IncDetectedEffect(nodes, id);
    var r := IncDetected(nodes, id);
    assert forall j :: 0 <= j < |nodes| ==> r[j].nodeId == nodes[j].nodeId;
    forall x | FirstWithId(nodes, x).Some? ensures FirstWithId(r, x).Some? {
      var k := FirstWithId(nodes, x).value;
      assert r[k].nodeId == x;
    }
  }

  /** One tick's counter updates keep conservation: the threat enters the
      history once, the AI counter rises by one, and so does the total of
      node counters because the threat's node is a configured one. */
  lemma {:induction false} TickKeepsCounters(ai: seq<AiDoc>, nodes: seq<NodeDoc>, history: seq<Threat>,
                                              t: Threat, updatedAt: nat)
    requires CountersMatch(ai, nodes, history) && t.nodeId in Config.NodeIds()
    ensures CountersMatch(IncAnalyzed(ai, updatedAt), IncDetected(nodes, t.nodeId), history + [t])
  {
    IncDetectedEffect(nodes, t.nodeId);
    IncDetectedPreservesRoster(nodes, t.nodeId);
  }

  // ---------------------------------------------------------------------
  // Node sync.

  /** One node row after a refresh by `_update_node_status`. */
  function Synced(doc: NodeDoc, node: Config.NodeConfig, d: SyncDraw, now: nat): NodeDoc
  {
    doc.(lastSyncTime := Some(now), status := node.status,
         latency := RandInt(10, 100, d.latencyPick),
         uptime := RandInt(98, 100, d.uptimeWholePick) * 10 + RandInt(0, 9, d.uptimeTenthPick))
  }

  /** One `update_one({'nodeId': ...}, {'$set': ...})`. */
  function SyncOne(nodes: seq<NodeDoc>, node: Config.NodeConfig, d: SyncDraw, now: nat): seq<NodeDoc>
  {
    match FirstWithId(nodes, node.nodeId) {
      case None => nodes
      case Some(k) => nodes[k := Synced(nodes[k], node, d, now)]
    }
  }

  /** The node rows after refreshing the first `n` configured nodes. */
  function SyncNodes(nodes: seq<NodeDoc>, draws: seq<SyncDraw>, now: nat, n: nat): seq<NodeDoc>
    requires n <= |Config.NODES| && n <= |draws|
  {
    if n == 0 then nodes
    else SyncOne(SyncNodes(nodes, draws, now, n - 1), Config.NODES[n - 1], draws[n - 1], now)
  }

  /** A sync never touches detection counters, ids or locations. */
  lemma {:induction false} SyncKeepsCounters(nodes: seq<NodeDoc>, draws: seq<SyncDraw>, now: nat, n: nat)
    requires n <= |Config.NODES| && n <= |draws|
    ensures var r := SyncNodes(nodes, draws, now, n);
      && |r| == |nodes|
      && forall j :: 0 <= j < |nodes| ==>
           && r[j].threatsDetected == nodes[j].threatsDetected
           && r[j].nodeId == nodes[j].nodeId && r[j].location == nodes[j].location
  {
    if n > 0 {
      SyncKeepsCounters(nodes, draws, now, n - 1);
    }
  }

  /** The metrics a refreshed row carries: synced now, the configured
      status, latency 10-100 ms, uptime 98.0-100.9. */
  predicate Refreshed(doc: NodeDoc, now: nat)
  {
    doc.lastSyncTime == Some(now) && doc.status == "Online"
    && 10 <= doc.latency <= 100 && 980 <= doc.uptime <= 1009
  }

  /** With one row per id, after the first `n` configured nodes are synced
      each of their rows carries fresh metrics. */
  lemma {:induction false} SyncRefreshes(nodes: seq<NodeDoc>, draws: seq<SyncDraw>, now: nat, n: nat)
    requires n <= |Config.NODES| && n <= |draws|
    requires IdsDistinct(nodes)
    ensures var r := SyncNodes(nodes, draws, now, n);
      forall j :: 0 <= j < |r| && r[j].nodeId in Config.NodeIds()[..n] ==> Refreshed(r[j], now)
  {
    if n > 0 {
      SyncRefreshes(nodes, draws, now, n - 1);
      SyncKeepsCounters(nodes, draws, now, n - 1);
      var prev := SyncNodes(nodes, draws, now, n - 1);
      var r := SyncNodes(nodes, draws, now, n);
      var node := Config.NODES[n - 1];
      Config.NodeTable();
      assert IdsDistinct(prev);
      forall j | 0 <= j < |r| && r[j].nodeId in Config.NodeIds()[..n]
        ensures Refreshed(r[j], now)
      {
        match FirstWithId(prev, node.nodeId) {
          case None =>
            assert r[j] == prev[j];
            assert r[j].nodeId != node.nodeId;
            assert Config.NodeIds()[..n] == Config.NodeIds()[..n - 1] + [node.nodeId];
          case Some(k) =>
            if j == k {
              assert r[j] == Synced(prev[k], node, draws[n - 1], now);
            } else {
              assert r[j] == prev[j];
              assert prev[j].nodeId != node.nodeId;
              assert Config.NodeIds()[..n] == Config.NodeIds()[..n - 1] + [node.nodeId];
            }
        }
      }
    }
  }

  // ---------------------------------------------------------------------
  // The engine.

  /** `BackgroundServices`: the only state it keeps itself is the block
      numbering counter; everything else lives in the store. The thread
      handles and the running flag belong to the scheduler. */
  class BackgroundServices {
    var blockCounter: nat

    /** `__init__`: numbering starts at 1 whatever the store already holds. */
    constructor ()
      ensures blockCounter == 1
    {
      blockCounter := 1;
    }

    /** The corrected start: numbering continues after the highest stored
      block, so a well-formed ledger stays well formed across restarts. */
    constructor Resume(store: Store)
      ensures blockCounter == NextBlockNumber(store.ledger)
      ensures WellChained(store.ledger) ==> InSyncWith(store)
    {
      blockCounter := NextBlockNumber(store.ledger);
      new;
      if WellChained(store.ledger) {
        NextAfterChainIsLength(store.ledger);
      }
    }

    /** The counter names the block after a well-formed stored ledger. */
    predicate InSyncWith(store: Store)
      reads this, store
    {
      WellChained(store.ledger) && blockCounter == |store.ledger| + 1
    }

    /** `_create_blockchain_block`: append one block numbered by the counter,
      linked to the highest-numbered stored block, then advance the counter.
      No stored block changes; a ledger in sync stays in sync. */
    method CreateBlockchainBlock(store: Store, threat: Threat, hashes: HashDraw)
      requires ValidHashes(hashes)
      modifies this`blockCounter, store`ledger
      ensures store.ledger == old(store.ledger)
        + [ServiceBlock(old(blockCounter), threat, hashes, PreviousHash(old(store.ledger)))]
      ensures blockCounter == old(blockCounter) + 1
      ensures old(InSyncWith(store)) ==> InSyncWith(store)
    {
      var previousHash := PreviousHash(store.ledger);
      var block := ServiceBlock(blockCounter, threat, hashes, previousHash);
      if InSyncWith(store) {
        if store.ledger != [] {
          TailOfChainIsLast(store.ledger);
        }
        ChainExtends(store.ledger, block);
      }
      store.ledger := store.ledger + [block];
      blockCounter := blockCounter + 1;
    }

    /** `_create_response_log`: insert one log for the threat. */
    method CreateResponseLog(store: Store, threat: Threat, action: string, d: ResponseDraw)
      modifies store`responseLogs
      ensures store.responseLogs == old(store.responseLogs) + [ServiceLog(threat, action, d)]
    {
      store.responseLogs := store.responseLogs + [ServiceLog(threat, action, d)];
    }

    /** `_generate_automated_response`: at most one log, as the policy says. */
    method GenerateAutomatedResponse(store: Store, threat: Threat, d: ResponseDraw)
      modifies store`responseLogs
      ensures store.responseLogs == old(store.responseLogs) + OptionToSeq(ResponseFor(threat, d))
    {
      var severity := threat.severity;
      var possibleActions := Config.ActionsFor(severity);
      if severity in Policy.ALWAYS_ANSWERED {
        var action := Pick(possibleActions, d.actionPick);
        CreateResponseLog(store, threat, action, d);
      } else if severity == "Medium" && d.mediumCoin {
        var action := Pick(possibleActions, d.actionPick);
        CreateResponseLog(store, threat, action, d);
      }
    }

    /** The live-window half of `_generate_threat`: insert the threat, then
      if the window is over the limit delete, one by one, the surplus
      threats with the smallest timestamps. */
    method AdmitLive(store: Store, threat: Threat)
      requires OrderedByTime(store.liveThreats)
      requires forall x :: x in store.liveThreats ==> x.timestamp < threat.timestamp
      modifies store`liveThreats
      ensures store.liveThreats == Admitted(old(store.liveThreats), threat)
      ensures OrderedByTime(store.liveThreats) && threat in store.liveThreats
    {
      AdmittedKeepsNewest(store.liveThreats, threat);
      store.liveThreats := store.liveThreats + [threat];
      var inserted := store.liveThreats;
      var liveCount := |store.liveThreats|;
      if liveCount > Config.LIVE_THREATS_LIMIT {
        var oldest := OldestLive(inserted, liveCount - Config.LIVE_THREATS_LIMIT);
        assert oldest == inserted[..|oldest|];
        for i := 0 to |oldest|
          invariant store.liveThreats == inserted[i..]
        {
          assert oldest[i] == inserted[i];
          RemoveFirstHead(inserted[i..]);
          store.liveThreats := RemoveFirst(store.liveThreats, oldest[i]);
        }
      }
    }

    /** `_generate_threat`: one full pipeline step. History grows by the new
      threat; the live window gains it and loses its surplus oldest entries;
      the ledger gains one block for it; at most one response is logged; the
      AI counter and the threat's node counter go up by one. The clock must
      move forward (live threats older than the new one). */
    method GenerateThreat(store: Store, tick: Tick)
      requires ValidHashes(tick.hashes)
      requires OrderedByTime(store.liveThreats)
      requires forall x :: x in store.liveThreats ==> x.timestamp < tick.threat.createdAt
      modifies this`blockCounter, store`threatHistory, store`liveThreats, store`ledger
      modifies store`responseLogs, store`aiStatus, store`nodesStatus
      ensures var t := NewThreat(tick.threat);
        && store.threatHistory == old(store.threatHistory) + [t]
        && store.liveThreats == Admitted(old(store.liveThreats), t)
        && store.ledger == old(store.ledger)
             + [ServiceBlock(old(blockCounter), t, tick.hashes, PreviousHash(old(store.ledger)))]
        && store.responseLogs == old(store.responseLogs) + OptionToSeq(ResponseFor(t, tick.response))
        && store.aiStatus == IncAnalyzed(old(store.aiStatus), tick.updatedAt)
        && store.nodesStatus == IncDetected(old(store.nodesStatus), t.nodeId)
      ensures blockCounter == old(blockCounter) + 1
      ensures old(InSyncWith(store)) ==> InSyncWith(store)
      ensures OrderedByTime(store.liveThreats)
      ensures old(CountersMatchHistory(store)) ==> CountersMatchHistory(store)
    {
      var threat := NewThreat(tick.threat);
      if CountersMatchHistory(store) {
        TickKeepsCounters(store.aiStatus, store.nodesStatus, store.threatHistory, threat, tick.updatedAt);
      }
      store.threatHistory := store.threatHistory + [threat];
      AdmitLive(store, threat);
      CreateBlockchainBlock(store, threat, tick.hashes);
      GenerateAutomatedResponse(store, threat, tick.response);
      store.aiStatus := IncAnalyzed(store.aiStatus, tick.updatedAt);
      store.nodesStatus := IncDetected(store.nodesStatus, threat.nodeId);
    }

    /** `_update_node_status`: refresh every configured node's row in roster
      order; nothing but the node rows changes. */
    method UpdateNodeStatus(store: Store, draws: seq<SyncDraw>, now: nat)
      requires |draws| == |Config.NODES|
      modifies store`nodesStatus
      ensures store.nodesStatus == SyncNodes(old(store.nodesStatus), draws, now, |Config.NODES|)
    {
      for i := 0 to |Config.NODES|
        invariant store.nodesStatus == SyncNodes(old(store.nodesStatus), draws, now, i)
      {
        store.nodesStatus := SyncOne(store.nodesStatus, Config.NODES[i], draws[i], now);
      }
    }
  }

  // ---------------------------------------------------------------------
  // Restart behaviour.

  /** As written: a ledger persisted from an earlier run is numbered again
      from 1 by a new engine object, so two stored blocks share number 1 and
      the ledger is no longer well formed. */
  method RestartReusesBlockNumber(t: Threat, h1: HashDraw, h2: HashDraw)
    returns (first: nat, second: nat, chained: bool)
    requires ValidHashes(h1) && ValidHashes(h2)
    ensures first == 1 && second == 1 && !chained
  {
    var store := new Store();
    var engine := new BackgroundServices();
    engine.CreateBlockchainBlock(store, t, h1);
    var restarted := new BackgroundServices();
    restarted.CreateBlockchainBlock(store, t, h2);
    first, second := store.ledger[0].blockNumber, store.ledger[1].blockNumber;
    chained := WellChained(store.ledger);
  }

  /** Corrected: an engine started with `Resume` continues the numbering and
      the ledger stays well formed across the restart. */
  method ResumeContinuesNumbering(t: Threat, h1: HashDraw, h2: HashDraw)
    returns (first: nat, second: nat, chained: bool)
    requires ValidHashes(h1) && ValidHashes(h2)
    ensures first == 1 && second == 2 && chained
  {
    var store := new Store();
    var engine := new BackgroundServices.Resume(store);
    engine.CreateBlockchainBlock(store, t, h1);
    var restarted := new BackgroundServices.Resume(store);
    restarted.CreateBlockchainBlock(store, t, h2);
    first, second := store.ledger[0].blockNumber, store.ledger[1].blockNumber;
    chained := WellChained(store.ledger);
  }
}
