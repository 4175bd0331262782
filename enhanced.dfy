/** backend/app_enhanced.py: the in-memory twin of the engine. The same
    block builder and response policy run over plain lists; threats come
    from a seeding routine run at start-up and from a user-submission entry
    point with its own window policy; the AI status endpoint recomputes the
    analyzed-threat counter. */
module Enhanced {
  import opened Records
  import Config
  import Policy

  /** Live threats kept after a submission. */
  const LIVE_LIMIT: nat := 10

  /** Sizes of the seeded history and of the seeded live list. */
  const SAMPLE_HISTORY: nat := 30
  const SAMPLE_LIVE: nat := 10

  const PROTOCOLS: seq<string> := ["TCP", "UDP", "HTTP", "HTTPS"]
  const PORTS: seq<nat> := [80, 443, 22, 3389, 8080, 3306]
  const ATTACK_VECTORS: seq<string> := ["Network", "Application", "System", "Database"]

  /** The body keys a submission must carry. */
  const REQUIRED_FIELDS: seq<string> := ["ip", "threatType", "severity"]

  const MISSING_FIELDS_MESSAGE: string := "Missing required fields: ip, threatType, severity"

  /** The 500 message for a body that is JSON `null`: the membership test on
      it raises a `TypeError`, which the handler reports. */
  const NULL_BODY_MESSAGE: string := "Error processing threat: argument of type 'NoneType' is not iterable"

  /** The module-level `nodes_status` list: uptime in tenths of a percent,
      latency in ms, never synced. */
  function InitialNodes(): seq<NodeDoc>
  {
    [NodeDoc("Node-A", "Bangalore", "Online", None, 0, 999, 25),
     NodeDoc("Node-B", "Mumbai", "Online", None, 0, 998, 30),
     NodeDoc("Node-C", "Delhi", "Online", None, 0, 997, 28)]
  }

  /** The twin's roster is the configured one: same ids and locations, in
      order, pairwise distinct, nothing detected yet. */
  lemma InitialNodesMatchConfig()
    ensures |InitialNodes()| == |Config.NODES|
    ensures forall i :: 0 <= i < |Config.NODES| ==>
      InitialNodes()[i].nodeId == Config.NODES[i].nodeId && InitialNodes()[i].location == Config.NODES[i].location
    ensures IdsDistinct(InitialNodes()) && TotalDetected(InitialNodes()) == 0
    ensures NodeIdsOf(InitialNodes()) == Config.NodeIds()
  {
    Config.NodeTable();
    assert TotalDetected(InitialNodes()[2..]) == 0;
  }

  /** On a node list with the initial roster, a detection for a listed id
      keeps the roster and raises the total by exactly one. */
  lemma DetectionKeepsRoster(nodes: seq<NodeDoc>, id: string)
    requires SameRoster(nodes, InitialNodes()) && id in NodeIdsOf(nodes)
    ensures SameRoster(IncAllMatching(nodes, id), InitialNodes())
    ensures TotalDetected(IncAllMatching(nodes, id)) == TotalDetected(nodes) + 1
  {
    InitialNodesMatchConfig();
    assert forall i :: 0 <= i < |nodes| ==> nodes[i].nodeId == InitialNodes()[i].nodeId;
    IncAllMatchingTotal(nodes, id);
  }

  // ---------------------------------------------------------------------
  // Draws.

  /** The draws of `generate_realistic_threat`, plus the minutes the
      seeding routine back-dates the threat by. */
  datatype SampleDraw = SampleDraw(
    typePick: nat,
    severityPick: nat,
    ip: IpDraw,
    idPick: nat,
    sourcePick: nat,
    statusPick: nat,
    nodePick: nat,
    protocolPick: nat,
    portPick: nat,
    vectorPick: nat,
    confidencePick: nat,
    minutesAgoPick: nat)

  /** One seeded history entry: the threat, its two digests, its response. */
  datatype SampleTick = SampleTick(threat: SampleDraw, hashes: HashDraw, response: ResponseDraw)

  /** The draws of one submission: id, clock, node, digests, response. */
  datatype SubmitDraw = SubmitDraw(idPick: nat, createdAt: nat, nodePick: nat, hashes: HashDraw, response: ResponseDraw)

  // ---------------------------------------------------------------------
  // Threats.

  /** `now - timedelta(minutes=randint(lo, hi))`, in seconds. */
  function BackDated(now: int, lo: nat, hi: nat, pick: nat): (t: int)
    requires lo <= hi
    ensures now - 60 * hi <= t <= now - 60 * lo
  {
    now - 60 * RandInt(lo, hi, pick)
  }

  /** The node entry a draw picks is on the initial roster's entry for the
      same draw: same id and location, and the id is listed. Only these two
      fields of the node reach a threat, so counter changes never change
      what is generated or submitted. */
  lemma PickOnRoster(nodes: seq<NodeDoc>, k: nat)
    requires SameRoster(nodes, InitialNodes())
    ensures Pick(nodes, k).nodeId == Pick(InitialNodes(), k).nodeId
    ensures Pick(nodes, k).location == Pick(InitialNodes(), k).location
    ensures Pick(nodes, k).nodeId in NodeIdsOf(nodes)
  {
    assert NodeIdsOf(nodes)[k % |nodes|] == nodes[k % |nodes|].nodeId;
  }

  /** `generate_realistic_threat`, given the id and location of the node it
      drew and the timestamp the caller stamps on it; its fields are
      described by `RealisticThreatFields`. */
  function RealisticThreat(nodeId: string, location: string, d: SampleDraw, timestamp: int): Threat
  {
    var kind := Pick(Config.THREAT_TYPES, d.typePick);
    var ip := RandomIp(d.ip);
    Threat(
      TaggedId("THR", RandInt(1000, 9999, d.idPick)), kind, Pick(Config.THREAT_SEVERITIES, d.severityPick),
      Pick(Config.THREAT_SOURCES, d.sourcePick), ip, timestamp, Pick(Config.THREAT_STATUSES, d.statusPick),
      Description(kind, ip), nodeId, Some(location), Some(Pick(PROTOCOLS, d.protocolPick)),
      Some(Decimal(Pick(PORTS, d.portPick))), Some(Pick(ATTACK_VECTORS, d.vectorPick)),
      Some(RandInt(7500, 9900, d.confidencePick)), None)
  }

  /** A generated threat: categorical fields from their tables, node and
      location from one entry of the node list, protocol and attack vector
      from their lists, a port rendered from the port list, the description
      naming the type and the address, confidence 75.00-99.00 in hundredths,
      a `THR-` id, the given timestamp, not marked as user-submitted. */
  lemma RealisticThreatFields(nodes: seq<NodeDoc>, d: SampleDraw, timestamp: int)
    requires |nodes| > 0
    ensures var node := Pick(nodes, d.nodePick);
      var t := RealisticThreat(node.nodeId, node.location, d, timestamp);
      && t.threatType in Config.THREAT_TYPES && t.severity in Config.THREAT_SEVERITIES
      && t.source in Config.THREAT_SOURCES && t.status in Config.THREAT_STATUSES
      && (exists k :: 0 <= k < |nodes| && t.nodeId == nodes[k].nodeId && t.location == Some(nodes[k].location))
      && t.protocol.Some? && t.protocol.value in PROTOCOLS
      && t.attackVector.Some? && t.attackVector.value in ATTACK_VECTORS
      && t.confidence.Some? && 7500 <= t.confidence.value <= 9900
      && t.port.Some? && (exists p :: p in PORTS && t.port.value == Decimal(p))
      && t.description == Description(t.threatType, t.ip)
      && FourDigitId(t.threatId, "THR") && GeneratedIp(t.ip) && t.timestamp == timestamp && t.userSubmitted.None?
  {
    var k := d.nodePick % |nodes|;
    assert Pick(nodes, d.nodePick) == nodes[k];
    TaggedIdReadsBack("THR", RandInt(1000, 9999, d.idPick));
    RandomIpOctets(d.ip);
    assert Pick(PORTS, d.portPick) in PORTS;
  }

  /** One seeded history entry: generated against the initial roster and
      back-dated by 10 to 1440 minutes. */
  function SampleThreat(tick: SampleTick, now: int): Threat
  {
    var node := Pick(InitialNodes(), tick.threat.nodePick);
    RealisticThreat(node.nodeId, node.location, tick.threat, BackDated(now, 10, 1440, tick.threat.minutesAgoPick))
  }

  /** The seeded history: one threat per tick, in tick order. */
  function SampleHistory(samples: seq<SampleTick>, now: int): (h: seq<Threat>)
    ensures |h| == |samples|
    decreases |samples|
  {
    if samples == [] then []
    else SampleHistory(samples[..|samples| - 1], now) + [SampleThreat(samples[|samples| - 1], now)]
  }

  /** Appending the threat of tick i to a list ending in the history of the
      first i ticks gives a list ending in the history of the first i + 1. */
  lemma SampleHistoryStep(prefix: seq<Threat>, samples: seq<SampleTick>, now: int, i: nat, grown: seq<Threat>)
    requires i < |samples|
    requires grown == prefix + SampleHistory(samples[..i], now) + [SampleThreat(samples[i], now)]
    ensures grown == prefix + SampleHistory(samples[..i + 1], now)
  {
    assert samples[..i + 1][..i] == samples[..i];
  }

  /** Entry i of the seeded history is the threat drawn by tick i, stamped
      10 minutes to a day before now. */
  lemma {:induction false} SampleHistoryAt(samples: seq<SampleTick>, now: int, i: nat)
    requires i < |samples|
    ensures SampleHistory(samples, now)[i] == SampleThreat(samples[i], now)
    ensures now - 86400 <= SampleHistory(samples, now)[i].timestamp <= now - 600
    decreases |samples|
  {
    if i < |samples| - 1 {
      SampleHistoryAt(samples[..|samples| - 1], now, i);
    }
  }

  /** One seeded live threat: generated against the initial roster and
      back-dated by 0 to 30 minutes. */
  function LiveSample(draw: SampleDraw, now: int): Threat
  {
    var node := Pick(InitialNodes(), draw.nodePick);
    RealisticThreat(node.nodeId, node.location, draw, BackDated(now, 0, 30, draw.minutesAgoPick))
  }

  /** The seeded live list: one threat per draw, in draw order. */
  function SampleLive(draws: seq<SampleDraw>, now: int): (l: seq<Threat>)
    ensures |l| == |draws|
    decreases |draws|
  {
    if draws == [] then []
    else SampleLive(draws[..|draws| - 1], now) + [LiveSample(draws[|draws| - 1], now)]
  }

  /** Appending the threat of draw i to a list ending in the live sample of
      the first i draws gives a list ending in the sample of the first i + 1. */
  lemma SampleLiveStep(prefix: seq<Threat>, draws: seq<SampleDraw>, now: int, i: nat, grown: seq<Threat>)
    requires i < |draws|
    requires grown == prefix + SampleLive(draws[..i], now) + [LiveSample(draws[i], now)]
    ensures grown == prefix + SampleLive(draws[..i + 1], now)
  {
    assert draws[..i + 1][..i] == draws[..i];
  }

  /** Entry i of the seeded live list is the threat drawn by draw i, stamped
      within the last half hour. */
  lemma {:induction false} SampleLiveAt(draws: seq<SampleDraw>, now: int, i: nat)
    requires i < |draws|
    ensures SampleLive(draws, now)[i] == LiveSample(draws[i], now)
    ensures now - 1800 <= SampleLive(draws, now)[i].timestamp <= now
    decreases |draws|
  {
    if i < |draws| - 1 {
      SampleLiveAt(draws[..|draws| - 1], now, i);
    }
  }

  /** `data.get(key, default)`. */
  function Get(body: map<string, string>, key: string, default: string): string
  {
    if key in body then body[key] else default
  }

  /** `all(field in data for field in required_fields)`. */
  predicate HasRequiredFields(body: map<string, string>)
  {
    forall f :: f in REQUIRED_FIELDS ==> f in body
  }

  /** The threat `submit_threat` builds from a body carrying the required
      fields, given the id of the node it drew; `SubmittedThreatFields` says
      what it holds. */
  function SubmittedThreat(body: map<string, string>, d: SubmitDraw, nodeId: string): Threat
    requires HasRequiredFields(body)
  {
    assert "ip" in REQUIRED_FIELDS && "threatType" in REQUIRED_FIELDS && "severity" in REQUIRED_FIELDS;
    Threat(
      TaggedId("USR", RandInt(1000, 9999, d.idPick)), body["threatType"], body["severity"],
      Get(body, "source", "User Submitted"), body["ip"], d.createdAt, "Monitoring",
      Get(body, "description", "User submitted " + body["threatType"] + " from " + body["ip"]),
      nodeId, Some(Get(body, "location", "Unknown")), Some(Get(body, "protocol", "Unknown")),
      Some(Get(body, "port", "0")), Some(Get(body, "attackVector", "Unknown")), Some(10000), Some(true))
  }

  /** A submitted threat: type, severity and ip from the body; source,
      description and the other optional fields from the body or their
      defaults; status Monitoring, confidence 100.00, a `USR-` id, the
      submission time, marked as user-submitted. */
  lemma SubmittedThreatFields(body: map<string, string>, d: SubmitDraw, nodeId: string)
    requires HasRequiredFields(body)
    ensures var t := SubmittedThreat(body, d, nodeId);
      && "ip" in body && "threatType" in body && "severity" in body
      && t.threatType == body["threatType"] && t.severity == body["severity"] && t.ip == body["ip"]
      && t.status == "Monitoring" && t.confidence == Some(10000) && t.userSubmitted == Some(true)
      && FourDigitId(t.threatId, "USR") && t.timestamp == d.createdAt
      && t.source == (if "source" in body then body["source"] else "User Submitted")
      && t.description == (if "description" in body then body["description"]
                           else "User submitted " + t.threatType + " from " + t.ip)
      && t.port == Some(if "port" in body then body["port"] else "0")
      && t.location == Some(if "location" in body then body["location"] else "Unknown")
      && t.protocol == Some(if "protocol" in body then body["protocol"] else "Unknown")
      && t.attackVector == Some(if "attackVector" in body then body["attackVector"] else "Unknown")
      && t.nodeId == nodeId
  {
    assert "ip" in REQUIRED_FIELDS && "threatType" in REQUIRED_FIELDS && "severity" in REQUIRED_FIELDS;
    TaggedIdReadsBack("USR", RandInt(1000, 9999, d.idPick));
  }

  // ---------------------------------------------------------------------
  // Blocks and responses.

  /** The block `create_blockchain_block` appends: mined by the threat's
      node, one transaction. */
  function EnhancedBlock(number: nat, t: Threat, h: HashDraw, previousHash: string): Block
  {
    Block(number, h.threatHash, h.blockHash, previousHash, t.threatType, t.threatId, t.timestamp,
          VERIFIED, t.nodeId, t.severity, Some(t.nodeId), Some(1))
  }

  /** The appended block records its threat, carries the counter's number,
      the given link and the two digests, is mined by the threat's node and
      holds one transaction. */
  lemma EnhancedBlockRecords(number: nat, t: Threat, h: HashDraw, previousHash: string)
    ensures var b := EnhancedBlock(number, t, h, previousHash);
      && BlockRecords(b, t) && b.blockNumber == number && b.previousHash == previousHash
      && b.threatHash == h.threatHash && b.currentHash == h.blockHash && b.verificationStatus == VERIFIED
      && b.minedBy == Some(t.nodeId) && b.transactionCount == Some(1)
  {
  }

  /** What `generate_automated_response` appends and returns: a log exactly
      when the severity policy fires; `EnhancedResponseFields` says what it
      holds. */
  function EnhancedResponseFor(t: Threat, d: ResponseDraw): (r: Option<ResponseLog>)
    ensures r.Some? <==> Policy.Fires(t.severity, d.mediumCoin)
  {
    if Policy.Fires(t.severity, d.mediumCoin) then
      Some(ResponseLog(TaggedId("LOG", RandInt(1000, 9999, d.logIdPick)), Policy.ChosenAction(t.severity, d.actionPick),
                       t.ip, t.threatType, t.threatId, d.loggedAt, Policy.OutcomeStatus(d.successCoin),
                       t.nodeId, t.severity, Some(RandInt(10, 500, d.responseTimePick)), Some(true)))
    else None
  }

  /** A log of the twin carries an action configured for the severity, the
      threat's identifying fields, a Success or Pending outcome (Success
      exactly on the success coin), a response time of 10-500 ms, and is
      marked automated. */
  lemma EnhancedResponseFields(t: Threat, d: ResponseDraw)
    ensures var r := EnhancedResponseFor(t, d);
      r.Some? ==>
        && LogDescribes(r.value, t) && r.value.action in Config.ActionsFor(t.severity)
        && r.value.status in Policy.RESPONSE_STATUSES && (r.value.status == "Success" <==> d.successCoin)
        && r.value.automated == Some(true) && FourDigitId(r.value.logId, "LOG")
        && r.value.responseTime.Some? && 10 <= r.value.responseTime.value <= 500
  {
    TaggedIdReadsBack("LOG", RandInt(1000, 9999, d.logIdPick));
  }

  /** The submission window: after the append, `pop(0)` once if over the
      limit. */
  function Window(s: seq<Threat>): seq<Threat>
  {
    if |s| > LIVE_LIMIT then s[1..] else s
  }

  /** From a window within the limit, a submission leaves it within the
      limit with the new threat last, dropping at most the earliest-inserted
      entry whatever its timestamp. */
  lemma SubmitWindow(live: seq<Threat>, t: Threat)
    requires |live| <= LIVE_LIMIT
    ensures var w := Window(live + [t]);
      && |w| == (if |live| == LIVE_LIMIT then LIVE_LIMIT else |live| + 1)
      && w[|w| - 1] == t
      && w == (if |live| == LIVE_LIMIT then live[1..] else live) + [t]
  {
  }

  // ---------------------------------------------------------------------
  // Submission replies.

  /** The outcome of `submit_threat`, without the JSON shaping: accepted with
      the threat, its block number and the response action (or Monitoring);
      rejected for missing fields; failed on an exception. */
  datatype SubmitReply =
    | Accepted(threat: Threat, blockNumber: nat, response: string)
    | Rejected(message: string)
    | Failed(message: string)

  function StatusCode(r: SubmitReply): (code: nat)
    ensures code == 201 <==> r.Accepted?
  {
    match r
    case Accepted(_, _, _) => 201
    case Rejected(_) => 400
    case Failed(_) => 500
  }

  /** `response['action'] if response else 'Monitoring'`. */
  function ResponseText(r: Option<ResponseLog>): string
  {
    if r.Some? then r.value.action else "Monitoring"
  }

  // ---------------------------------------------------------------------
  // The module state.

  /** The module-level lists, the node list, the AI status counter and its
      last refresh time, and the global block counter. The AI status fields
      no code path changes are left out. */
  class EnhancedApp {
    var threatHistory: seq<Threat>
    var liveThreats: seq<Threat>
    var userSubmittedThreats: seq<Threat>
    var ledger: seq<Block>
    var responseLogs: seq<ResponseLog>
    var nodesStatus: seq<NodeDoc>
    var threatsAnalyzed: nat
    var aiUpdatedAt: Option<nat>
    var blockCounter: nat

    /** The ledger is a well-formed chain numbered by the counter, and the
      node list keeps the initial roster. */
    predicate Valid()
      reads this`ledger, this`blockCounter, this`nodesStatus
    {
      InSync() && SameRoster(nodesStatus, InitialNodes())
    }

    /** The ledger is a well-formed chain and the counter names the block
      after it. */
    predicate InSync()
      reads this`ledger, this`blockCounter
    {
      WellChained(ledger) && blockCounter == |ledger| + 1
    }

    /** Every threat is counted once by the AI counter. */
    predicate CountsEachThreatOnce()
      reads this`threatsAnalyzed, this`threatHistory
    {
      threatsAnalyzed == |threatHistory|
    }

    /** Every history entry has its block at the same ledger position. */
    predicate LedgerMirrorsHistory()
      reads this`ledger, this`threatHistory
    {
      Mirrors(ledger, threatHistory)
    }

    /** Node counters count the seeded threats: submissions are in the
      history but bump no node. */
    predicate NodesCountSeededThreats()
      reads this`nodesStatus, this`userSubmittedThreats, this`threatHistory
    {
      TotalDetected(nodesStatus) + |userSubmittedThreats| == |threatHistory|
    }

    /** The module state before `initialize_sample_data` runs. */
    constructor ()
      ensures threatHistory == [] && liveThreats == [] && userSubmittedThreats == []
      ensures ledger == [] && responseLogs == [] && nodesStatus == InitialNodes()
      ensures threatsAnalyzed == 0 && aiUpdatedAt == None && blockCounter == 1
      ensures Valid() && CountsEachThreatOnce() && NodesCountSeededThreats() && LedgerMirrorsHistory()
    {
      threatHistory, liveThreats, userSubmittedThreats := [], [], [];
      ledger, responseLogs, nodesStatus := [], [], InitialNodes();
      threatsAnalyzed, aiUpdatedAt, blockCounter := 0, None, 1;
      new;
      InitialNodesMatchConfig();
    }

    /** `create_blockchain_block`: append a block numbered by the counter and
      linked to the last list element, advance the counter, return the
      block. Earlier blocks are untouched and a valid chain stays valid. */
    method CreateBlockchainBlock(threat: Threat, hashes: HashDraw) returns (block: Block)
      requires ValidHashes(hashes)
      modifies this`ledger, this`blockCounter
      ensures block == EnhancedBlock(old(blockCounter), threat, hashes, ChainTail(old(ledger)))
      ensures ledger == old(ledger) + [block] && blockCounter == old(blockCounter) + 1
      ensures old(InSync()) ==> InSync()
    {
      var previousHash := if |ledger| > 0 then ledger[|ledger| - 1].currentHash else GENESIS_HASH;
      block := EnhancedBlock(blockCounter, threat, hashes, previousHash);
      if InSync() {
        ChainExtends(ledger, block);
      }
      ledger := ledger + [block];
      blockCounter := blockCounter + 1;
    }

    /** `generate_automated_response`: append the policy's log, if any, and
      return it; `None` exactly when nothing was appended. */
    method GenerateAutomatedResponse(threat: Threat, d: ResponseDraw) returns (response: Option<ResponseLog>)
      modifies this`responseLogs
      ensures response == EnhancedResponseFor(threat, d)
      ensures responseLogs == old(responseLogs) + OptionToSeq(response)
    {
      response := EnhancedResponseFor(threat, d);
      if response.Some? {
        responseLogs := responseLogs + [response.value];
      }
    }

    /** The seeding loop's node update: every node whose id matches gains
      one detection. */
    method RecordDetection(id: string)
      modifies this`nodesStatus
      ensures nodesStatus == IncAllMatching(old(nodesStatus), id)
    {
      ghost var before := nodesStatus;
      for j := 0 to |nodesStatus|
        invariant |nodesStatus| == |before|
        invariant forall k :: 0 <= k < |before| ==>
          nodesStatus[k] == if k < j && before[k].nodeId == id then Bump(before[k]) else before[k]
      {
        if nodesStatus[j].nodeId == id {
          nodesStatus := nodesStatus[j := Bump(nodesStatus[j])];
        }
      }
    }

    /** The body of the seeding loop for a generated threat: it enters the
      history, gets a block and possibly a response, and its node counts
      one more detection. */
    method RecordSeeded(threat: Threat, hashes: HashDraw, rd: ResponseDraw)
      requires Valid() && ValidHashes(hashes) && threat.nodeId in NodeIdsOf(nodesStatus)
      modifies this`threatHistory, this`ledger, this`blockCounter, this`responseLogs, this`nodesStatus
      ensures threatHistory == old(threatHistory) + [threat]
      ensures ledger == old(ledger) + [EnhancedBlock(old(blockCounter), threat, hashes, ChainTail(old(ledger)))]
      ensures responseLogs == old(responseLogs) + OptionToSeq(EnhancedResponseFor(threat, rd))
      ensures nodesStatus == IncAllMatching(old(nodesStatus), threat.nodeId)
      ensures TotalDetected(nodesStatus) == old(TotalDetected(nodesStatus)) + 1
      ensures old(LedgerMirrorsHistory()) ==> LedgerMirrorsHistory()
      ensures Valid()
    {
      DetectionKeepsRoster(nodesStatus, threat.nodeId);
      if LedgerMirrorsHistory() {
        MirrorExtends(ledger, threatHistory, EnhancedBlock(blockCounter, threat, hashes, ChainTail(ledger)), threat);
      }
      threatHistory := threatHistory + [threat];
      var _ := CreateBlockchainBlock(threat, hashes);
      var _ := GenerateAutomatedResponse(threat, rd);
      RecordDetection(threat.nodeId);
    }

    /** One iteration of the seeding loop: a threat drawn against the node
      list and back-dated by 10 to 1440 minutes is recorded. */
    method SeedOne(tick: SampleTick, now: int) returns (threat: Threat)
      requires Valid() && ValidHashes(tick.hashes)
      modifies this`threatHistory, this`ledger, this`blockCounter, this`responseLogs, this`nodesStatus
      ensures threat == SampleThreat(tick, now)
      ensures threatHistory == old(threatHistory) + [threat]
      ensures |ledger| == |old(ledger)| + 1
      ensures TotalDetected(nodesStatus) == old(TotalDetected(nodesStatus)) + 1
      ensures old(LedgerMirrorsHistory()) ==> LedgerMirrorsHistory()
      ensures Valid()
    {
      var stamp := BackDated(now, 10, 1440, tick.threat.minutesAgoPick);
      var node := Pick(nodesStatus, tick.threat.nodePick);
      PickOnRoster(nodesStatus, tick.threat.nodePick);
      threat := RealisticThreat(node.nodeId, node.location, tick.threat, stamp);
      RecordSeeded(threat, tick.hashes, tick.response);
    }

    /** The first loop of `initialize_sample_data`: thirty seeded history
      entries, each with its block, possible response and node detection. */
    method SeedHistory(samples: seq<SampleTick>, now: int)
      requires Valid()
      requires |samples| == SAMPLE_HISTORY
      requires forall i :: 0 <= i < |samples| ==> ValidHashes(samples[i].hashes)
      modifies this`threatHistory, this`ledger, this`blockCounter, this`responseLogs, this`nodesStatus
      ensures threatHistory == old(threatHistory) + SampleHistory(samples, now)
      ensures |ledger| == |old(ledger)| + SAMPLE_HISTORY
      ensures old(LedgerMirrorsHistory()) ==> LedgerMirrorsHistory()
      ensures TotalDetected(nodesStatus) == old(TotalDetected(nodesStatus)) + SAMPLE_HISTORY
      ensures Valid()
    {
      for i := 0 to SAMPLE_HISTORY
        invariant Valid()
        invariant threatHistory == old(threatHistory) + SampleHistory(samples[..i], now)
        invariant |ledger| == |old(ledger)| + i
        invariant old(LedgerMirrorsHistory()) ==> LedgerMirrorsHistory()
        invariant TotalDetected(nodesStatus) == old(TotalDetected(nodesStatus)) + i
      {
        var threat := SeedOne(samples[i], now);
        SampleHistoryStep(old(threatHistory), samples, now, i, threatHistory);
      }
      assert samples[..SAMPLE_HISTORY] == samples;
    }

    /** The second loop of `initialize_sample_data`: ten live threats. */
    method SeedLive(live: seq<SampleDraw>, now: int)
      requires Valid() && |live| == SAMPLE_LIVE
      modifies this`liveThreats
      ensures liveThreats == old(liveThreats) + SampleLive(live, now)
    {
      for i := 0 to SAMPLE_LIVE
        invariant liveThreats == old(liveThreats) + SampleLive(live[..i], now)
      {
        var stamp := BackDated(now, 0, 30, live[i].minutesAgoPick);
        var node := Pick(nodesStatus, live[i].nodePick);
        PickOnRoster(nodesStatus, live[i].nodePick);
        var threat := RealisticThreat(node.nodeId, node.location, live[i], stamp);
        liveThreats := liveThreats + [threat];
        SampleLiveStep(old(liveThreats), live, now, i, liveThreats);
      }
      assert live[..SAMPLE_LIVE] == live;
    }

    /** `initialize_sample_data`: the seeded history, then the seeded live
      threats, then the AI counter set to the history length. */
    method InitializeSampleData(samples: seq<SampleTick>, live: seq<SampleDraw>, now: int)
      requires Valid()
      requires |samples| == SAMPLE_HISTORY && |live| == SAMPLE_LIVE
      requires forall i :: 0 <= i < |samples| ==> ValidHashes(samples[i].hashes)
      modifies this`threatHistory, this`ledger, this`blockCounter, this`responseLogs, this`nodesStatus
      modifies this`liveThreats, this`threatsAnalyzed
      ensures threatHistory == old(threatHistory) + SampleHistory(samples, now)
      ensures liveThreats == old(liveThreats) + SampleLive(live, now)
      ensures |ledger| == |old(ledger)| + SAMPLE_HISTORY
      ensures old(LedgerMirrorsHistory()) ==> LedgerMirrorsHistory()
      ensures TotalDetected(nodesStatus) == old(TotalDetected(nodesStatus)) + SAMPLE_HISTORY
      ensures threatsAnalyzed == |threatHistory|
      ensures Valid()
    {
      SeedHistory(samples, now);
      SeedLive(live, now);
      threatsAnalyzed := |threatHistory|;
    }

    /** The accepted path of `submit_threat`, for the threat built from the
      body: it enters the submitted list, the history and the live window
      (popping the earliest-inserted entry if over the limit), gets one
      block and possibly a response, and the AI counter rises by one; node
      counters are not touched. */
    method Accept(threat: Threat, hashes: HashDraw, rd: ResponseDraw) returns (reply: SubmitReply)
      requires Valid() && ValidHashes(hashes)
      modifies this`userSubmittedThreats, this`threatHistory, this`liveThreats, this`ledger
      modifies this`blockCounter, this`responseLogs, this`threatsAnalyzed
      ensures reply == Accepted(threat, old(blockCounter), ResponseText(EnhancedResponseFor(threat, rd)))
      ensures userSubmittedThreats == old(userSubmittedThreats) + [threat]
      ensures threatHistory == old(threatHistory) + [threat]
      ensures liveThreats == Window(old(liveThreats) + [threat])
      ensures ledger == old(ledger) + [EnhancedBlock(old(blockCounter), threat, hashes, ChainTail(old(ledger)))]
      ensures responseLogs == old(responseLogs) + OptionToSeq(EnhancedResponseFor(threat, rd))
      ensures threatsAnalyzed == old(threatsAnalyzed) + 1
      ensures Valid()
      ensures old(CountsEachThreatOnce()) ==> CountsEachThreatOnce()
      ensures old(NodesCountSeededThreats()) ==> NodesCountSeededThreats()
      ensures old(LedgerMirrorsHistory()) ==> LedgerMirrorsHistory()
    {
      if LedgerMirrorsHistory() {
        MirrorExtends(ledger, threatHistory, EnhancedBlock(blockCounter, threat, hashes, ChainTail(ledger)), threat);
      }
      userSubmittedThreats := userSubmittedThreats + [threat];
      threatHistory := threatHistory + [threat];
      liveThreats := liveThreats + [threat];
      if |liveThreats| > LIVE_LIMIT {
        liveThreats := liveThreats[1..];
      }
      var block := CreateBlockchainBlock(threat, hashes);
      var response := GenerateAutomatedResponse(threat, rd);
      threatsAnalyzed := threatsAnalyzed + 1;
      reply := Accepted(threat, block.blockNumber, ResponseText(response));
    }

    /** `submit_threat` without the JSON shaping. A null body fails with 500
      and a body missing a required field is rejected with 400, both
      changing nothing; otherwise the threat built from the body, on the
      node the draw picks, is accepted. Either way the counting invariants
      are kept. */
    method SubmitThreat(body: Option<map<string, string>>, d: SubmitDraw) returns (reply: SubmitReply)
      requires Valid() && ValidHashes(d.hashes)
      modifies this`userSubmittedThreats, this`threatHistory, this`liveThreats, this`ledger
      modifies this`blockCounter, this`responseLogs, this`threatsAnalyzed
      ensures body.None? ==> reply == Failed(NULL_BODY_MESSAGE) && unchanged(this)
      ensures body.Some? && !HasRequiredFields(body.value) ==>
        reply == Rejected(MISSING_FIELDS_MESSAGE) && unchanged(this)
      ensures body.Some? && HasRequiredFields(body.value) ==>
        && reply.Accepted?
        && reply.threat == SubmittedThreat(body.value, d, Pick(InitialNodes(), d.nodePick).nodeId)
        && var t := reply.threat;
        && reply == Accepted(t, old(blockCounter), ResponseText(EnhancedResponseFor(t, d.response)))
        && userSubmittedThreats == old(userSubmittedThreats) + [t]
        && threatHistory == old(threatHistory) + [t]
        && liveThreats == Window(old(liveThreats) + [t])
        && ledger == old(ledger) + [EnhancedBlock(old(blockCounter), t, d.hashes, ChainTail(old(ledger)))]
        && responseLogs == old(responseLogs) + OptionToSeq(EnhancedResponseFor(t, d.response))
        && threatsAnalyzed == old(threatsAnalyzed) + 1
      ensures Valid()
      ensures old(CountsEachThreatOnce()) ==> CountsEachThreatOnce()
      ensures old(NodesCountSeededThreats()) ==> NodesCountSeededThreats()
      ensures old(LedgerMirrorsHistory()) ==> LedgerMirrorsHistory()
    {
      if body.None? {
        return Failed(NULL_BODY_MESSAGE);
      }
      var data := body.value;
      if !("ip" in data && "threatType" in data && "severity" in data) {
        return Rejected(MISSING_FIELDS_MESSAGE);
      }
      var node := Pick(nodesStatus, d.nodePick);
      PickOnRoster(nodesStatus, d.nodePick);
      var threat := SubmittedThreat(data, d, node.nodeId);
      reply := Accept(threat, d.hashes, d.response);
    }

    /** `get_ai_status` as written: the counter becomes the history length
      plus the number of submissions, and the refresh time is now. */
    method GetAiStatusAsWritten(now: nat) returns (reported: nat)
      modifies this`threatsAnalyzed, this`aiUpdatedAt
      ensures reported == threatsAnalyzed == |threatHistory| + |userSubmittedThreats|
      ensures aiUpdatedAt == Some(now)
    {
      threatsAnalyzed := |threatHistory| + |userSubmittedThreats|;
      aiUpdatedAt := Some(now);
      reported := threatsAnalyzed;
    }

    /** `get_ai_status` corrected: submissions are already in the history,
      so the history length alone counts every threat once. */
    method GetAiStatus(now: nat) returns (reported: nat)
      modifies this`threatsAnalyzed, this`aiUpdatedAt
      ensures reported == threatsAnalyzed == |threatHistory|
      ensures aiUpdatedAt == Some(now)
      ensures CountsEachThreatOnce()
    {
      threatsAnalyzed := |threatHistory|;
      aiUpdatedAt := Some(now);
      reported := threatsAnalyzed;
    }
  }

  /** Module import: the initial state, then `initialize_sample_data`.
      Thirty history entries, thirty blocks in a well-formed chain, node
      counters summing to thirty, thirty threats analyzed and ten live
      threats. */
  method Startup(samples: seq<SampleTick>, live: seq<SampleDraw>, now: int)
    returns (history: nat, blocks: nat, analyzed: nat, detected: nat, liveCount: nat, chained: bool)
    requires |samples| == SAMPLE_HISTORY && |live| == SAMPLE_LIVE
    requires forall i :: 0 <= i < |samples| ==> ValidHashes(samples[i].hashes)
    ensures history == 30 && blocks == 30 && analyzed == 30 && detected == 30 && liveCount == 10 && chained
  {
    var app := new EnhancedApp();
    app.InitializeSampleData(samples, live, now);
    history, blocks, analyzed := |app.threatHistory|, |app.ledger|, app.threatsAnalyzed;
    detected, liveCount, chained := TotalDetected(app.nodesStatus), |app.liveThreats|, WellChained(app.ledger);
  }

  /** As written: one accepted submission on a fresh state, one threat
      processed, two reported by the AI status endpoint. */
  method SubmissionCountedTwice(body: map<string, string>, d: SubmitDraw, now: nat)
    returns (processed: nat, reported: nat)
    requires HasRequiredFields(body) && ValidHashes(d.hashes)
    ensures processed == 1 && reported == 2
  {
    var app := new EnhancedApp();
    var reply := app.SubmitThreat(Some(body), d);
    processed := |app.threatHistory|;
    reported := app.GetAiStatusAsWritten(now);
  }

  /** Corrected: the same submission is reported once. */
  method SubmissionCountedOnce(body: map<string, string>, d: SubmitDraw, now: nat)
    returns (processed: nat, reported: nat)
    requires HasRequiredFields(body) && ValidHashes(d.hashes)
    ensures processed == 1 && reported == 1
  {
    var app := new EnhancedApp();
    var reply := app.SubmitThreat(Some(body), d);
    processed := |app.threatHistory|;
    reported := app.GetAiStatus(now);
  }

  /** A Critical submission on a fresh state is accepted with 201, gets
      block 1, keeps the submitted ip, is being monitored, and is answered
      with one of the Critical actions. */
  method CriticalSubmission(d: SubmitDraw) returns (accepted: SubmitReply)
    requires ValidHashes(d.hashes)
    ensures StatusCode(accepted) == 201 && accepted.Accepted? && accepted.blockNumber == 1
    ensures accepted.response in Config.ActionsFor("Critical")
    ensures accepted.threat.ip == "10.0.0.5" && accepted.threat.status == "Monitoring"
  {
    var app := new EnhancedApp();
    var body := map["ip" := "10.0.0.5", "threatType" := "DDoS Attack", "severity" := "Critical"];
    accepted := app.SubmitThreat(Some(body), d);
  }

  /** A body without an ip is refused with status 400 and adds no block. */
  method IncompleteSubmission(d: SubmitDraw) returns (rejected: SubmitReply, blocks: nat)
    requires ValidHashes(d.hashes)
    ensures StatusCode(rejected) == 400 && rejected.Rejected? && blocks == 0
  {
    var app := new EnhancedApp();
    rejected := app.SubmitThreat(Some(map["threatType" := "DDoS Attack", "severity" := "Critical"]), d);
    blocks := |app.ledger|;
  }
}
