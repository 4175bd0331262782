/** The documents the simulation writes (threats, ledger blocks, response
    logs, node and AI status rows), the random draws it consumes, and the
    hash-chain shape of the ledger. Shared by the store-backed engine
    (module Services) and the in-memory engine (module Enhanced). */
module Records {

  datatype Option<T> = None | Some(value: T)

  /** An optional write as it appears in an append-only collection. */
  function OptionToSeq<T>(o: Option<T>): (s: seq<T>)
    ensures |s| <= 1 && (o.Some? <==> |s| == 1)
    ensures o.Some? ==> s[0] == o.value
  {
    if o.Some? then [o.value] else []
  }

  // ---------------------------------------------------------------------
  // Random draws. The source draws from Python's `random`; the model takes
  // each draw as a parameter, so every run of the source is some choice
  // of draws.

  /** `random.choice(xs)` with draw `k`. */
  function Pick<T>(xs: seq<T>, k: nat): (x: T)
    requires |xs| > 0
    ensures x in xs
  {
    xs[k % |xs|]
  }

  /** Every element of `xs` is the outcome of some draw. */
  lemma PickCoversAll<T>(xs: seq<T>, i: nat)
    requires i < |xs|
    ensures Pick(xs, i) == xs[i]
  {
  }

  /** `random.randint(lo, hi)` with draw `k` (both ends included). */
  function RandInt(lo: nat, hi: nat, k: nat): (n: nat)
    requires lo <= hi
    ensures lo <= n <= hi
  {
    lo + k % (hi - lo + 1)
  }

  // ---------------------------------------------------------------------
  // Text helpers for the formatted fields.

  function DigitChar(d: nat): (c: char)
    requires d < 10
    ensures '0' <= c <= '9'
  {
    ('0' as int + d) as char
  }

  predicate AllDigits(s: string)
  {
    forall i :: 0 <= i < |s| ==> '0' <= s[i] <= '9'
  }

  /** The number a string of decimal digits denotes, as Python's `int(s)`. */
  function DigitsValue(s: string): nat
    requires AllDigits(s)
    decreases |s|
  {
    if s == [] then 0 else 10 * DigitsValue(s[..|s| - 1]) + (s[|s| - 1] as int - '0' as int)
  }

  /** Decimal rendering of a natural number, as Python's `str(n)`: no
      leading zero, so a rendering starts with `0` only when it is `0`. */
  function Decimal(n: nat): (s: string)
    ensures |s| > 0 && AllDigits(s)
    ensures s[0] == '0' <==> n == 0
    decreases n
  {
    if n < 10 then [DigitChar(n)] else Decimal(n / 10) + [DigitChar(n % 10)]
  }

  /** Reading the rendering back gives the number. */
  lemma {:induction false} DecimalRoundTrip(n: nat)
    ensures DigitsValue(Decimal(n)) == n
    decreases n
  {
    if n >= 10 {
      DecimalRoundTrip(n / 10);
      assert Decimal(n)[..|Decimal(n)| - 1] == Decimal(n / 10);
    }
  }

  /** A number drawn from 1000..9999 is rendered with exactly four digits. */
  lemma FourDigits(n: nat)
    requires 1000 <= n <= 9999
    ensures |Decimal(n)| == 4
  {
    assert |Decimal(n / 1000)| == 1;
    assert |Decimal(n / 100)| == 2;
    assert |Decimal(n / 10)| == 3;
  }

  /** `str.lower()` restricted to ASCII letters (all configured names are ASCII). */
  function Lower(s: string): (r: string)
    ensures |r| == |s|
    ensures forall i :: 0 <= i < |s| ==> !('A' <= r[i] <= 'Z')
    ensures forall i :: 0 <= i < |s| ==>
      if 'A' <= s[i] <= 'Z' then r[i] as int == s[i] as int + 32 else r[i] == s[i]
  {
    seq(|s|, i requires 0 <= i < |s| =>
      if 'A' <= s[i] <= 'Z' then (s[i] as int + 32) as char else s[i])
  }

  predicate HasPrefix(s: string, p: string)
  {
    |p| <= |s| && s[..|p|] == p
  }

  /** Identifiers such as `THR-4821`: the tag, a dash and the drawn number
      in decimal; `TaggedIdReadsBack` says what follows the dash. */
  function TaggedId(tag: string, n: nat): (id: string)
    ensures HasPrefix(id, tag + "-")
  {
    var id := tag + "-" + Decimal(n);
    assert id[..|tag| + 1] == tag + "-";
    id
  }

  /** What follows the dash of a tagged id is a non-empty run of digits that
      reads back as the drawn number; a draw from 1000..9999 gives four of
      them. */
  lemma TaggedIdReadsBack(tag: string, n: nat)
    ensures var id := TaggedId(tag, n);
      && |id| > |tag| + 1 && AllDigits(id[|tag| + 1..]) && DigitsValue(id[|tag| + 1..]) == n
    ensures 1000 <= n <= 9999 ==> FourDigitId(TaggedId(tag, n), tag)
  {
    var id := TaggedId(tag, n);
    assert id[|tag| + 1..] == Decimal(n);
    DecimalRoundTrip(n);
    if 1000 <= n <= 9999 {
      FourDigits(n);
    }
  }

  /** A `USR-`/`THR-`/`LOG-` style id: the tag, a dash and four digits
      denoting a number in 1000..9999. */
  predicate FourDigitId(id: string, tag: string)
  {
    && HasPrefix(id, tag + "-") && |id| == |tag| + 5
    && AllDigits(id[|tag| + 1..]) && 1000 <= DigitsValue(id[|tag| + 1..]) <= 9999
  }

  /** The four octet draws of `generate_random_ip`. */
  datatype IpDraw = IpDraw(a: nat, b: nat, c: nat, d: nat)

  /** The dot-separated fields of a string, as Python's `s.split('.')`. */
  function Fields(s: string): (f: seq<string>)
    ensures |f| > 0
    decreases |s|
  {
    if s == [] then [""]
    else
      var rest := Fields(s[1..]);
      if s[0] == '.' then [""] + rest else [[s[0]] + rest[0]] + rest[1..]
  }

  /** A field, a dot and the rest of the string. */
  function Dotted(field: string, rest: string): string
  {
    field + "." + rest
  }

  /** A run of digits followed by a dot is split off as one field. */
  lemma {:induction false} FieldsOfDigits(a: string, r: string)
    requires AllDigits(a)
    ensures Fields(Dotted(a, r)) == [a] + Fields(r)
    ensures Fields(a) == [a]
    decreases |a|
  {
    if a != [] {
      FieldsOfDigits(a[1..], r);
      assert Dotted(a, r)[1..] == Dotted(a[1..], r);
      assert [a[0]] + a[1..] == a;
    } else {
      assert Dotted(a, r) == "." + r;
    }
  }

  /** Four digit runs joined by dots split back into those four runs. */
  lemma FourFields(a: string, b: string, c: string, e: string)
    requires AllDigits(a) && AllDigits(b) && AllDigits(c) && AllDigits(e)
    ensures Fields(Dotted(a, Dotted(b, Dotted(c, e)))) == [a, b, c, e]
  {
    FieldsOfDigits(e, "");
    FieldsOfDigits(c, e);
    FieldsOfDigits(b, Dotted(c, e));
    FieldsOfDigits(a, Dotted(b, Dotted(c, e)));
  }

  /** An address as `generate_random_ip` writes it: four fields of decimal
      digits without leading zeros, each reading back as an octet, the first
      and last non-zero. */
  predicate GeneratedIp(ip: string)
  {
    var f := Fields(ip);
    && |f| == 4
    && (forall i :: 0 <= i < 4 ==>
          f[i] != [] && AllDigits(f[i]) && DigitsValue(f[i]) <= 255 && (f[i][0] == '0' ==> |f[i]| == 1))
    && DigitsValue(f[0]) >= 1 && DigitsValue(f[3]) >= 1
  }

  /** `generate_random_ip`: four drawn octets joined by dots;
      `RandomIpOctets` says what the address holds. */
  function RandomIp(d: IpDraw): string
  {
    Dotted(Decimal(RandInt(1, 255, d.a)), Dotted(Decimal(RandInt(0, 255, d.b)),
      Dotted(Decimal(RandInt(0, 255, d.c)), Decimal(RandInt(1, 255, d.d)))))
  }

  /** A generated address splits back into the four drawn octets, 1-255,
      0-255, 0-255 and 1-255. */
  lemma RandomIpOctets(d: IpDraw)
    ensures GeneratedIp(RandomIp(d))
    ensures var f := Fields(RandomIp(d));
      && |f| == 4
      && DigitsValue(f[0]) == RandInt(1, 255, d.a) && DigitsValue(f[1]) == RandInt(0, 255, d.b)
      && DigitsValue(f[2]) == RandInt(0, 255, d.c) && DigitsValue(f[3]) == RandInt(1, 255, d.d)
  {
    var a, b, c, e := RandInt(1, 255, d.a), RandInt(0, 255, d.b), RandInt(0, 255, d.c), RandInt(1, 255, d.d);
    FourFields(Decimal(a), Decimal(b), Decimal(c), Decimal(e));
    DecimalRoundTrip(a);
    DecimalRoundTrip(b);
    DecimalRoundTrip(c);
    DecimalRoundTrip(e);
  }

  /** The description both engines give a synthesized threat. */
  function Description(kind: string, ip: string): string
  {
    "Suspicious " + Lower(kind) + " activity detected from " + ip
  }

  // ---------------------------------------------------------------------
  // Hash digests. `hashlib.sha256(...).hexdigest()[:16]` over data that
  // includes a `random.random()` salt: only its shape is known.

  const DIGEST_WIDTH: nat := 16

  predicate IsHexDigit(c: char)
  {
    '0' <= c <= '9' || 'a' <= c <= 'f'
  }

  predicate IsDigest(h: string)
  {
    |h| == DIGEST_WIDTH && forall i :: 0 <= i < |h| ==> IsHexDigit(h[i])
  }

  /** `'0' * 16`: the previous hash of the first block. */
  const GENESIS_HASH: string := "0000000000000000"

  lemma GenesisIsDigest()
    ensures IsDigest(GENESIS_HASH)
    ensures |GENESIS_HASH| == 16 && forall i :: 0 <= i < 16 ==> GENESIS_HASH[i] == '0'
  {
  }

  /** The two digests a block needs: the threat hash and the block hash. */
  datatype HashDraw = HashDraw(threatHash: string, blockHash: string)

  predicate ValidHashes(h: HashDraw)
  {
    IsDigest(h.threatHash) && IsDigest(h.blockHash)
  }

  // ---------------------------------------------------------------------
  // Documents. A key that one engine's dict never holds is `None`.

  /** One threat document. Timestamps are seconds on a caller-supplied clock
      (an earlier-than-epoch back-dated sample is negative);
      `confidence` is in hundredths of a percent. */
  datatype Threat = Threat(
    threatId: string,
    threatType: string,
    severity: string,
    source: string,
    ip: string,
    timestamp: int,
    status: string,
    description: string,
    nodeId: string,
    location: Option<string>,
    protocol: Option<string>,
    port: Option<string>,
    attackVector: Option<string>,
    confidence: Option<nat>,
    userSubmitted: Option<bool>)

  /** One ledger block. */
  datatype Block = Block(
    blockNumber: nat,
    threatHash: string,
    currentHash: string,
    previousHash: string,
    threatType: string,
    threatId: string,
    timestamp: int,
    verificationStatus: string,
    nodeId: string,
    severity: string,
    minedBy: Option<string>,
    transactionCount: Option<nat>)

  const VERIFIED: string := "✅ Verified"

  /** One automated response log; `responseTime` in milliseconds. */
  datatype ResponseLog = ResponseLog(
    logId: string,
    action: string,
    targetIp: string,
    threatType: string,
    threatId: string,
    timestamp: nat,
    status: string,
    nodeId: string,
    severity: string,
    responseTime: Option<nat>,
    automated: Option<bool>)

  /** The draws of one response: the Medium 0.7 coin, the action choice,
      the log id, the 0.9 Success coin, the response time and the clock. */
  datatype ResponseDraw = ResponseDraw(
    mediumCoin: bool,
    actionPick: nat,
    logIdPick: nat,
    successCoin: bool,
    responseTimePick: nat,
    loggedAt: nat)

  /** The log copies the identifying fields of the threat it answers. */
  predicate LogDescribes(log: ResponseLog, t: Threat)
  {
    log.targetIp == t.ip && log.threatType == t.threatType && log.threatId == t.threatId
    && log.nodeId == t.nodeId && log.severity == t.severity
  }

  /** One node status row; `uptime` in tenths of a percent, `latency` in ms. */
  datatype NodeDoc = NodeDoc(
    nodeId: string,
    location: string,
    status: string,
    lastSyncTime: Option<nat>,
    threatsDetected: nat,
    uptime: nat,
    latency: nat)

  // ---------------------------------------------------------------------
  // The hash chain.

  /** Blocks are numbered 1, 2, 3, ... in ledger order, every hash is a
      16-digit digest, block 1 points at the genesis sentinel and every
      later block at the current hash of the block before it. */
  predicate WellChained(ledger: seq<Block>)
  {
    && (forall i :: 0 <= i < |ledger| ==> ledger[i].blockNumber == i + 1 && IsDigest(ledger[i].currentHash))
    && (|ledger| > 0 ==> ledger[0].previousHash == GENESIS_HASH)
    && (forall i :: 0 < i < |ledger| ==> LinksBack(ledger, i))
  }

  /** Block i carries the current hash of block i - 1 as its previous hash. */
  predicate LinksBack(ledger: seq<Block>, i: int)
    requires 0 < i < |ledger|
  {
    ledger[i].previousHash == ledger[i - 1].currentHash
  }

  /** The hash the next block links to: the last block's, or the sentinel. */
  function ChainTail(ledger: seq<Block>): string
  {
    if ledger == [] then GENESIS_HASH else ledger[|ledger| - 1].currentHash
  }

  /** Appending the block numbered after the chain and linked to its tail
      keeps the chain well formed. */
  lemma ChainExtends(ledger: seq<Block>, b: Block)
    requires WellChained(ledger)
    requires b.blockNumber == |ledger| + 1 && b.previousHash == ChainTail(ledger)
    requires IsDigest(b.currentHash)
    ensures WellChained(ledger + [b])
  {
    var l := ledger + [b];
    forall i | 0 < i < |l|
      ensures LinksBack(l, i)
    {
      if i < |ledger| {
        assert LinksBack(ledger, i);
      }
    }
  }

  /** Every block of a well-formed chain links to the hash the chain had
      just before it: the sentinel for block 1, the previous block's
      current hash for the others. */
  lemma LinksToPrefixTail(ledger: seq<Block>, i: nat)
    requires WellChained(ledger) && i < |ledger|
    ensures ledger[i].blockNumber == i + 1
    ensures ledger[i].previousHash == ChainTail(ledger[..i])
  {
    if i > 0 {
      assert LinksBack(ledger, i);
      assert ledger[..i][i - 1] == ledger[i - 1];
    }
  }

  /** In a well-formed chain every block after the first is numbered one
      past its predecessor and carries the predecessor's current hash. */
  lemma ConsecutiveBlocksLink(ledger: seq<Block>, i: nat)
    requires WellChained(ledger) && 0 < i < |ledger|
    ensures ledger[i].blockNumber == ledger[i - 1].blockNumber + 1
    ensures ledger[i].previousHash == ledger[i - 1].currentHash
  {
    assert LinksBack(ledger, i);
  }

  // ---------------------------------------------------------------------
  // Node counters.

  predicate IdsDistinct(nodes: seq<NodeDoc>)
  {
    forall i, j :: 0 <= i < j < |nodes| ==> nodes[i].nodeId != nodes[j].nodeId
  }

  /** The document a Mongo `update_one({'nodeId': id}, ...)` touches: the
      first one with that id, if any. */
  function FirstWithId(nodes: seq<NodeDoc>, id: string): (k: Option<nat>)
    ensures k.Some? ==> k.value < |nodes| && nodes[k.value].nodeId == id
    ensures k.Some? ==> forall j :: 0 <= j < k.value ==> nodes[j].nodeId != id
    ensures k.None? ==> forall j :: 0 <= j < |nodes| ==> nodes[j].nodeId != id
    decreases |nodes|
  {
    if nodes == [] then None
    else if nodes[0].nodeId == id then Some(0)
    else match FirstWithId(nodes[1..], id) {
      case None => None
      case Some(k) => Some(k + 1)
    }
  }

  function Bump(n: NodeDoc): NodeDoc
  {
    n.(threatsDetected := n.threatsDetected + 1)
  }

  /** `update_one({'nodeId': id}, {'$inc': {'threatsDetected': 1}})`. */
  function IncDetected(nodes: seq<NodeDoc>, id: string): seq<NodeDoc>
  {
    match FirstWithId(nodes, id) {
      case None => nodes
      case Some(k) => nodes[k := Bump(nodes[k])]
    }
  }

  /** `for node in nodes: if node['nodeId'] == id: node['threatsDetected'] += 1`. */
  function IncAllMatching(nodes: seq<NodeDoc>, id: string): seq<NodeDoc>
  {
    seq(|nodes|, j requires 0 <= j < |nodes| =>
      if nodes[j].nodeId == id then Bump(nodes[j]) else nodes[j])
  }

  function TotalDetected(nodes: seq<NodeDoc>): nat
  {
    if nodes == [] then 0 else nodes[0].threatsDetected + TotalDetected(nodes[1..])
  }

  lemma {:induction false} TotalAfterBump(nodes: seq<NodeDoc>, k: nat)
    requires k < |nodes|
    ensures TotalDetected(nodes[k := Bump(nodes[k])]) == TotalDetected(nodes) + 1
  {
    var n := nodes[k := Bump(nodes[k])];
    if k == 0 {
      assert n[1..] == nodes[1..];
    } else {
      assert n[1..] == nodes[1..][k - 1 := Bump(nodes[k])];
      TotalAfterBump(nodes[1..], k - 1);
    }
  }

  /** Incrementing a node's counter: the first document with the id gains
      exactly one detection, every other document and field is unchanged,
      and the total rises by one exactly when some document has the id. */
  lemma IncDetectedEffect(nodes: seq<NodeDoc>, id: string)
    ensures |IncDetected(nodes, id)| == |nodes|
    ensures forall j :: 0 <= j < |nodes| && FirstWithId(nodes, id) != Some(j) ==>
      IncDetected(nodes, id)[j] == nodes[j]
    ensures forall j :: 0 <= j < |nodes| && FirstWithId(nodes, id) == Some(j) ==>
      IncDetected(nodes, id)[j] == nodes[j].(threatsDetected := nodes[j].threatsDetected + 1)
    ensures TotalDetected(IncDetected(nodes, id))
      == TotalDetected(nodes) + (if FirstWithId(nodes, id).Some? then 1 else 0)
  {
    if FirstWithId(nodes, id).Some? {
      TotalAfterBump(nodes, FirstWithId(nodes, id).value);
    }
  }

  /** With distinct ids the loop that bumps every matching node bumps
      exactly the document `update_one` would. */
  lemma AllMatchingIsFirstMatch(nodes: seq<NodeDoc>, id: string)
    requires IdsDistinct(nodes)
    ensures IncAllMatching(nodes, id) == IncDetected(nodes, id)
  {
    var a, b := IncAllMatching(nodes, id), IncDetected(nodes, id);
    var first := FirstWithId(nodes, id);
    forall j | 0 <= j < |nodes|
      ensures a[j] == b[j]
    {
      if nodes[j].nodeId == id {
        assert first.Some?;
        assert first.value == j;
      }
    }
  }

  /** The block records the threat: same id, type, node, severity and time. */
  predicate BlockRecords(b: Block, t: Threat)
  {
    b.threatId == t.threatId && b.threatType == t.threatType && b.nodeId == t.nodeId
    && b.severity == t.severity && b.timestamp == t.timestamp
  }

  /** The ledger holds one block per history entry, at the same position,
      each recording its threat. */
  predicate Mirrors(ledger: seq<Block>, history: seq<Threat>)
  {
    |ledger| == |history| && forall i :: 0 <= i < |ledger| ==> BlockRecords(ledger[i], history[i])
  }

  /** Recording a threat and its block together keeps the mirror. */
  lemma MirrorExtends(ledger: seq<Block>, history: seq<Threat>, b: Block, t: Threat)
    requires Mirrors(ledger, history) && BlockRecords(b, t)
    ensures Mirrors(ledger + [b], history + [t])
  {
    var l, h := ledger + [b], history + [t];
    forall i | 0 <= i < |l| ensures BlockRecords(l[i], h[i]) {
      if i < |ledger| {
        assert l[i] == ledger[i] && h[i] == history[i];
      }
    }
  }

  /** Same node rows in the same order: only counters and metrics differ. */
  predicate SameRoster(a: seq<NodeDoc>, b: seq<NodeDoc>)
  {
    |a| == |b| && forall i :: 0 <= i < |a| ==> a[i].nodeId == b[i].nodeId && a[i].location == b[i].location
  }

  function NodeIdsOf(nodes: seq<NodeDoc>): (ids: seq<string>)
    ensures |ids| == |nodes| && forall i :: 0 <= i < |nodes| ==> ids[i] == nodes[i].nodeId
  {
    seq(|nodes|, i requires 0 <= i < |nodes| => nodes[i].nodeId)
  }

  /** An id present in a roster with distinct ids is counted exactly once:
      bumping every matching row raises the total by one. */
  lemma IncAllMatchingTotal(nodes: seq<NodeDoc>, id: string)
    requires IdsDistinct(nodes) && id in NodeIdsOf(nodes)
    ensures TotalDetected(IncAllMatching(nodes, id)) == TotalDetected(nodes) + 1
    ensures SameRoster(IncAllMatching(nodes, id), nodes)
  {
    AllMatchingIsFirstMatch(nodes, id);
    IncDetectedEffect(nodes, id);
    var ids := NodeIdsOf(nodes);
    var j :| 0 <= j < |ids| && ids[j] == id;
    assert nodes[j].nodeId == id;
  }
}
