/** backend/database.py: the document store the store-backed engine writes
    to, the collection-creation loop of `init_db` and the insert-if-empty
    seeding of the AI status singleton and the node rows. */
module Database {
  import opened Records
  import Config

  /** One AI status document; accuracy and false-positive rate in tenths of
      a percent, times in seconds on the caller's clock. */
  datatype AiDoc = AiDoc(
    modelType: string,
    accuracy: nat,
    trainingStatus: string,
    lastRetrainTime: int,
    modelVersion: string,
    activeModels: seq<string>,
    threatsAnalyzed: nat,
    falsePositiveRate: nat,
    nextRetrainScheduled: int,
    updatedAt: nat)

  const SECONDS_PER_DAY: nat := 86400
  const SECONDS_PER_HOUR: nat := 3600

  /** The database: one sequence of documents per collection, in insertion
      order, and the set of collection names that exist. */
  class Store {
    var collections: set<string>
    var liveThreats: seq<Threat>
    var threatHistory: seq<Threat>
    var ledger: seq<Block>
    var responseLogs: seq<ResponseLog>
    var nodesStatus: seq<NodeDoc>
    var aiStatus: seq<AiDoc>

    /** A database with no collections and no documents. */
    constructor ()
      ensures collections == {}
      ensures liveThreats == [] && threatHistory == [] && ledger == []
      ensures responseLogs == [] && nodesStatus == [] && aiStatus == []
    {
      collections := {};
      liveThreats, threatHistory, ledger := [], [], [];
      responseLogs, nodesStatus, aiStatus := [], [], [];
    }
  }

  /** The names the creation loop creates: those of `names`, in order, that
      were not in the snapshot `existing`. */
  function MissingCollections(names: seq<string>, existing: set<string>): (r: seq<string>)
    ensures forall n :: n in r <==> n in names && n !in existing
    ensures |r| <= |names|
    decreases |names|
  {
    if names == [] then []
    else
      var last := names[|names| - 1];
      MissingCollections(names[..|names| - 1], existing) + (if last in existing then [] else [last])
  }

  /** `init_db`'s loop over `COLLECTIONS.values()` against the snapshot
      `list_collection_names()`: every configured collection exists
      afterwards, one that already existed is not created again, and no
      document is touched. */
  method CreateCollections(store: Store) returns (created: seq<string>)
    modifies store`collections
    ensures created == MissingCollections(Config.CollectionNames(), old(store.collections))
    ensures store.collections == old(store.collections) + set n | n in Config.CollectionNames()
  {
    var existing := store.collections;
    var names := Config.CollectionNames();
    created := [];
    for i := 0 to |names|
      invariant created == MissingCollections(names[..i], existing)
      invariant forall n :: n in store.collections <==> n in existing || n in names[..i]
    {
      assert names[..i + 1] == names[..i] + [names[i]];
      if names[i] !in existing {
        store.collections := store.collections + {names[i]};
        created := created + [names[i]];
      }
    }
    assert names[..|names|] == names;
  }

  /** `init_db`: create the missing collections, then `initialize_static_data`.
      A collection that already existed is neither created again nor emptied. */
  method InitDb(store: Store, now: nat) returns (created: seq<string>)
    modifies store`collections, store`aiStatus, store`nodesStatus
    ensures created == MissingCollections(Config.CollectionNames(), old(store.collections))
    ensures store.collections == old(store.collections) + set n | n in Config.CollectionNames()
    ensures store.aiStatus == SeedAiStatus(old(store.aiStatus), now)
    ensures store.nodesStatus == SeedNodes(old(store.nodesStatus), now)
  {
    created := CreateCollections(store);
    InitializeStaticData(store, now);
  }

  /** The AI status document `initialize_static_data` inserts. */
  function InitialAiStatus(now: nat): AiDoc
  {
    AiDoc(
      Config.AI_MODEL_TYPE, Config.AI_MODEL_ACCURACY, Config.AI_TRAINING_STATUS,
      now - Config.AI_LAST_RETRAIN_DAYS_AGO * SECONDS_PER_DAY, Config.AI_MODEL_VERSION,
      Config.AI_ACTIVE_MODELS, 0, 15, now + 12 * SECONDS_PER_HOUR, now)
  }

  /** The node document `initialize_static_data` inserts for one configured node. */
  function InitialNodeDoc(node: Config.NodeConfig, now: nat): NodeDoc
  {
    NodeDoc(node.nodeId, node.location, node.status, Some(now), 0, 999, 25)
  }

  /** The node rows `initialize_static_data` seeds: one per configured node,
      in configuration order. */
  function SeededNodes(now: nat): seq<NodeDoc>
  {
    seq(|Config.NODES|, i requires 0 <= i < |Config.NODES| => InitialNodeDoc(Config.NODES[i], now))
  }

  /** The AI collection after seeding: one fresh document with nothing
      analyzed if it was empty, otherwise exactly as it was. */
  function SeedAiStatus(ai: seq<AiDoc>, now: nat): (r: seq<AiDoc>)
    ensures ai == [] ==> |r| == 1 && r[0].threatsAnalyzed == 0
    ensures ai != [] ==> r == ai
  {
    if ai == [] then [InitialAiStatus(now)] else ai
  }

  /** The node collection after seeding: if it was empty, one document per
      configured node with the node's id, location and status and no
      detections; otherwise exactly as it was, even if nodes are missing. */
  function SeedNodes(nodes: seq<NodeDoc>, now: nat): (r: seq<NodeDoc>)
    ensures nodes == [] ==> |r| == |Config.NODES|
    ensures nodes == [] ==> forall i :: 0 <= i < |r| ==>
      && r[i].nodeId == Config.NODES[i].nodeId && r[i].location == Config.NODES[i].location
      && r[i].status == Config.NODES[i].status && r[i].threatsDetected == 0
    ensures nodes == [] ==> IdsDistinct(r) && TotalDetected(r) == 0
    ensures nodes != [] ==> r == nodes
  {
    if nodes == [] then
      var r := SeededNodes(now);
      Config.NodeTable();
      assert TotalDetected(r[2..]) == 0;
      r
    else nodes
  }

  /** `initialize_static_data`: insert the AI singleton if its collection is
      empty, insert one row per configured node if the node collection is
      empty; every other collection is left alone. */
  method InitializeStaticData(store: Store, now: nat)
    modifies store`aiStatus, store`nodesStatus
    ensures store.aiStatus == SeedAiStatus(old(store.aiStatus), now)
    ensures store.nodesStatus == SeedNodes(old(store.nodesStatus), now)
  {
    if |store.aiStatus| == 0 {
      store.aiStatus := store.aiStatus + [InitialAiStatus(now)];
    }
    if |store.nodesStatus| == 0 {
      for i := 0 to |Config.NODES|
        invariant store.nodesStatus == SeededNodes(now)[..i]
        invariant store.aiStatus == SeedAiStatus(old(store.aiStatus), now)
      {
        store.nodesStatus := store.nodesStatus + [InitialNodeDoc(Config.NODES[i], now)];
      }
      assert SeededNodes(now)[..|Config.NODES|] == SeededNodes(now);
    }
  }

  /** Seeding twice is seeding once, whatever the clock says the second time. */
  lemma SeedingIdempotent(ai: seq<AiDoc>, nodes: seq<NodeDoc>, now: nat, later: nat)
    ensures SeedAiStatus(SeedAiStatus(ai, now), later) == SeedAiStatus(ai, now)
    ensures SeedNodes(SeedNodes(nodes, now), later) == SeedNodes(nodes, now)
  {
  }
}
