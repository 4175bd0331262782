/** The constant tables of backend/config.py: collection names, cadences,
    the live-window limit, the threat vocabularies, the node roster, the AI
    model description and the severity-keyed response actions. */
module Config {

  /** COLLECTIONS: logical key to collection name. */
  const COLLECTIONS: map<string, string> := map[
    "LIVE_THREATS" := "live_threats",
    "THREAT_HISTORY" := "threat_history",
    "BLOCKCHAIN_LEDGER" := "blockchain_ledger",
    "RESPONSE_LOGS" := "response_logs",
    "NODES_STATUS" := "nodes_status",
    "AI_STATUS" := "ai_status"]

  /** `COLLECTIONS.values()`, in the dict's declaration order. */
  function CollectionNames(): seq<string>
  {
    [COLLECTIONS["LIVE_THREATS"], COLLECTIONS["THREAT_HISTORY"], COLLECTIONS["BLOCKCHAIN_LEDGER"],
     COLLECTIONS["RESPONSE_LOGS"], COLLECTIONS["NODES_STATUS"], COLLECTIONS["AI_STATUS"]]
  }

  /** Live threats kept by the store-backed engine. */
  const LIVE_THREATS_LIMIT: nat := 10

  const THREAT_TYPES: seq<string> := [
    "DDoS Attack", "SQL Injection", "XSS Attack", "Brute Force", "Malware Detection",
    "Port Scanning", "Phishing Attempt", "Zero-Day Exploit", "Ransomware", "Data Exfiltration"]
  const THREAT_SEVERITIES: seq<string> := ["Critical", "High", "Medium", "Low"]
  const THREAT_SOURCES: seq<string> := ["External", "Internal", "Unknown"]
  const THREAT_STATUSES: seq<string> := ["Blocked", "Isolated", "Monitoring", "Mitigated"]

  datatype NodeConfig = NodeConfig(nodeId: string, location: string, status: string)

  const NODES: seq<NodeConfig> := [
    NodeConfig("Node-A", "Bangalore", "Online"),
    NodeConfig("Node-B", "Mumbai", "Online"),
    NodeConfig("Node-C", "Delhi", "Online")]

  /** The node ids in roster order. */
  function NodeIds(): (ids: seq<string>)
    ensures |ids| == |NODES| && forall i :: 0 <= i < |NODES| ==> ids[i] == NODES[i].nodeId
  {
    seq(|NODES|, i requires 0 <= i < |NODES| => NODES[i].nodeId)
  }

  /** AI_MODEL; the accuracy 93.0 is kept in tenths of a percent. */
  const AI_MODEL_TYPE: string := "Anomaly Detection Neural Network"
  const AI_MODEL_ACCURACY: nat := 930
  const AI_TRAINING_STATUS: string := "Completed"
  const AI_LAST_RETRAIN_DAYS_AGO: nat := 2
  const AI_MODEL_VERSION: string := "2.1.4"
  const AI_ACTIVE_MODELS: seq<string> := ["DDoS Detector", "Malware Classifier", "Anomaly Detector"]

  const RESPONSE_ACTIONS: map<string, seq<string>> := map[
    "Critical" := ["IP Blocked", "Firewall Rule Updated", "Port Closed", "Session Terminated"],
    "High" := ["IP Blocked", "Firewall Rule Updated", "Alert Sent"],
    "Medium" := ["Traffic Throttled", "Rate Limit Applied", "Alert Sent"],
    "Low" := ["Alert Sent", "Monitoring Enabled"]]

  /** `RESPONSE_ACTIONS.get(severity, ['Alert Sent'])`: never empty, so the
      action draw always has something to choose from. */
  function ActionsFor(severity: string): (actions: seq<string>)
    ensures |actions| > 0
  {
    if severity in RESPONSE_ACTIONS then RESPONSE_ACTIONS[severity] else ["Alert Sent"]
  }

  /** Every configured severity has its own non-empty action list, of sizes
      4, 3, 3 and 2; "Alert Sent" is an action for High, Medium and Low but
      not for Critical. */
  lemma ResponseActionTable()
    ensures forall s :: s in THREAT_SEVERITIES ==> s in RESPONSE_ACTIONS && |RESPONSE_ACTIONS[s]| > 0
    ensures RESPONSE_ACTIONS.Keys == set s | s in THREAT_SEVERITIES
    ensures |ActionsFor("Critical")| == 4 && |ActionsFor("High")| == 3
    ensures |ActionsFor("Medium")| == 3 && |ActionsFor("Low")| == 2
    ensures "Alert Sent" !in ActionsFor("Critical")
    ensures "Alert Sent" in ActionsFor("High") && "Alert Sent" in ActionsFor("Medium")
    ensures "Alert Sent" in ActionsFor("Low")
  {
  }

  /** Three nodes, ids Node-A, Node-B, Node-C (pairwise distinct), all Online. */
  lemma NodeTable()
    ensures |NODES| == 3
    ensures NodeIds() == ["Node-A", "Node-B", "Node-C"]
    ensures forall i, j :: 0 <= i < j < |NODES| ==> NODES[i].nodeId != NODES[j].nodeId
    ensures forall i :: 0 <= i < |NODES| ==> NODES[i].status == "Online"
  {
  }

  /** Six keys naming six pairwise distinct collections. */
  lemma CollectionTable()
    ensures COLLECTIONS.Keys == {"LIVE_THREATS", "THREAT_HISTORY", "BLOCKCHAIN_LEDGER",
                                 "RESPONSE_LOGS", "NODES_STATUS", "AI_STATUS"}
    ensures |CollectionNames()| == 6
    ensures forall i, j :: 0 <= i < j < |CollectionNames()| ==> CollectionNames()[i] != CollectionNames()[j]
    ensures forall k :: k in COLLECTIONS ==> COLLECTIONS[k] in CollectionNames()
  {
  }
}
