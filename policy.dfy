/** The automated-response decision both engines share: which severities
    are answered, which actions may be chosen and which outcome is logged. */
module Policy {
  import opened Records
  import Config

  /** Severities answered on every threat. */
  const ALWAYS_ANSWERED: seq<string> := ["Critical", "High"]

  /** The outcome statuses a response log can carry. */
  const RESPONSE_STATUSES: seq<string> := ["Success", "Pending"]

  /** A response is recorded for Critical and High always, for Medium when
      the 0.7 coin (`random.random() < 0.7`) comes up, and never otherwise. */
  predicate Fires(severity: string, mediumCoin: bool)
  {
    severity in ALWAYS_ANSWERED || (severity == "Medium" && mediumCoin)
  }

  /** `random.choice(RESPONSE_ACTIONS.get(severity, ['Alert Sent']))`. */
  function ChosenAction(severity: string, pick: nat): (action: string)
    ensures action in Config.ActionsFor(severity)
  {
    Pick(Config.ActionsFor(severity), pick)
  }

  /** `'Success' if random.random() > 0.1 else 'Pending'`. */
  function OutcomeStatus(successCoin: bool): (status: string)
    ensures status in RESPONSE_STATUSES
    ensures status == "Success" <==> successCoin
  {
    if successCoin then "Success" else "Pending"
  }

  /** Critical and High are always answered, Low never, Medium exactly when
      its coin comes up, and a severity outside the configured four (which a
      submission may carry) never. */
  lemma FiresBySeverity(mediumCoin: bool)
    ensures Fires("Critical", mediumCoin) && Fires("High", mediumCoin)
    ensures Fires("Medium", mediumCoin) <==> mediumCoin
    ensures !Fires("Low", mediumCoin)
    ensures forall s :: s !in Config.THREAT_SEVERITIES ==> !Fires(s, mediumCoin)
  {
  }
}
