/** The fraud assessment of backend/app/services/fraud_service.py: the
    network report with defaults filled in and a recommendation. */
module Fraud {
  import opened Wrappers
  import opened Neo4j

  datatype FraudReport = FraudReport(riskScore: int, flags: seq<string>, recommendation: string, source: string)

  const RejectAbove: int := 70

  /** `analyze_fraud`, given what the network service answered. */
  function AnalyzeFraud(network: NetworkReport): (r: FraudReport)
    ensures r.riskScore == network.riskScore.GetOr(0)
    ensures r.flags == network.flags.GetOr([])
    ensures r.source == network.source.GetOr("mock")
    ensures r.recommendation == "REJECT" || r.recommendation == "APPROVE"
    ensures r.recommendation == "REJECT" <==> r.riskScore > RejectAbove
  {
    var riskScore := network.riskScore.GetOr(0);
    FraudReport(riskScore, network.flags.GetOr([]),
                if riskScore > RejectAbove then "REJECT" else "APPROVE",
                network.source.GetOr("mock"))
  }

  /** Over the network scores, only a link to a known fraudster leads to a
      rejection: shared devices and IP addresses alone score at most 60. */
  lemma {:induction false} RejectIffFraudster(c: NetworkCounts)
    ensures AnalyzeFraud(Score([c])).recommendation == "REJECT" <==> c.linkedFraudsters > 0
  {
    if c.linkedFraudsters > 0 {
      FraudsterScoresMaximum(c);
    } else {
      NoFraudsterAtMostSixty(c);
    }
  }

  /** Without a database the mock report always approves. */
  lemma {:induction false} MockApproves()
    ensures AnalyzeFraud(MockReport) == FraudReport(0, [], "APPROVE", "mock")
  {
  }
}
