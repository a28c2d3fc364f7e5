/** The fraud-network scoring of backend/app/services/neo4j_service.py.
    The graph database and its Cypher queries are not modelled: the rows the
    detection query returns are a parameter. */
module Neo4j {
  import opened Wrappers
  import opened Strings

  /** One row of the detection query. */
  datatype NetworkCounts = NetworkCounts(sharedDevices: nat, sharedIps: nat, linkedFraudsters: nat)

  /** The service's answer, a dictionary whose keys a caller reads with defaults. */
  datatype NetworkReport = NetworkReport(riskScore: Option<int>, flags: Option<seq<string>>, source: Option<string>)

  /** The parameters of the ingest query. */
  datatype IngestParams = IngestParams(userId: string, deviceId: string, ipAddress: string, phone: string)

  function DeviceFlag(n: nat): string {
    "High Risk: Device shared with " + NatToString(n) + " other users."
  }

  function IpFlag(n: nat): string {
    "Medium Risk: IP used by " + NatToString(n) + " users (Possible VPN/Bot)."
  }

  const FraudsterFlag: string := "CRITICAL: Linked to known fraudster via Phone Number."

  const MockReport: NetworkReport := NetworkReport(Some(0), Some([]), Some("mock"))

  /** The parameters of the ingest query: the user id as given, a missing
      device id replaced by "device-<user id>", a missing IP address or
      phone by "unknown". Every key the query merges a node on is thus
      non-empty, and a value that is present is kept. */
  function Ingest(userId: string, deviceId: Option<string>, ipAddress: Option<string>, phone: Option<string>): (p: IngestParams)
    ensures p.userId == userId
    ensures p.deviceId != "" && p.ipAddress != "" && p.phone != ""
    ensures StrTruthy(deviceId) ==> p.deviceId == deviceId.value
    ensures StrTruthy(ipAddress) ==> p.ipAddress == ipAddress.value
    ensures StrTruthy(phone) ==> p.phone == phone.value
  {
    IngestParams(userId, StrOr(deviceId, "device-" + userId), StrOr(ipAddress, "unknown"), StrOr(phone, "unknown"))
  }

  /** A stand-in device is the user's own: two users ingested without a
      device id never meet on a device node. */
  lemma {:induction false} StandInDevicesDiffer(u1: string, u2: string, ip1: Option<string>, ip2: Option<string>,
                                                phone1: Option<string>, phone2: Option<string>)
    requires u1 != u2
    ensures Ingest(u1, None, ip1, phone1).deviceId != Ingest(u2, None, ip2, phone2).deviceId
  {
    var d1, d2 := "device-" + u1, "device-" + u2;
    assert d1[7..] == u1 && d2[7..] == u2;
  }

  /** The stand-ins for a missing IP address and phone are shared: every
      user ingested without one meets every other such user on the same
      "unknown" node, so they count towards each other's shared-IP count
      and phone links. */
  lemma {:induction false} StandInAddressesShared(u1: string, u2: string, d1: Option<string>, d2: Option<string>)
    ensures Ingest(u1, d1, None, None).ipAddress == Ingest(u2, d2, None, None).ipAddress == "unknown"
    ensures Ingest(u1, d1, None, None).phone == Ingest(u2, d2, None, None).phone == "unknown"
  {
  }

  /** The score before the cap: 40 for a device shared with more than two
      users, 20 for an IP shared by more than five, 100 for a linked fraudster. */
  function RawScore(c: NetworkCounts): (r: nat)
    ensures r <= 160
  {
    (if c.sharedDevices > 2 then 40 else 0)
    + (if c.sharedIps > 5 then 20 else 0)
    + (if c.linkedFraudsters > 0 then 100 else 0)
  }

  /** The flags, one per triggered rule, in the order device, IP, fraudster. */
  function Flags(c: NetworkCounts): (f: seq<string>)
    ensures |f| <= 3
  {
    (if c.sharedDevices > 2 then [DeviceFlag(c.sharedDevices)] else [])
    + (if c.sharedIps > 5 then [IpFlag(c.sharedIps)] else [])
    + (if c.linkedFraudsters > 0 then [FraudsterFlag] else [])
  }

  /** What `analyze_fraud_network` answers for the given detection rows. */
  function Score(rows: seq<NetworkCounts>): (r: NetworkReport)
    ensures r.riskScore.Some? && 0 <= r.riskScore.value <= 100
    ensures r.flags.Some? && r.source == Some("neo4j")
    ensures rows == [] ==> r.riskScore == Some(0) && r.flags == Some([])
  {
    var c := if rows == [] then NetworkCounts(0, 0, 0) else rows[0];
    var raw := RawScore(c);
    NetworkReport(Some(if raw <= 100 then raw else 100), Some(Flags(c)), Some("neo4j"))
  }

  class Neo4jService {
    /** Whether a driver was configured and reachable at start-up. */
    var connected: bool

    constructor (connected: bool)
      ensures this.connected == connected
    {
      this.connected := connected;
    }

    /** `analyze_fraud_network`: without a driver or a user id the answer is
        the mock report; otherwise the score accumulates rule by rule and is
        capped at 100. */
    method AnalyzeFraudNetwork(userId: Option<string>, rows: seq<NetworkCounts>) returns (r: NetworkReport)
      ensures !connected || !StrTruthy(userId) ==> r == MockReport
      ensures connected && StrTruthy(userId) ==> r == Score(rows)
    {
      if !connected || !StrTruthy(userId) {
        return MockReport;
      }
      var data := if rows == [] then NetworkCounts(0, 0, 0) else rows[0];
      var riskScore := 0;
      var flags: seq<string> := [];
      ghost var expected := Flags(data);
      if data.sharedDevices > 2 {
        riskScore := riskScore + 40;
        flags := flags + [DeviceFlag(data.sharedDevices)];
      }
      if data.sharedIps > 5 {
        riskScore := riskScore + 20;
        flags := flags + [IpFlag(data.sharedIps)];
      }
      if data.linkedFraudsters > 0 {
        riskScore := riskScore + 100;
        flags := flags + [FraudsterFlag];
      }
      assert flags == expected by {
        var a := if data.sharedDevices > 2 then [DeviceFlag(data.sharedDevices)] else [];
        var b := if data.sharedIps > 5 then [IpFlag(data.sharedIps)] else [];
        var c := if data.linkedFraudsters > 0 then [FraudsterFlag] else [];
        assert [] + a + b + c == a + b + c;
      }
      return NetworkReport(Some(if riskScore <= 100 then riskScore else 100), Some(flags), Some("neo4j"));
    }
  }

  /** A link to a known fraudster always scores the maximum. */
  lemma {:induction false} FraudsterScoresMaximum(c: NetworkCounts)
    requires c.linkedFraudsters > 0
    ensures Score([c]).riskScore == Some(100)
    ensures Score([c]).flags.value[|Score([c]).flags.value| - 1] == FraudsterFlag
  {
  }

  /** Without a fraudster link the score is at most 60: device and IP sharing
      together stay below a threshold of 70. */
  lemma {:induction false} NoFraudsterAtMostSixty(c: NetworkCounts)
    requires c.linkedFraudsters == 0
    ensures Score([c]).riskScore.value <= 60
  {
  }

  /** The number of flags equals the number of triggered rules, and each
      flag is the one of its rule, in rule order. */
  lemma {:induction false} FlagsFollowRules(c: NetworkCounts)
    ensures var f := Flags(c);
      |f| == (if c.sharedDevices > 2 then 1 else 0) + (if c.sharedIps > 5 then 1 else 0) + (if c.linkedFraudsters > 0 then 1 else 0)
    ensures c.sharedDevices > 2 ==> Flags(c)[0] == DeviceFlag(c.sharedDevices)
    ensures c.sharedIps > 5 ==> Flags(c)[if c.sharedDevices > 2 then 1 else 0] == IpFlag(c.sharedIps)
    ensures c.linkedFraudsters > 0 ==> Flags(c)[|Flags(c)| - 1] == FraudsterFlag
    ensures Flags(c) == [] <==> RawScore(c) == 0
  {
  }
}
