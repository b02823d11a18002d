/**
 * Report assembly (python-engine/output.py).
 *
 * `generate_json_output` projects the scored accounts and the grouped
 * rings onto the fields of the data contract, counts the accounts whose
 * rounded score exceeds 50, and fills the summary.  The report is built
 * here as a value; its rendering with `json.dumps` is not part of this
 * model.  Python's `round(x, n)` is the parameter `round`, since float
 * rounding is outside exact real arithmetic.
 */
module Output {
  import opened Common
  import opened Scoring
  import opened RingGrouper

  /** `round(x, digits)` as the caller's rounding function. */
  type Rounding = (real, nat) -> real

  datatype SuspiciousAccount = SuspiciousAccount(
    accountId: string,
    suspicionScore: real,
    detectedPatterns: seq<string>,
    ringId: string)

  datatype FraudRing = FraudRing(
    ringId: string,
    memberAccounts: seq<string>,
    patternType: string,
    riskScore: real)

  datatype Summary = Summary(
    totalAccountsAnalyzed: nat,
    suspiciousAccountsFlagged: nat,
    fraudRingsDetected: nat,
    processingTimeSeconds: real)

  datatype Report = Report(
    suspiciousAccounts: seq<SuspiciousAccount>,
    fraudRings: seq<FraudRing>,
    summary: Summary)

  predicate Flagged(a: SuspiciousAccount) {
    a.suspicionScore > 50.0
  }

  /** `len([a for a in suspicious_accounts if a['suspicion_score'] > 50])` */
  function CountFlagged(entries: seq<SuspiciousAccount>): nat
    decreases |entries|
  {
    if entries == [] then 0
    else CountFlagged(entries[..|entries| - 1]) + (if Flagged(entries[|entries| - 1]) then 1 else 0)
  }

  method GenerateJsonOutput(accounts: seq<Account>, rings: seq<Ring>, processingTime: real, round: Rounding)
    returns (report: Report)
    ensures |report.suspiciousAccounts| == |accounts|
    ensures forall i :: 0 <= i < |accounts| ==>
      report.suspiciousAccounts[i].accountId == accounts[i].accountId
      && report.suspiciousAccounts[i].suspicionScore == round(accounts[i].suspicionScore, 2)
      && report.suspiciousAccounts[i].detectedPatterns == accounts[i].detectedPatterns
      && report.suspiciousAccounts[i].ringId == accounts[i].ringId.GetOr("")
    ensures |report.fraudRings| == |rings|
    ensures forall i :: 0 <= i < |rings| ==>
      report.fraudRings[i].ringId == rings[i].ringId
      && report.fraudRings[i].memberAccounts == rings[i].memberAccounts
      && report.fraudRings[i].patternType == rings[i].patternType
      && report.fraudRings[i].riskScore == round(rings[i].riskScore, 2)
    ensures report.summary.totalAccountsAnalyzed == |accounts|
    ensures report.summary.suspiciousAccountsFlagged == CountFlagged(report.suspiciousAccounts)
    ensures report.summary.fraudRingsDetected == |rings|
    ensures report.summary.processingTimeSeconds == round(processingTime / 1000.0, 3)
  {
    var suspiciousAccounts: seq<SuspiciousAccount> := [];
    for i := 0 to |accounts|
      invariant |suspiciousAccounts| == i
      invariant forall k :: 0 <= k < i ==>
        suspiciousAccounts[k] == SuspiciousAccount(accounts[k].accountId, round(accounts[k].suspicionScore, 2),
                                                   accounts[k].detectedPatterns, accounts[k].ringId.GetOr(""))
    {
      var acc := accounts[i];
      suspiciousAccounts := suspiciousAccounts + [
        SuspiciousAccount(acc.accountId, round(acc.suspicionScore, 2), acc.detectedPatterns, acc.ringId.GetOr(""))];
    }

    var fraudRings: seq<FraudRing> := [];
    for i := 0 to |rings|
      invariant |fraudRings| == i
      invariant forall k :: 0 <= k < i ==>
        fraudRings[k] == FraudRing(rings[k].ringId, rings[k].memberAccounts, rings[k].patternType,
                                   round(rings[k].riskScore, 2))
    {
      var ring := rings[i];
      fraudRings := fraudRings + [FraudRing(ring.ringId, ring.memberAccounts, ring.patternType, round(ring.riskScore, 2))];
    }

    var flaggedCount := CountFlagged(suspiciousAccounts);
    var summary := Summary(|suspiciousAccounts|, flaggedCount, |fraudRings|, round(processingTime / 1000.0, 3));
    report := Report(suspiciousAccounts, fraudRings, summary);
  }

  /** Positions holding a flagged entry. */
  function FlaggedPositions(entries: seq<SuspiciousAccount>): set<int> {
    set i | 0 <= i < |entries| && Flagged(entries[i])
  }

  /** Reference definition: the flagged count is the number of positions holding a flagged entry. */
  lemma {:induction false} CountFlaggedIsIndexCount(entries: seq<SuspiciousAccount>)
    ensures CountFlagged(entries) == |FlaggedPositions(entries)|
    decreases |entries|
  {
    if entries != [] {
      CountFlaggedIsIndexCount(entries[..|entries| - 1]);
      FlaggedPositionsStep(entries);
    }
  }

  lemma {:induction false} FlaggedPositionsStep(entries: seq<SuspiciousAccount>)
    requires entries != []
    ensures |FlaggedPositions(entries)|
      == |FlaggedPositions(entries[..|entries| - 1])| + (if Flagged(entries[|entries| - 1]) then 1 else 0)
  {
    var n := |entries|;
    var front := entries[..n - 1];
    var before := FlaggedPositions(front);
    assert forall i :: 0 <= i < n - 1 ==> front[i] == entries[i];
    assert n - 1 !in before;
    if Flagged(entries[n - 1]) {
      assert FlaggedPositions(entries) == before + {n - 1};
    } else {
      assert FlaggedPositions(entries) == before;
    }
  }

  /** The flagged count never exceeds the number of accounts analysed. */
  lemma {:induction false} CountFlaggedBounded(entries: seq<SuspiciousAccount>)
    ensures CountFlagged(entries) <= |entries|
    ensures CountFlagged(entries) == |entries| <==> forall i :: 0 <= i < |entries| ==> Flagged(entries[i])
    ensures CountFlagged(entries) == 0 <==> forall i :: 0 <= i < |entries| ==> !Flagged(entries[i])
    decreases |entries|
  {
    var n := |entries|;
    if n > 0 {
      var front := entries[..n - 1];
      CountFlaggedBounded(front);
      assert forall i :: 0 <= i < n - 1 ==> front[i] == entries[i];
    }
  }

  /** With the summary's fields as built, at most all analysed accounts are flagged. */
  lemma {:induction false} FlaggedAtMostTotal(report: Report)
    requires report.summary.totalAccountsAnalyzed == |report.suspiciousAccounts|
    requires report.summary.suspiciousAccountsFlagged == CountFlagged(report.suspiciousAccounts)
    ensures report.summary.suspiciousAccountsFlagged <= report.summary.totalAccountsAnalyzed
  {
    CountFlaggedBounded(report.suspiciousAccounts);
  }
}
