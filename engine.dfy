/**
 * The command-line driver's own logic (python-engine/main.py).
 *
 * Over an abstract record of detection results (node sets and groups of
 * accounts), the driver
 *   - scores a list of pattern names additively (40 / 30 / 30, capped at 100),
 *   - maps accounts to ring ids (cycle groups overwrite, peel chains only fill),
 *   - builds one record per suspicious account with its ordered pattern list,
 *   - keys its ring table, averages member scores into ring risks, and
 *   - fills the summary counts.
 *
 * The ring table as written keys every cycle group "RING_001" (the key is
 * computed from the length of a list that is still empty); that version
 * is kept as `RingTableAsWritten` with a counterexample, and the report
 * is assembled from the sequentially keyed `SequentialRingTable`.
 *
 * Reading the CSV, the clock, the detectors' call and `json.dumps` are not
 * modelled: the results record, the iteration order of the suspicious
 * node set and the elapsed time are parameters.
 */
module Engine {
  import opened Common
  import Output

  // ---------------------------------------------------------------------
  // calculate_suspicion_score
  // ---------------------------------------------------------------------

  /** Points for one pattern name, tested case-insensitively in elif order. */
  function PatternPoints(pattern: string): int {
    var p := Lower(pattern);
    if Contains(p, "cycle") then 40
    else if Contains(p, "velocity") then 30
    else if Contains(p, "peel") then 30
    else 0
  }

  function RawScore(patterns: seq<string>): (score: int)
    ensures score >= 0
    decreases |patterns|
  {
    if patterns == [] then 0
    else RawScore(patterns[..|patterns| - 1]) + PatternPoints(patterns[|patterns| - 1])
  }

  /** `min(score, 100)` over the summed points. */
  function SuspicionScore(patterns: seq<string>): int {
    var raw := RawScore(patterns);
    if raw < 100 then raw else 100
  }

  method CalculateSuspicionScore(patterns: seq<string>) returns (score: int)
    ensures score == SuspicionScore(patterns)
  {
    score := 0;
    for i := 0 to |patterns|
      invariant score == RawScore(patterns[..i])
    {
      var pattern := patterns[i];
      if Contains(Lower(pattern), "cycle") {
        score := score + 40;
      } else if Contains(Lower(pattern), "velocity") {
        score := score + 30;
      } else if Contains(Lower(pattern), "peel") {
        score := score + 30;
      }
      assert patterns[..i + 1][..i] == patterns[..i];
    }
    assert patterns[..|patterns|] == patterns;
    score := if score < 100 then score else 100;
  }

  /** The score is in [0,100]. */
  lemma {:induction false} SuspicionScoreInRange(patterns: seq<string>)
    ensures 0 <= SuspicionScore(patterns) <= 100
  {
  }

  /** Appending patterns never lowers the score. */
  lemma {:induction false} SuspicionScoreMonotone(patterns: seq<string>, more: seq<string>)
    ensures SuspicionScore(patterns) <= SuspicionScore(patterns + more)
    decreases |more|
  {
    if more == [] {
      assert patterns + more == patterns;
    } else {
      var front := more[..|more| - 1];
      SuspicionScoreMonotone(patterns, front);
      assert (patterns + more)[..|patterns + more| - 1] == patterns + front;
      assert PatternPoints(more[|more| - 1]) >= 0;
    }
  }

  /** Matching ignores case: a name scores as its lower-cased form does. */
  lemma {:induction false} PatternPointsIgnoreCase(pattern: string)
    ensures PatternPoints(pattern) == PatternPoints(Lower(pattern))
  {
    assert Lower(Lower(pattern)) == Lower(pattern);
  }

  /**
   * A name containing "cycle" scores 40 whatever else it contains; one
   * containing "velocity" or "peel" but not "cycle" scores 30; any other
   * name scores nothing.
   */
  lemma {:induction false} PatternPointsElifOrder(pattern: string)
    ensures Contains(Lower(pattern), "cycle") ==> PatternPoints(pattern) == 40
    ensures !Contains(Lower(pattern), "cycle")
      && (Contains(Lower(pattern), "velocity") || Contains(Lower(pattern), "peel"))
      ==> PatternPoints(pattern) == 30
    ensures (!Contains(Lower(pattern), "cycle") && !Contains(Lower(pattern), "velocity")
      && !Contains(Lower(pattern), "peel")) ==> PatternPoints(pattern) == 0
  {
  }

  /**
   * Example, an instance of `PatternPointsElifOrder` and
   * `PatternPointsIgnoreCase`: a mixed name counts only as cycle, and
   * matching is case-insensitive.
   */
  lemma {:induction false} PatternPointsExamples()
    ensures PatternPoints("cycle_velocity") == 40
    ensures PatternPoints("VELOCITY") == 30
  {
    assert Lower("cycle_velocity")[..5] == "cycle";
    assert Lower("VELOCITY") == "velocity";
    NotContains("velocity", "cycle");
  }

  /**
   * Example, an instance of `SuspicionScoreInRange` at its bound: two
   * cycles and a velocity hit sum to 110 points, capped at 100.
   */
  lemma {:induction false} SuspicionScoreCapped()
    ensures SuspicionScore(["cycle", "cycle", "velocity"]) == 100
  {
    KnownPatternPoints();
    assert ["cycle", "cycle"] + ["velocity"] == ["cycle", "cycle", "velocity"];
    assert ["cycle"] + ["cycle"] == ["cycle", "cycle"];
    RawScoreAppend(["cycle", "cycle"], ["velocity"]);
    RawScoreAppend(["cycle"], ["cycle"]);
    assert RawScore(["cycle"]) == 40 by { assert ["cycle"][..0] == []; }
    assert RawScore(["velocity"]) == 30 by { assert ["velocity"][..0] == []; }
  }

  /** The three names the driver itself produces. */
  lemma {:induction false} KnownPatternPoints()
    ensures PatternPoints("cycle") == 40
    ensures PatternPoints("velocity") == 30
    ensures PatternPoints("peel") == 30
  {
    CyclePoints();
    VelocityPoints();
    PeelPoints();
  }

  lemma {:induction false} CyclePoints()
    ensures PatternPoints("cycle") == 40
  {
    assert Lower("cycle") == "cycle";
  }

  lemma {:induction false} VelocityPoints()
    ensures PatternPoints("velocity") == 30
  {
    assert Lower("velocity") == "velocity";
    NotContains("velocity", "cycle");
  }

  lemma {:induction false} PeelPoints()
    ensures PatternPoints("peel") == 30
  {
    assert Lower("peel") == "peel";
    NotContains("peel", "cycle");
    NotContains("peel", "velocity");
  }

  // ---------------------------------------------------------------------
  // account_to_ring
  // ---------------------------------------------------------------------

  type Group = seq<string>
  type RingMap = map<string, string>

  /**
   * The format of a ring id from its number; the driver uses `RingId`.
   * The numbering facts below hold for any format.
   */
  type IdFormat = nat -> string

  /** Every member is (re)assigned `id`. */
  function Overwrite(m: RingMap, members: Group, id: string): RingMap {
    m + map a | a in members :: id
  }

  /** Only members without an assignment receive `id`. */
  function Fill(m: RingMap, members: Group, id: string): RingMap {
    (map a | a in members :: id) + m
  }

  function CycleRingMap(groups: seq<Group>, idOf: IdFormat): RingMap
    decreases |groups|
  {
    if groups == [] then map[]
    else Overwrite(CycleRingMap(groups[..|groups| - 1], idOf), groups[|groups| - 1], idOf(|groups|))
  }

  function PeelRingMap(m: RingMap, groups: seq<Group>, offset: nat, idOf: IdFormat): RingMap
    decreases |groups|
  {
    if groups == [] then m
    else Fill(PeelRingMap(m, groups[..|groups| - 1], offset, idOf), groups[|groups| - 1], idOf(offset + |groups|))
  }

  /** The map after both loops: groups are numbered 1, 2, ... cycles first, then peel chains. */
  function AccountToRing(cycleGroups: seq<Group>, peelGroups: seq<Group>, idOf: IdFormat): RingMap {
    PeelRingMap(CycleRingMap(cycleGroups, idOf), peelGroups, |cycleGroups|, idOf)
  }

  lemma {:induction false} OverwriteStep(m: RingMap, members: Group, j: nat, id: string)
    requires j < |members|
    ensures Overwrite(m, members[..j + 1], id) == Overwrite(m, members[..j], id)[members[j] := id]
  {
    assert members[..j + 1] == members[..j] + [members[j]];
  }

  lemma {:induction false} FillStep(m: RingMap, members: Group, j: nat, id: string)
    requires j < |members|
    ensures Fill(m, members[..j + 1], id)
      == var f := Fill(m, members[..j], id); if members[j] in f then f else f[members[j] := id]
  {
    assert members[..j + 1] == members[..j] + [members[j]];
  }

  /** The inner loop over one cycle group. */
  method OverwriteMembers(accountToRing: RingMap, cycle: Group, ringId: string) returns (result: RingMap)
    ensures result == Overwrite(accountToRing, cycle, ringId)
  {
    result := accountToRing;
    for j := 0 to |cycle|
      invariant result == Overwrite(accountToRing, cycle[..j], ringId)
    {
      OverwriteStep(accountToRing, cycle, j, ringId);
      result := result[cycle[j] := ringId];
    }
    assert cycle[..|cycle|] == cycle;
  }

  /** The inner loop over one peel chain. */
  method FillMembers(accountToRing: RingMap, peelChain: Group, ringId: string) returns (result: RingMap)
    ensures result == Fill(accountToRing, peelChain, ringId)
  {
    result := accountToRing;
    for j := 0 to |peelChain|
      invariant result == Fill(accountToRing, peelChain[..j], ringId)
    {
      FillStep(accountToRing, peelChain, j, ringId);
      if peelChain[j] !in result {
        result := result[peelChain[j] := ringId];
      }
    }
    assert peelChain[..|peelChain|] == peelChain;
  }

  lemma {:induction false} CycleRingMapStep(groups: seq<Group>, idOf: IdFormat, i: nat)
    requires i < |groups|
    ensures CycleRingMap(groups[..i + 1], idOf) == Overwrite(CycleRingMap(groups[..i], idOf), groups[i], idOf(i + 1))
  {
    assert groups[..i + 1][..i] == groups[..i];
  }

  lemma {:induction false} PeelRingMapStep(m: RingMap, groups: seq<Group>, offset: nat, idOf: IdFormat, i: nat)
    requires i < |groups|
    ensures PeelRingMap(m, groups[..i + 1], offset, idOf)
      == Fill(PeelRingMap(m, groups[..i], offset, idOf), groups[i], idOf(offset + i + 1))
  {
    assert groups[..i + 1][..i] == groups[..i];
  }

  /**
   * The loop over the cycle groups, numbering them from 1; the counter
   * it leaves is the next ring number.
   */
  method AssignCycleRings(accountToRing: RingMap, cycleGroups: seq<Group>)
    returns (result: RingMap, ringCounter: nat)
    requires accountToRing == map[]
    ensures result == CycleRingMap(cycleGroups, RingId)
    ensures ringCounter == 1 + |cycleGroups|
  {
    result := accountToRing;
    ringCounter := 1;
    for i := 0 to |cycleGroups|
      invariant ringCounter == 1 + i
      invariant result == CycleRingMap(cycleGroups[..i], RingId)
    {
      var ringId := RingId(ringCounter);
      CycleRingMapStep(cycleGroups, RingId, i);
      result := OverwriteMembers(result, cycleGroups[i], ringId);
      ringCounter := ringCounter + 1;
    }
    assert cycleGroups[..|cycleGroups|] == cycleGroups;
  }

  /**
   * The loop over the peel chains, continuing the numbering from
   * `startCounter`, the counter the cycle loop left.
   */
  method AssignPeelRings(accountToRing: RingMap, peelGroups: seq<Group>, startCounter: nat)
    returns (result: RingMap, ringCounter: nat)
    requires startCounter >= 1
    ensures result == PeelRingMap(accountToRing, peelGroups, startCounter - 1, RingId)
    ensures ringCounter == startCounter + |peelGroups|
  {
    ghost var offset: nat := startCounter - 1;
    result := accountToRing;
    ringCounter := startCounter;
    for i := 0 to |peelGroups|
      invariant ringCounter == offset + 1 + i
      invariant result == PeelRingMap(accountToRing, peelGroups[..i], offset, RingId)
    {
      var ringId := RingId(ringCounter);
      PeelRingMapStep(accountToRing, peelGroups, offset, RingId, i);
      result := FillMembers(result, peelGroups[i], ringId);
      ringCounter := ringCounter + 1;
    }
    assert peelGroups[..|peelGroups|] == peelGroups;
  }

  /**
   * Both loops, the peel loop starting from the counter the cycle loop
   * left; the final counter is one past the number of groups.
   */
  method AssignRings(cycleGroups: seq<Group>, peelGroups: seq<Group>)
    returns (accountToRing: RingMap, ringCounter: nat)
    ensures accountToRing == AccountToRing(cycleGroups, peelGroups, RingId)
    ensures ringCounter == 1 + |cycleGroups| + |peelGroups|
  {
    var cycleCounter;
    accountToRing, cycleCounter := AssignCycleRings(map[], cycleGroups);
    accountToRing, ringCounter := AssignPeelRings(accountToRing, peelGroups, cycleCounter);
  }

  /** Index of the last group listing the account, -1 if none. */
  function LastGroupWith(groups: seq<Group>, a: string): (r: int)
    ensures -1 <= r < |groups|
    ensures r >= 0 ==> a in groups[r] && forall i :: r < i < |groups| ==> a !in groups[i]
    ensures r == -1 ==> forall i :: 0 <= i < |groups| ==> a !in groups[i]
    decreases |groups|
  {
    if groups == [] then -1
    else if a in groups[|groups| - 1] then |groups| - 1
    else LastGroupWith(groups[..|groups| - 1], a)
  }

  /** Index of the first group listing the account, -1 if none. */
  function FirstGroupWith(groups: seq<Group>, a: string): (r: int)
    ensures -1 <= r < |groups|
    ensures r >= 0 ==> a in groups[r] && forall i :: 0 <= i < r ==> a !in groups[i]
    ensures r == -1 ==> forall i :: 0 <= i < |groups| ==> a !in groups[i]
    decreases |groups|
  {
    if groups == [] then -1
    else if a in groups[0] then 0
    else
      var r := FirstGroupWith(groups[1..], a);
      if r < 0 then -1 else r + 1
  }

  lemma {:induction false} OverwriteAt(m: RingMap, members: Group, id: string, a: string)
    ensures a in Overwrite(m, members, id) <==> a in m || a in members
    ensures a in members ==> Overwrite(m, members, id)[a] == id
    ensures a !in members && a in m ==> Overwrite(m, members, id)[a] == m[a]
  {
  }

  lemma {:induction false} FillAt(m: RingMap, members: Group, id: string, a: string)
    ensures a in Fill(m, members, id) <==> a in m || a in members
    ensures a in m ==> Fill(m, members, id)[a] == m[a]
    ensures a !in m && a in members ==> Fill(m, members, id)[a] == id
  {
  }

  lemma {:induction false} CycleRingMapAt(groups: seq<Group>, idOf: IdFormat, a: string)
    ensures a in CycleRingMap(groups, idOf) <==> LastGroupWith(groups, a) >= 0
    ensures a in CycleRingMap(groups, idOf) ==>
      CycleRingMap(groups, idOf)[a] == idOf(LastGroupWith(groups, a) + 1)
    decreases |groups|
  {
    if groups != [] {
      var front := groups[..|groups| - 1];
      CycleRingMapAt(front, idOf, a);
      OverwriteAt(CycleRingMap(front, idOf), groups[|groups| - 1], idOf(|groups|), a);
    }
  }

  lemma {:induction false} PeelRingMapAt(m: RingMap, groups: seq<Group>, offset: nat, idOf: IdFormat, a: string)
    ensures a in PeelRingMap(m, groups, offset, idOf) <==> a in m || FirstGroupWith(groups, a) >= 0
    ensures a in m ==> PeelRingMap(m, groups, offset, idOf)[a] == m[a]
    ensures a !in m && FirstGroupWith(groups, a) >= 0 ==>
      PeelRingMap(m, groups, offset, idOf)[a] == idOf(offset + FirstGroupWith(groups, a) + 1)
    decreases |groups|
  {
    if groups != [] {
      var front := groups[..|groups| - 1];
      var last := groups[|groups| - 1];
      PeelRingMapAt(m, front, offset, idOf, a);
      FillAt(PeelRingMap(m, front, offset, idOf), last, idOf(offset + |groups|), a);
      FirstGroupWithFront(groups, a);
    }
  }

  /** The first group listing the account, located from the groups before the last one. */
  lemma {:induction false} FirstGroupWithFront(groups: seq<Group>, a: string)
    requires groups != []
    ensures var f := FirstGroupWith(groups[..|groups| - 1], a);
      FirstGroupWith(groups, a)
        == if f >= 0 then f else if a in groups[|groups| - 1] then |groups| - 1 else -1
  {
    var front := groups[..|groups| - 1];
    var f := FirstGroupWith(front, a);
    var g := FirstGroupWith(groups, a);
    assert forall i :: 0 <= i < |front| ==> front[i] == groups[i];
    if f >= 0 {
      assert a in groups[f];
    } else if a in groups[|groups| - 1] {
      assert g >= 0;
    }
  }

  /**
   * An account is mapped exactly when some group lists it.  If a cycle
   * group lists it, it has the id of the LAST such cycle group (later
   * cycles overwrite); otherwise the id of the FIRST peel chain listing it
   * (peel chains never overwrite), numbered after all cycle groups.
   */
  lemma {:induction false} AccountToRingAt(cycleGroups: seq<Group>, peelGroups: seq<Group>, idOf: IdFormat, a: string)
    ensures a in AccountToRing(cycleGroups, peelGroups, idOf)
      <==> LastGroupWith(cycleGroups, a) >= 0 || FirstGroupWith(peelGroups, a) >= 0
    ensures LastGroupWith(cycleGroups, a) >= 0 ==>
      AccountToRing(cycleGroups, peelGroups, idOf)[a] == idOf(LastGroupWith(cycleGroups, a) + 1)
    ensures LastGroupWith(cycleGroups, a) == -1 && FirstGroupWith(peelGroups, a) >= 0 ==>
      AccountToRing(cycleGroups, peelGroups, idOf)[a]
        == idOf(|cycleGroups| + FirstGroupWith(peelGroups, a) + 1)
  {
    AccountToRingKeys(cycleGroups, peelGroups, idOf, a);
    AccountToRingCycleValue(cycleGroups, peelGroups, idOf, a);
    AccountToRingPeelValue(cycleGroups, peelGroups, idOf, a);
  }

  lemma {:induction false} AccountToRingKeys(cycleGroups: seq<Group>, peelGroups: seq<Group>, idOf: IdFormat, a: string)
    ensures a in AccountToRing(cycleGroups, peelGroups, idOf)
      <==> LastGroupWith(cycleGroups, a) >= 0 || FirstGroupWith(peelGroups, a) >= 0
  {
    var cycles := CycleRingMap(cycleGroups, idOf);
    CycleRingMapAt(cycleGroups, idOf, a);
    PeelRingMapAt(cycles, peelGroups, |cycleGroups|, idOf, a);
  }

  lemma {:induction false} AccountToRingCycleValue(cycleGroups: seq<Group>, peelGroups: seq<Group>, idOf: IdFormat, a: string)
    ensures LastGroupWith(cycleGroups, a) >= 0 ==>
      a in AccountToRing(cycleGroups, peelGroups, idOf)
      && AccountToRing(cycleGroups, peelGroups, idOf)[a] == idOf(LastGroupWith(cycleGroups, a) + 1)
  {
    var cycles := CycleRingMap(cycleGroups, idOf);
    CycleRingMapAt(cycleGroups, idOf, a);
    PeelRingMapAt(cycles, peelGroups, |cycleGroups|, idOf, a);
  }

  /** An account no earlier assignment covers takes the id of the first peel chain listing it. */
  lemma {:induction false} PeelRingMapFresh(m: RingMap, groups: seq<Group>, offset: nat, idOf: IdFormat, a: string)
    requires a !in m && FirstGroupWith(groups, a) >= 0
    ensures a in PeelRingMap(m, groups, offset, idOf)
    ensures PeelRingMap(m, groups, offset, idOf)[a] == idOf(offset + FirstGroupWith(groups, a) + 1)
  {
    PeelRingMapAt(m, groups, offset, idOf, a);
  }

  lemma {:induction false} AccountToRingPeelValue(cycleGroups: seq<Group>, peelGroups: seq<Group>, idOf: IdFormat, a: string)
    ensures LastGroupWith(cycleGroups, a) == -1 && FirstGroupWith(peelGroups, a) >= 0 ==>
      a in AccountToRing(cycleGroups, peelGroups, idOf)
      && AccountToRing(cycleGroups, peelGroups, idOf)[a]
        == idOf(|cycleGroups| + FirstGroupWith(peelGroups, a) + 1)
  {
    if LastGroupWith(cycleGroups, a) == -1 && FirstGroupWith(peelGroups, a) >= 0 {
      CycleRingMapAt(cycleGroups, idOf, a);
      PeelOverUnmappedCycles(cycleGroups, peelGroups, idOf, a);
    }
  }

  /** An account the cycle groups leave unmapped receives its peel chain's id. */
  lemma {:induction false} PeelOverUnmappedCycles(cycleGroups: seq<Group>, peelGroups: seq<Group>, idOf: IdFormat, a: string)
    requires a !in CycleRingMap(cycleGroups, idOf)
    requires FirstGroupWith(peelGroups, a) >= 0
    ensures MapGet(AccountToRing(cycleGroups, peelGroups, idOf), a)
      == Some(idOf(|cycleGroups| + FirstGroupWith(peelGroups, a) + 1))
  {
    PeelRingMapFresh(CycleRingMap(cycleGroups, idOf), peelGroups, |cycleGroups|, idOf, a);
  }

  // ---------------------------------------------------------------------
  // suspicious_accounts
  // ---------------------------------------------------------------------

  /** The fields of the detection results the driver reads. */
  datatype Results = Results(
    cycleNodes: set<string>,
    velocityNodes: set<string>,
    peelNodes: set<string>,
    cycleGroups: seq<Group>,
    peelGroups: seq<Group>)

  function SuspiciousNodes(results: Results): set<string> {
    results.cycleNodes + results.velocityNodes + results.peelNodes
  }

  function DetectedPatterns(results: Results, a: string): seq<string> {
    (if a in results.cycleNodes then ["cycle"] else [])
    + (if a in results.velocityNodes then ["velocity"] else [])
    + (if a in results.peelNodes then ["peel"] else [])
  }

  /** A record of `suspicious_accounts`; `ringId` None is JSON null. */
  datatype SuspiciousAccount = SuspiciousAccount(
    accountId: string,
    suspicionScore: int,
    detectedPatterns: seq<string>,
    ringId: Option<string>)

  function MapGet(m: RingMap, a: string): Option<string> {
    if a in m then Some(m[a]) else None
  }

  /** The body of the loop: the record of one account. */
  method BuildSuspiciousAccount(accountId: string, results: Results, accountToRing: RingMap)
    returns (account: SuspiciousAccount)
    ensures account.accountId == accountId
    ensures account.detectedPatterns == DetectedPatterns(results, accountId)
    ensures account.suspicionScore == SuspicionScore(DetectedPatterns(results, accountId))
    ensures account.ringId == MapGet(accountToRing, accountId)
  {
    var detectedPatterns: seq<string> := [];
    if accountId in results.cycleNodes {
      detectedPatterns := detectedPatterns + ["cycle"];
    }
    if accountId in results.velocityNodes {
      detectedPatterns := detectedPatterns + ["velocity"];
    }
    if accountId in results.peelNodes {
      detectedPatterns := detectedPatterns + ["peel"];
    }
    var suspicionScore := CalculateSuspicionScore(detectedPatterns);
    var ringId := if accountId in accountToRing then Some(accountToRing[accountId]) else None;
    account := SuspiciousAccount(accountId, suspicionScore, detectedPatterns, ringId);
  }

  /**
   * `order` visits every element of `s` exactly once, as a `for` loop
   * over a Python set does.
   */
  predicate Enumerates(order: seq<string>, s: set<string>) {
    (forall a :: a in order ==> a in s)
    && (forall a :: a in s ==> a in order)
    && (forall i, j :: 0 <= i < j < |order| ==> order[i] != order[j])
  }

  /** An enumeration of a set is as long as the set is large. */
  lemma {:induction false} EnumerationSize(order: seq<string>, s: set<string>)
    requires Enumerates(order, s)
    ensures |s| == |order|
  {
    DistinctSize(order, s);
  }

  /**
   * One record per suspicious account, in `order`, the iteration order of
   * the union of the three node sets; every record lists at least one
   * pattern.
   */
  method BuildSuspiciousAccounts(order: seq<string>, results: Results, accountToRing: RingMap)
    returns (accounts: seq<SuspiciousAccount>)
    requires Enumerates(order, SuspiciousNodes(results))
    ensures |accounts| == |order| == |SuspiciousNodes(results)|
    ensures forall i :: 0 <= i < |order| ==>
      accounts[i].accountId == order[i]
      && accounts[i].detectedPatterns == DetectedPatterns(results, order[i])
      && accounts[i].detectedPatterns != []
      && accounts[i].suspicionScore == SuspicionScore(DetectedPatterns(results, order[i]))
      && accounts[i].ringId == MapGet(accountToRing, order[i])
  {
    accounts := [];
    for i := 0 to |order|
      invariant |accounts| == i
      invariant forall k :: 0 <= k < i ==>
        accounts[k].accountId == order[k]
        && accounts[k].detectedPatterns == DetectedPatterns(results, order[k])
        && accounts[k].suspicionScore == SuspicionScore(DetectedPatterns(results, order[k]))
        && accounts[k].ringId == MapGet(accountToRing, order[k])
    {
      var account := BuildSuspiciousAccount(order[i], results, accountToRing);
      accounts := accounts + [account];
    }
    EnumerationSize(order, SuspiciousNodes(results));
    EnumeratedPatterns(order, results);
  }

  /** Every account of an enumeration of the suspicious nodes has a pattern. */
  lemma {:induction false} EnumeratedPatterns(order: seq<string>, results: Results)
    requires Enumerates(order, SuspiciousNodes(results))
    ensures forall i :: 0 <= i < |order| ==> DetectedPatterns(results, order[i]) != []
  {
    forall i | 0 <= i < |order|
      ensures DetectedPatterns(results, order[i]) != []
    {
      assert order[i] in order;
      DetectedPatternsIff(results, order[i]);
    }
  }

  /** `xs` is an ordered sublist of `ys`. */
  predicate Sublist(xs: seq<string>, ys: seq<string>)
    decreases |ys|
  {
    xs == [] || (ys != [] && ((xs[0] == ys[0] && Sublist(xs[1..], ys[1..])) || Sublist(xs, ys[1..])))
  }

  /**
   * The pattern list names exactly the sets the account is in, as an
   * ordered sublist of cycle, velocity, peel; it is empty only for an
   * account outside all three sets.
   */
  lemma {:induction false} DetectedPatternsIff(results: Results, a: string)
    ensures "cycle" in DetectedPatterns(results, a) <==> a in results.cycleNodes
    ensures "velocity" in DetectedPatterns(results, a) <==> a in results.velocityNodes
    ensures "peel" in DetectedPatterns(results, a) <==> a in results.peelNodes
    ensures Sublist(DetectedPatterns(results, a), ["cycle", "velocity", "peel"])
    ensures DetectedPatterns(results, a) == [] <==> a !in SuspiciousNodes(results)
  {
    var ps := DetectedPatterns(results, a);
    var all := ["cycle", "velocity", "peel"];
    assert all[1..] == ["velocity", "peel"];
    assert all[1..][1..] == ["peel"];
    assert all[1..][1..][1..] == [];
    var tail := (if a in results.velocityNodes then ["velocity"] else [])
      + (if a in results.peelNodes then ["peel"] else []);
    var last := if a in results.peelNodes then ["peel"] else [];
    assert Sublist(last, ["peel"]) by {
      if last != [] {
        assert last[1..] == [];
      }
    }
    assert Sublist(tail, ["velocity", "peel"]) by {
      if a in results.velocityNodes {
        assert tail[0] == "velocity" && tail[1..] == last;
      } else {
        assert tail == last;
      }
    }
    if a in results.cycleNodes {
      assert ps[0] == "cycle" && ps[1..] == tail;
    } else {
      assert ps == tail;
    }
  }

  /** The resulting score is 40 for cycle, plus 30 for velocity, plus 30 for peel. */
  lemma {:induction false} DetectedPatternsScore(results: Results, a: string)
    ensures SuspicionScore(DetectedPatterns(results, a))
      == (if a in results.cycleNodes then 40 else 0)
       + (if a in results.velocityNodes then 30 else 0)
       + (if a in results.peelNodes then 30 else 0)
  {
    KnownPatternPoints();
    var c := if a in results.cycleNodes then ["cycle"] else [];
    var v := if a in results.velocityNodes then ["velocity"] else [];
    var p := if a in results.peelNodes then ["peel"] else [];
    RawScoreAppend(c, v);
    RawScoreAppend(c + v, p);
    assert RawScore(["cycle"]) == 40 by { assert ["cycle"][..0] == []; }
    assert RawScore(["velocity"]) == 30 by { assert ["velocity"][..0] == []; }
    assert RawScore(["peel"]) == 30 by { assert ["peel"][..0] == []; }
  }

  lemma {:induction false} RawScoreAppend(xs: seq<string>, ys: seq<string>)
    ensures RawScore(xs + ys) == RawScore(xs) + RawScore(ys)
    decreases |ys|
  {
    if ys == [] {
      assert xs + ys == xs;
    } else {
      var front := ys[..|ys| - 1];
      RawScoreAppend(xs, front);
      assert (xs + ys)[..|xs + ys| - 1] == xs + front;
    }
  }

  // ---------------------------------------------------------------------
  // ring_members and fraud_rings
  // ---------------------------------------------------------------------

  datatype RingData = RingData(members: Group, patternType: string)

  /** A dictionary, as its items in insertion order. */
  type RingTable = seq<(string, RingData)>

  function KeyIndex(t: RingTable, key: string): (r: int)
    ensures -1 <= r < |t|
    ensures r >= 0 ==> t[r].0 == key
    ensures r == -1 ==> forall i :: 0 <= i < |t| ==> t[i].0 != key
    decreases |t|
  {
    if t == [] then -1
    else if t[|t| - 1].0 == key then |t| - 1
    else KeyIndex(t[..|t| - 1], key)
  }

  /** `t[key] = v`: an existing key keeps its position, a new key goes last. */
  function Put(t: RingTable, key: string, v: RingData): RingTable {
    var k := KeyIndex(t, key);
    if k >= 0 then t[k := (key, v)] else t + [(key, v)]
  }

  /** The cycle loop as written: the key uses len(fraud_rings), which is 0 here. */
  function CycleEntriesAsWritten(groups: seq<Group>, idOf: IdFormat): RingTable
    decreases |groups|
  {
    if groups == [] then []
    else Put(CycleEntriesAsWritten(groups[..|groups| - 1], idOf), idOf(0 + 1), RingData(groups[|groups| - 1], "cycle"))
  }

  /** The peel loop as written: the key uses 0 + len(ring_members) + 1. */
  function PeelEntriesAsWritten(t: RingTable, groups: seq<Group>, idOf: IdFormat): RingTable
    decreases |groups|
  {
    if groups == [] then t
    else
      var t' := PeelEntriesAsWritten(t, groups[..|groups| - 1], idOf);
      Put(t', idOf(0 + |t'| + 1), RingData(groups[|groups| - 1], "peel"))
  }

  function RingTableAsWritten(cycleGroups: seq<Group>, peelGroups: seq<Group>, idOf: IdFormat): RingTable {
    PeelEntriesAsWritten(CycleEntriesAsWritten(cycleGroups, idOf), peelGroups, idOf)
  }

  /** Both loops of main.py:98-110, with fraud_rings still empty. */
  method BuildRingTableAsWritten(cycleGroups: seq<Group>, peelGroups: seq<Group>)
    returns (ringMembers: RingTable)
    ensures ringMembers == RingTableAsWritten(cycleGroups, peelGroups, RingId)
  {
    var fraudRings: seq<Output.FraudRing> := [];
    ringMembers := [];
    for i := 0 to |cycleGroups|
      invariant ringMembers == CycleEntriesAsWritten(cycleGroups[..i], RingId)
    {
      var ringId := RingId(|fraudRings| + 1);
      ringMembers := Put(ringMembers, ringId, RingData(cycleGroups[i], "cycle"));
      assert cycleGroups[..i + 1][..i] == cycleGroups[..i];
    }
    assert cycleGroups[..|cycleGroups|] == cycleGroups;
    ghost var cycleEntries := ringMembers;
    for i := 0 to |peelGroups|
      invariant ringMembers == PeelEntriesAsWritten(cycleEntries, peelGroups[..i], RingId)
    {
      var ringId := RingId(|fraudRings| + |ringMembers| + 1);
      ringMembers := Put(ringMembers, ringId, RingData(peelGroups[i], "peel"));
      assert peelGroups[..i + 1][..i] == peelGroups[..i];
    }
    assert peelGroups[..|peelGroups|] == peelGroups;
  }

  /** As written, all cycle groups collapse into one entry RING_001 holding the last group. */
  lemma {:induction false} CycleEntriesCollapse(groups: seq<Group>, idOf: IdFormat)
    requires |groups| >= 1
    ensures CycleEntriesAsWritten(groups, idOf) == [(idOf(1), RingData(groups[|groups| - 1], "cycle"))]
    decreases |groups|
  {
    if |groups| > 1 {
      CycleEntriesCollapse(groups[..|groups| - 1], idOf);
    }
  }

  /**
   * Two cycle groups: account "a" is mapped to RING_001 but the only ring
   * entry, RING_001, lists d, e, f; "d" is mapped to RING_002, which has
   * no entry at all.
   */
  lemma {:induction false} RingTableAsWrittenLosesGroups()
    ensures var c := [["a", "b", "c"], ["d", "e", "f"]];
      RingTableAsWritten(c, [], RingId) == [(RingId(1), RingData(["d", "e", "f"], "cycle"))]
      && AccountToRing(c, [], RingId)["a"] == RingId(1)
      && "a" !in RingTableAsWritten(c, [], RingId)[0].1.members
      && AccountToRing(c, [], RingId)["d"] == RingId(2)
      && KeyIndex(RingTableAsWritten(c, [], RingId), RingId(2)) == -1
  {
    var c := [["a", "b", "c"], ["d", "e", "f"]];
    CycleEntriesCollapse(c, RingId);
    AccountToRingAt(c, [], RingId, "a");
    AccountToRingAt(c, [], RingId, "d");
    assert LastGroupWith(c, "a") == 0 by {
      assert "a" !in c[1];
      assert c[..1] == [["a", "b", "c"]];
    }
    assert LastGroupWith(c, "d") == 1;
    if RingId(1) == RingId(2) {
      RingIdInjective(1, 2);
    }
  }

  /** Corrected table: group k (cycles first, then peel chains) is keyed RING_k, as account_to_ring numbers it. */
  function SequentialRingTable(cycleGroups: seq<Group>, peelGroups: seq<Group>, idOf: IdFormat): (t: RingTable)
    ensures |t| == |cycleGroups| + |peelGroups|
  {
    seq(|cycleGroups| + |peelGroups|, i requires 0 <= i < |cycleGroups| + |peelGroups| =>
      RingEntry(cycleGroups, peelGroups, idOf, i))
  }

  /** Entry k of the corrected table. */
  function RingEntry(cycleGroups: seq<Group>, peelGroups: seq<Group>, idOf: IdFormat, k: nat): (string, RingData)
    requires k < |cycleGroups| + |peelGroups|
  {
    if k < |cycleGroups| then (idOf(k + 1), RingData(cycleGroups[k], "cycle"))
    else (idOf(k + 1), RingData(peelGroups[k - |cycleGroups|], "peel"))
  }

  method BuildSequentialRingTable(cycleGroups: seq<Group>, peelGroups: seq<Group>) returns (ringMembers: RingTable)
    ensures ringMembers == SequentialRingTable(cycleGroups, peelGroups, RingId)
  {
    ringMembers := [];
    var ringCounter := 1;
    for i := 0 to |cycleGroups|
      invariant |ringMembers| == i
      invariant ringCounter == |ringMembers| + 1
      invariant EntriesSoFar(ringMembers, cycleGroups, peelGroups, RingId)
    {
      var entry := (RingId(ringCounter), RingData(cycleGroups[i], "cycle"));
      AppendEntry(ringMembers, entry, cycleGroups, peelGroups, RingId);
      ringMembers := ringMembers + [entry];
      ringCounter := ringCounter + 1;
    }
    for i := 0 to |peelGroups|
      invariant |ringMembers| == |cycleGroups| + i
      invariant ringCounter == |ringMembers| + 1
      invariant EntriesSoFar(ringMembers, cycleGroups, peelGroups, RingId)
    {
      var entry := (RingId(ringCounter), RingData(peelGroups[i], "peel"));
      assert |ringMembers| - |cycleGroups| == i;
      AppendEntry(ringMembers, entry, cycleGroups, peelGroups, RingId);
      ringMembers := ringMembers + [entry];
      ringCounter := ringCounter + 1;
    }
    EntriesComplete(ringMembers, cycleGroups, peelGroups, RingId);
  }

  /** `t` holds the first |t| entries of the corrected table. */
  predicate EntriesSoFar(t: RingTable, cycleGroups: seq<Group>, peelGroups: seq<Group>, idOf: IdFormat) {
    |t| <= |cycleGroups| + |peelGroups|
    && forall k :: 0 <= k < |t| ==> t[k] == RingEntry(cycleGroups, peelGroups, idOf, k)
  }

  /** All entries present: the table is the corrected one. */
  lemma {:induction false} EntriesComplete(t: RingTable, cycleGroups: seq<Group>, peelGroups: seq<Group>, idOf: IdFormat)
    requires EntriesSoFar(t, cycleGroups, peelGroups, idOf)
    requires |t| == |cycleGroups| + |peelGroups|
    ensures t == SequentialRingTable(cycleGroups, peelGroups, idOf)
  {
  }

  /** Appending the next entry keeps the prefix. */
  lemma {:induction false} AppendEntry(t: RingTable, entry: (string, RingData),
                                       cycleGroups: seq<Group>, peelGroups: seq<Group>, idOf: IdFormat)
    requires EntriesSoFar(t, cycleGroups, peelGroups, idOf)
    requires |t| < |cycleGroups| + |peelGroups|
    requires entry == RingEntry(cycleGroups, peelGroups, idOf, |t|)
    ensures EntriesSoFar(t + [entry], cycleGroups, peelGroups, idOf)
  {
    var t' := t + [entry];
    forall k | 0 <= k < |t'|
      ensures t'[k] == RingEntry(cycleGroups, peelGroups, idOf, k)
    {
      if k == |t| {
        assert t'[k] == entry;
      } else {
        assert t'[k] == t[k];
      }
    }
  }

  /** The corrected keys are distinct. */
  lemma {:induction false} RingTableKeysDistinct(cycleGroups: seq<Group>, peelGroups: seq<Group>, i: nat, j: nat)
    requires i < j < |cycleGroups| + |peelGroups|
    ensures SequentialRingTable(cycleGroups, peelGroups, RingId)[i].0
      != SequentialRingTable(cycleGroups, peelGroups, RingId)[j].0
  {
    var t := SequentialRingTable(cycleGroups, peelGroups, RingId);
    assert t[i].0 == RingId(i + 1) && t[j].0 == RingId(j + 1);
    if RingId(i + 1) == RingId(j + 1) {
      RingIdInjective(i + 1, j + 1);
    }
  }

  /** With the corrected table every account's ring id names an entry that lists the account. */
  lemma {:induction false} RingTableAgreesWithAccounts(cycleGroups: seq<Group>, peelGroups: seq<Group>, idOf: IdFormat, a: string)
    requires a in AccountToRing(cycleGroups, peelGroups, idOf)
    ensures exists k :: (0 <= k < |cycleGroups| + |peelGroups|
      && SequentialRingTable(cycleGroups, peelGroups, idOf)[k].0 == AccountToRing(cycleGroups, peelGroups, idOf)[a]
      && a in SequentialRingTable(cycleGroups, peelGroups, idOf)[k].1.members)
  {
    AccountToRingAt(cycleGroups, peelGroups, idOf, a);
    var t := SequentialRingTable(cycleGroups, peelGroups, idOf);
    var last := LastGroupWith(cycleGroups, a);
    if last >= 0 {
      assert t[last].0 == idOf(last + 1) && a in t[last].1.members;
    } else {
      var first := FirstGroupWith(peelGroups, a);
      var k := |cycleGroups| + first;
      assert t[k].0 == idOf(k + 1) && a in t[k].1.members;
    }
  }

  /** The scores of the suspicious accounts listed in a ring. */
  function MemberScores(accounts: seq<SuspiciousAccount>, members: Group): seq<real>
    decreases |accounts|
  {
    if accounts == [] then []
    else
      var last := accounts[|accounts| - 1];
      MemberScores(accounts[..|accounts| - 1], members)
      + (if last.accountId in members then [last.suspicionScore as real] else [])
  }

  /** One fraud ring per table entry, in table order, with the rounded mean member score. */
  method BuildFraudRings(ringMembers: RingTable, accounts: seq<SuspiciousAccount>, round: Output.Rounding)
    returns (fraudRings: seq<Output.FraudRing>)
    ensures |fraudRings| == |ringMembers|
    ensures forall i :: 0 <= i < |ringMembers| ==>
      fraudRings[i] == Output.FraudRing(ringMembers[i].0, ringMembers[i].1.members, ringMembers[i].1.patternType,
                                        round(Mean(MemberScores(accounts, ringMembers[i].1.members)), 2))
  {
    fraudRings := [];
    for i := 0 to |ringMembers|
      invariant |fraudRings| == i
      invariant forall k :: 0 <= k < i ==>
        fraudRings[k] == Output.FraudRing(ringMembers[k].0, ringMembers[k].1.members, ringMembers[k].1.patternType,
                                          round(Mean(MemberScores(accounts, ringMembers[k].1.members)), 2))
    {
      var (ringId, data) := ringMembers[i];
      var memberScores := MemberScores(accounts, data.members);
      var riskScore := if |memberScores| > 0 then Sum(memberScores) / |memberScores| as real else 0.0;
      fraudRings := fraudRings + [Output.FraudRing(ringId, data.members, data.patternType, round(riskScore, 2))];
    }
  }

  lemma {:induction false} MemberScoresInRange(accounts: seq<SuspiciousAccount>, members: Group)
    requires forall k :: 0 <= k < |accounts| ==> 0 <= accounts[k].suspicionScore <= 100
    ensures forall i :: 0 <= i < |MemberScores(accounts, members)| ==>
      0.0 <= MemberScores(accounts, members)[i] <= 100.0
    decreases |accounts|
  {
    if accounts != [] {
      var front := accounts[..|accounts| - 1];
      assert forall k :: 0 <= k < |front| ==> front[k] == accounts[k];
      MemberScoresInRange(front, members);
    }
  }

  /** Before rounding, a ring's risk is in [0,100]: it is a mean of capped scores. */
  lemma {:induction false} RiskInRange(results: Results, accounts: seq<SuspiciousAccount>, members: Group)
    requires forall k :: 0 <= k < |accounts| ==>
      accounts[k].suspicionScore == SuspicionScore(DetectedPatterns(results, accounts[k].accountId))
    ensures 0.0 <= Mean(MemberScores(accounts, members)) <= 100.0
  {
    forall k | 0 <= k < |accounts|
      ensures 0 <= accounts[k].suspicionScore <= 100
    {
      SuspicionScoreInRange(DetectedPatterns(results, accounts[k].accountId));
    }
    MemberScoresInRange(accounts, members);
    MeanBounds(MemberScores(accounts, members), 0.0, 100.0);
  }

  // ---------------------------------------------------------------------
  // The assembled report
  // ---------------------------------------------------------------------

  datatype Report = Report(
    suspiciousAccounts: seq<SuspiciousAccount>,
    fraudRings: seq<Output.FraudRing>,
    summary: Output.Summary)

  /**
   * The fraud rings of the report: ring k is group k of the cycles, then
   * the peel chains, keyed `RING_k`, with the rounded mean score of the
   * records that list it.
   */
  method BuildReportRings(results: Results, accounts: seq<SuspiciousAccount>, round: Output.Rounding)
    returns (fraudRings: seq<Output.FraudRing>)
    ensures |fraudRings| == |results.cycleGroups| + |results.peelGroups|
    ensures forall k :: 0 <= k < |fraudRings| ==>
      fraudRings[k].ringId == RingId(k + 1)
      && fraudRings[k].memberAccounts
        == (if k < |results.cycleGroups| then results.cycleGroups[k]
            else results.peelGroups[k - |results.cycleGroups|])
      && fraudRings[k].patternType == (if k < |results.cycleGroups| then "cycle" else "peel")
      && fraudRings[k].riskScore == round(Mean(MemberScores(accounts, fraudRings[k].memberAccounts)), 2)
  {
    var ringMembers := BuildSequentialRingTable(results.cycleGroups, results.peelGroups);
    fraudRings := BuildFraudRings(ringMembers, accounts, round);
    forall k | 0 <= k < |fraudRings|
      ensures ringMembers[k] == RingEntry(results.cycleGroups, results.peelGroups, RingId, k)
    {
    }
  }

  /** Every mapped account's id keys a report ring that lists the account: ring `k`. */
  lemma {:induction false} ReportRingLink(cycleGroups: seq<Group>, peelGroups: seq<Group>,
                                          fraudRings: seq<Output.FraudRing>, idOf: IdFormat, a: string)
    returns (k: nat)
    requires a in AccountToRing(cycleGroups, peelGroups, idOf)
    requires |fraudRings| == |cycleGroups| + |peelGroups|
    requires forall k :: 0 <= k < |fraudRings| ==>
      fraudRings[k].ringId == idOf(k + 1)
      && fraudRings[k].memberAccounts
        == (if k < |cycleGroups| then cycleGroups[k] else peelGroups[k - |cycleGroups|])
    ensures k < |fraudRings|
    ensures fraudRings[k].ringId == AccountToRing(cycleGroups, peelGroups, idOf)[a]
    ensures a in fraudRings[k].memberAccounts
  {
    RingTableAgreesWithAccounts(cycleGroups, peelGroups, idOf, a);
    var t := SequentialRingTable(cycleGroups, peelGroups, idOf);
    k :| 0 <= k < |cycleGroups| + |peelGroups|
      && t[k].0 == AccountToRing(cycleGroups, peelGroups, idOf)[a] && a in t[k].1.members;
    assert t[k] == RingEntry(cycleGroups, peelGroups, idOf, k);
    assert fraudRings[k].ringId == t[k].0 && fraudRings[k].memberAccounts == t[k].1.members;
  }

  /** Every record with a ring id names a report ring that lists its account. */
  lemma {:induction false} RecordsLinkToRings(results: Results, order: seq<string>,
                                              accounts: seq<SuspiciousAccount>, fraudRings: seq<Output.FraudRing>,
                                              idOf: IdFormat)
    requires |accounts| == |order|
    requires forall i :: 0 <= i < |order| ==>
      accounts[i].ringId == MapGet(AccountToRing(results.cycleGroups, results.peelGroups, idOf), order[i])
    requires |fraudRings| == |results.cycleGroups| + |results.peelGroups|
    requires forall k :: 0 <= k < |fraudRings| ==>
      fraudRings[k].ringId == idOf(k + 1)
      && fraudRings[k].memberAccounts
        == (if k < |results.cycleGroups| then results.cycleGroups[k]
            else results.peelGroups[k - |results.cycleGroups|])
    ensures forall i :: 0 <= i < |order| ==>
      accounts[i].ringId.Some? ==>
        exists k :: (0 <= k < |fraudRings|
          && fraudRings[k].ringId == accounts[i].ringId.value
          && order[i] in fraudRings[k].memberAccounts)
  {
    forall i | 0 <= i < |order| && accounts[i].ringId.Some?
      ensures exists k :: (0 <= k < |fraudRings|
        && fraudRings[k].ringId == accounts[i].ringId.value
        && order[i] in fraudRings[k].memberAccounts)
    {
      var k := ReportRingLink(results.cycleGroups, results.peelGroups, fraudRings, idOf, order[i]);
      assert fraudRings[k].ringId == accounts[i].ringId.value;
    }
  }

  /**
   * The driver after detection: `nodeCount` is G.number_of_nodes(),
   * `order` the iteration order of the suspicious node set and
   * `processingTime` the elapsed seconds.  Rings come from the
   * sequentially keyed table.
   */
  method Assemble(nodeCount: nat, order: seq<string>, results: Results, processingTime: real,
                  round: Output.Rounding)
    returns (report: Report)
    requires Enumerates(order, SuspiciousNodes(results))
    ensures |report.suspiciousAccounts| == |order| == |SuspiciousNodes(results)|
    ensures forall i :: 0 <= i < |order| ==>
      report.suspiciousAccounts[i].accountId == order[i]
      && report.suspiciousAccounts[i].detectedPatterns == DetectedPatterns(results, order[i])
      && report.suspiciousAccounts[i].detectedPatterns != []
      && report.suspiciousAccounts[i].suspicionScore == SuspicionScore(DetectedPatterns(results, order[i]))
      && report.suspiciousAccounts[i].ringId
        == MapGet(AccountToRing(results.cycleGroups, results.peelGroups, RingId), order[i])
    ensures |report.fraudRings| == |results.cycleGroups| + |results.peelGroups|
    ensures forall k :: 0 <= k < |report.fraudRings| ==>
      report.fraudRings[k].ringId == RingId(k + 1)
      && report.fraudRings[k].memberAccounts
        == (if k < |results.cycleGroups| then results.cycleGroups[k]
            else results.peelGroups[k - |results.cycleGroups|])
      && report.fraudRings[k].patternType == (if k < |results.cycleGroups| then "cycle" else "peel")
      && report.fraudRings[k].riskScore
        == round(Mean(MemberScores(report.suspiciousAccounts, report.fraudRings[k].memberAccounts)), 2)
    ensures report.summary.totalAccountsAnalyzed == nodeCount
    ensures report.summary.suspiciousAccountsFlagged == |SuspiciousNodes(results)|
    ensures report.summary.fraudRingsDetected == |report.fraudRings|
    ensures report.summary.processingTimeSeconds == round(processingTime, 3)
    ensures forall i :: 0 <= i < |order| ==>
      report.suspiciousAccounts[i].ringId.Some? ==>
        exists k :: (0 <= k < |report.fraudRings|
          && report.fraudRings[k].ringId == report.suspiciousAccounts[i].ringId.value
          && order[i] in report.fraudRings[k].memberAccounts)
  {
    var accountToRing, ringCounter := AssignRings(results.cycleGroups, results.peelGroups);
    var suspiciousAccounts := BuildSuspiciousAccounts(order, results, accountToRing);
    var fraudRings := BuildReportRings(results, suspiciousAccounts, round);
    RecordsLinkToRings(results, order, suspiciousAccounts, fraudRings, RingId);
    var summary := Output.Summary(nodeCount, |suspiciousAccounts|, |fraudRings|, round(processingTime, 3));
    report := Report(suspiciousAccounts, fraudRings, summary);
  }
}
