/**
 * Fraud-ring grouping (python-engine/ring_grouper.py).
 *
 * The k-th cycle becomes ring "RING_" + k padded to three digits with
 * pattern type "cycle" and, as risk, the mean suspicion score of the
 * accounts listed in it.  Every account in the cycle is then tagged with
 * the ring when it has no ring yet or the ring's risk is strictly greater
 * than the risk of its current ring.  A clean-up pass drops the temporary
 * risk and gives untagged accounts the empty ring id, and the rings are
 * sorted by descending risk with Python's stable sort.
 *
 * The list of account dictionaries that the source mutates in place is an
 * array of account records here.
 */
module RingGrouper {
  import opened Common
  import opened Scoring

  datatype Ring = Ring(ringId: string, memberAccounts: seq<string>, patternType: string, riskScore: real)

  // ---------------------------------------------------------------------
  // Ring creation
  // ---------------------------------------------------------------------

  /** The scores of the accounts, in account order, whose id is listed in the cycle. */
  function MemberScores(accounts: seq<Account>, cycle: Cycle): seq<real>
    decreases |accounts|
  {
    if accounts == [] then []
    else
      var last := accounts[|accounts| - 1];
      MemberScores(accounts[..|accounts| - 1], cycle)
      + (if last.accountId in cycle then [last.suspicionScore] else [])
  }

  /** The ring created for `cycle` as the k-th one (k counts from 1). */
  function MakeRing(accounts: seq<Account>, cycle: Cycle, k: nat): Ring {
    Ring(RingId(k), cycle, "cycle", Mean(MemberScores(accounts, cycle)))
  }

  /** The rings in creation order, before sorting. */
  function CreatedRings(accounts: seq<Account>, cycles: seq<Cycle>): (rings: seq<Ring>)
    ensures |rings| == |cycles|
  {
    seq(|cycles|, i requires 0 <= i < |cycles| => MakeRing(accounts, cycles[i], i + 1))
  }

  // ---------------------------------------------------------------------
  // Tagging and clean-up of one account
  // ---------------------------------------------------------------------

  /** The tagging test: listed in the ring, and no ring yet or a strictly riskier ring. */
  predicate Claims(ring: Ring, acc: Account) {
    acc.accountId in ring.memberAccounts
    && (acc.ringId.None? || acc.tempRisk.GetOr(0.0) < ring.riskScore)
  }

  function Assign(acc: Account, ring: Ring): Account {
    if Claims(ring, acc) then acc.(ringId := Some(ring.ringId), tempRisk := Some(ring.riskScore))
    else acc
  }

  /** The account after being offered each ring in turn. */
  function AssignAll(acc: Account, rings: seq<Ring>): Account
    decreases |rings|
  {
    if rings == [] then acc else Assign(AssignAll(acc, rings[..|rings| - 1]), rings[|rings| - 1])
  }

  /** `del acc['temp_risk']`, and `ring_id` defaults to '' */
  function Cleanup(acc: Account): Account {
    acc.(tempRisk := None, ringId := Some(acc.ringId.GetOr("")))
  }

  // ---------------------------------------------------------------------
  // The stable descending sort
  // ---------------------------------------------------------------------

  /** Insert after every ring whose risk is at least as high: equal keys keep their order. */
  function InsertByRisk(sorted: seq<Ring>, r: Ring): (result: seq<Ring>)
    ensures |result| == |sorted| + 1
  {
    if sorted == [] then [r]
    else if sorted[0].riskScore >= r.riskScore then [sorted[0]] + InsertByRisk(sorted[1..], r)
    else [r] + sorted
  }

  /** `rings.sort(key=risk_score, reverse=True)` */
  function SortByRisk(rings: seq<Ring>): (result: seq<Ring>)
    ensures |result| == |rings|
    decreases |rings|
  {
    if rings == [] then []
    else InsertByRisk(SortByRisk(rings[..|rings| - 1]), rings[|rings| - 1])
  }

  predicate NonIncreasing(rings: seq<Ring>) {
    forall i, j :: 0 <= i < j < |rings| ==> rings[i].riskScore >= rings[j].riskScore
  }

  /** The rings with the given risk, in their order. */
  function WithRisk(rings: seq<Ring>, x: real): seq<Ring>
    decreases |rings|
  {
    if rings == [] then []
    else (if rings[0].riskScore == x then [rings[0]] else []) + WithRisk(rings[1..], x)
  }

  // ---------------------------------------------------------------------
  // The operation
  // ---------------------------------------------------------------------

  /** The member_scores loop: the scores of the accounts listed in the cycle. */
  method CollectMemberScores(accounts: array<Account>, cycle: Cycle) returns (memberScores: seq<real>)
    ensures memberScores == MemberScores(accounts[..], cycle)
  {
    memberScores := [];
    for k := 0 to accounts.Length
      invariant memberScores == MemberScores(accounts[..k], cycle)
    {
      if accounts[k].accountId in cycle {
        memberScores := memberScores + [accounts[k].suspicionScore];
      }
      assert accounts[..k + 1][..k] == accounts[..k];
    }
    assert accounts[..accounts.Length] == accounts[..];
  }

  /** The tagging loop for one ring. */
  method TagMembers(accounts: array<Account>, ring: Ring)
    modifies accounts
    ensures forall q :: 0 <= q < accounts.Length ==> accounts[q] == Assign(old(accounts[q]), ring)
  {
    for k := 0 to accounts.Length
      invariant forall q :: 0 <= q < k ==> accounts[q] == Assign(old(accounts[q]), ring)
      invariant forall q :: k <= q < accounts.Length ==> accounts[q] == old(accounts[q])
    {
      if accounts[k].accountId in ring.memberAccounts {
        if accounts[k].ringId.None? || accounts[k].tempRisk.GetOr(0.0) < ring.riskScore {
          accounts[k] := accounts[k].(ringId := Some(ring.ringId), tempRisk := Some(ring.riskScore));
        }
      }
    }
  }

  /** The clean-up loop. */
  method CleanUp(accounts: array<Account>)
    modifies accounts
    ensures forall q :: 0 <= q < accounts.Length ==> accounts[q] == Cleanup(old(accounts[q]))
  {
    for k := 0 to accounts.Length
      invariant forall q :: 0 <= q < k ==> accounts[q] == Cleanup(old(accounts[q]))
      invariant forall q :: k <= q < accounts.Length ==> accounts[q] == old(accounts[q])
    {
      if accounts[k].tempRisk.Some? {
        accounts[k] := accounts[k].(tempRisk := None);
      }
      if accounts[k].ringId.None? {
        accounts[k] := accounts[k].(ringId := Some(""));
      }
    }
  }

  method GroupRings(accounts: array<Account>, cycles: seq<Cycle>) returns (rings: seq<Ring>)
    modifies accounts
    ensures rings == SortByRisk(CreatedRings(old(accounts[..]), cycles))
    ensures forall k :: 0 <= k < accounts.Length ==>
      accounts[k] == Cleanup(AssignAll(old(accounts[k]), CreatedRings(old(accounts[..]), cycles)))
  {
    ghost var orig := accounts[..];
    ghost var created := CreatedRings(orig, cycles);
    rings := [];
    for idx := 0 to |cycles|
      invariant rings == created[..idx]
      invariant forall q :: 0 <= q < accounts.Length ==> accounts[q] == AssignAll(orig[q], rings)
    {
      var cycle := cycles[idx];
      var ringId := RingId(idx + 1);
      var memberScores := CollectMemberScores(accounts, cycle);
      AssignedScoresUnchanged(accounts[..], orig, rings, cycle);
      var riskScore := if |memberScores| > 0 then Sum(memberScores) / |memberScores| as real else 0.0;
      var patternType := "cycle";
      var ring := Ring(ringId, cycle, patternType, riskScore);
      assert riskScore == Mean(MemberScores(orig, cycle));
      assert ring == created[idx];
      ghost var prev := rings;
      rings := rings + [ring];
      assert created[..idx + 1] == created[..idx] + [created[idx]];
      TagMembers(accounts, ring);
      forall q | 0 <= q < accounts.Length
        ensures accounts[q] == AssignAll(orig[q], rings)
      {
        AssignAllSnoc(orig[q], prev, ring);
      }
    }
    CleanUp(accounts);
    assert created[..|cycles|] == created;
    rings := SortByRisk(rings);
  }

  // ---------------------------------------------------------------------
  // Tagging keeps ids and scores, so later rings see the original scores
  // ---------------------------------------------------------------------

  lemma {:induction false} AssignAllSnoc(acc: Account, rings: seq<Ring>, ring: Ring)
    ensures AssignAll(acc, rings + [ring]) == Assign(AssignAll(acc, rings), ring)
  {
    assert (rings + [ring])[..|rings|] == rings;
  }

  lemma {:induction false} AssignAllKeeps(acc: Account, rings: seq<Ring>)
    ensures AssignAll(acc, rings) == acc.(ringId := AssignAll(acc, rings).ringId,
                                          tempRisk := AssignAll(acc, rings).tempRisk)
    decreases |rings|
  {
    if rings != [] {
      AssignAllKeeps(acc, rings[..|rings| - 1]);
    }
  }

  lemma {:induction false} MemberScoresAgree(a: seq<Account>, b: seq<Account>, cycle: Cycle)
    requires |a| == |b|
    requires forall k :: 0 <= k < |a| ==>
      a[k].accountId == b[k].accountId && a[k].suspicionScore == b[k].suspicionScore
    ensures MemberScores(a, cycle) == MemberScores(b, cycle)
    decreases |a|
  {
    if a != [] {
      MemberScoresAgree(a[..|a| - 1], b[..|b| - 1], cycle);
    }
  }

  lemma {:induction false} AssignedScoresUnchanged(current: seq<Account>, orig: seq<Account>, rings: seq<Ring>, cycle: Cycle)
    requires |current| == |orig|
    requires forall q :: 0 <= q < |current| ==> current[q] == AssignAll(orig[q], rings)
    ensures MemberScores(current, cycle) == MemberScores(orig, cycle)
  {
    forall q | 0 <= q < |current|
      ensures current[q].accountId == orig[q].accountId && current[q].suspicionScore == orig[q].suspicionScore
    {
      AssignAllKeeps(orig[q], rings);
    }
    MemberScoresAgree(current, orig, cycle);
  }

  // ---------------------------------------------------------------------
  // Ring ids, members and risk
  // ---------------------------------------------------------------------

  /** The k-th cycle yields ring "RING_" + k padded to three digits, type 'cycle', members the cycle. */
  lemma {:induction false} CreatedRingShape(accounts: seq<Account>, cycles: seq<Cycle>, k: nat)
    requires 1 <= k <= |cycles| && k < 1000
    ensures var r := CreatedRings(accounts, cycles)[k - 1];
      r.ringId[..5] == "RING_" && |r.ringId| == 8
      && AllDigits(r.ringId[5..]) && DecimalValue(r.ringId[5..]) == k
      && r.patternType == "cycle" && r.memberAccounts == cycles[k - 1]
  {
    RingIdShape(k);
  }

  /** Different rings get different ids. */
  lemma {:induction false} CreatedRingIdsDistinct(accounts: seq<Account>, cycles: seq<Cycle>, i: nat, j: nat)
    requires i < |cycles| && j < |cycles| && i != j
    ensures CreatedRings(accounts, cycles)[i].ringId != CreatedRings(accounts, cycles)[j].ringId
  {
    CreatedRingsFields(accounts, cycles);
    if RingId(i + 1) == RingId(j + 1) {
      RingIdInjective(i + 1, j + 1);
    }
  }

  /** A score is collected exactly when some account listed in the cycle has it. */
  lemma {:induction false} MemberScoresIff(accounts: seq<Account>, cycle: Cycle, x: real)
    ensures x in MemberScores(accounts, cycle) <==>
      exists k :: 0 <= k < |accounts| && accounts[k].accountId in cycle && accounts[k].suspicionScore == x
    decreases |accounts|
  {
    if accounts != [] {
      var front := accounts[..|accounts| - 1];
      MemberScoresIff(front, cycle, x);
      if exists k :: 0 <= k < |front| && front[k].accountId in cycle && front[k].suspicionScore == x {
        var k :| 0 <= k < |front| && front[k].accountId in cycle && front[k].suspicionScore == x;
        assert accounts[k] == front[k];
      }
      if exists k :: 0 <= k < |accounts| && accounts[k].accountId in cycle && accounts[k].suspicionScore == x {
        var k :| 0 <= k < |accounts| && accounts[k].accountId in cycle && accounts[k].suspicionScore == x;
        if k < |front| {
          assert front[k] == accounts[k];
        }
      }
    }
  }

  /** A ring's risk is a mean of member scores, so with scores in [0,100] it is in [0,100]. */
  lemma {:induction false} RiskInRange(accounts: seq<Account>, cycle: Cycle)
    requires forall k :: 0 <= k < |accounts| ==> 0.0 <= accounts[k].suspicionScore <= 100.0
    ensures 0.0 <= MakeRing(accounts, cycle, 1).riskScore <= 100.0
  {
    var xs := MemberScores(accounts, cycle);
    forall i | 0 <= i < |xs|
      ensures 0.0 <= xs[i] <= 100.0
    {
      MemberScoresIff(accounts, cycle, xs[i]);
    }
    MeanBounds(xs, 0.0, 100.0);
  }

  // ---------------------------------------------------------------------
  // Which ring an account ends up with
  // ---------------------------------------------------------------------

  /**
   * Ring j is the first of the rings listing the account whose risk is
   * maximal among them: every earlier one is strictly less risky, no later
   * one is riskier.
   */
  predicate FirstBest(rings: seq<Ring>, a: string, j: int) {
    0 <= j < |rings| && a in rings[j].memberAccounts
    && (forall i :: 0 <= i < |rings| && a in rings[i].memberAccounts ==> rings[i].riskScore <= rings[j].riskScore)
    && (forall i :: 0 <= i < j && a in rings[i].memberAccounts ==> rings[i].riskScore < rings[j].riskScore)
  }

  lemma {:induction false} FirstBestUnique(rings: seq<Ring>, a: string, j: int, j': int)
    requires FirstBest(rings, a, j) && FirstBest(rings, a, j')
    ensures j == j'
  {
  }

  /** Offering the rings in order to an untagged account leaves it with its first best ring. */
  lemma {:induction false} AssignAllBest(acc: Account, rings: seq<Ring>) returns (j: int)
    requires acc.ringId.None?
    ensures -1 <= j < |rings|
    ensures j == -1 ==> (AssignAll(acc, rings) == acc
      && forall i :: 0 <= i < |rings| ==> acc.accountId !in rings[i].memberAccounts)
    ensures j >= 0 ==> (FirstBest(rings, acc.accountId, j)
      && AssignAll(acc, rings).ringId == Some(rings[j].ringId)
      && AssignAll(acc, rings).tempRisk == Some(rings[j].riskScore))
    decreases |rings|
  {
    if rings == [] {
      j := -1;
    } else {
      var front := rings[..|rings| - 1];
      var last := rings[|rings| - 1];
      var a := acc.accountId;
      var j0 := AssignAllBest(acc, front);
      AssignAllKeeps(acc, front);
      assert forall i :: 0 <= i < |front| ==> rings[i] == front[i];
      if a !in last.memberAccounts {
        j := j0;
      } else if j0 == -1 {
        j := |front|;
      } else if front[j0].riskScore < last.riskScore {
        j := |front|;
      } else {
        j := j0;
      }
    }
  }

  /**
   * After grouping and clean-up an untagged account has no temporary risk,
   * the empty ring id when no ring lists it, and otherwise the id of its
   * first best ring.
   */
  lemma {:induction false} FinalRing(acc: Account, rings: seq<Ring>)
    requires acc.ringId.None?
    ensures Cleanup(AssignAll(acc, rings)).tempRisk.None?
    ensures (forall i :: 0 <= i < |rings| ==> acc.accountId !in rings[i].memberAccounts)
      ==> Cleanup(AssignAll(acc, rings)).ringId == Some("")
    ensures forall j :: (FirstBest(rings, acc.accountId, j)
      ==> Cleanup(AssignAll(acc, rings)).ringId == Some(rings[j].ringId))
    ensures Cleanup(AssignAll(acc, rings))
      == acc.(ringId := Cleanup(AssignAll(acc, rings)).ringId, tempRisk := None)
  {
    var j := AssignAllBest(acc, rings);
    AssignAllKeeps(acc, rings);
    forall j' | FirstBest(rings, acc.accountId, j')
      ensures Cleanup(AssignAll(acc, rings)).ringId == Some(rings[j'].ringId)
    {
      if j >= 0 {
        FirstBestUnique(rings, acc.accountId, j, j');
      }
    }
  }

  /** For the created rings: an account fresh from scoring gets '' exactly when no cycle lists it. */
  lemma {:induction false} EmptyRingIdIff(orig: seq<Account>, cycles: seq<Cycle>, q: nat)
    requires q < |orig| && orig[q].ringId.None?
    ensures Cleanup(AssignAll(orig[q], CreatedRings(orig, cycles))).ringId == Some("")
      <==> forall i :: 0 <= i < |cycles| ==> orig[q].accountId !in cycles[i]
  {
    var rings := CreatedRings(orig, cycles);
    CreatedRingsFields(orig, cycles);
    var j := AssignAllBest(orig[q], rings);
    if j >= 0 {
      RingIdNonEmpty(j + 1);
    }
  }

  /** The k-th created ring (from 0) has id RingId(k + 1) and the k-th cycle as members. */
  lemma {:induction false} CreatedRingsFields(accounts: seq<Account>, cycles: seq<Cycle>)
    ensures forall k :: 0 <= k < |cycles| ==>
      CreatedRings(accounts, cycles)[k].ringId == RingId(k + 1)
      && CreatedRings(accounts, cycles)[k].memberAccounts == cycles[k]
  {
  }

  // ---------------------------------------------------------------------
  // The sort: non-increasing, a permutation, and stable
  // ---------------------------------------------------------------------

  lemma {:induction false} InsertByRiskMultiset(sorted: seq<Ring>, r: Ring)
    ensures multiset(InsertByRisk(sorted, r)) == multiset(sorted) + multiset{r}
    decreases |sorted|
  {
    if sorted != [] {
      assert sorted == [sorted[0]] + sorted[1..];
      InsertByRiskMultiset(sorted[1..], r);
    }
  }

  /** Every ring of a non-increasing sequence is at most as risky as its head. */
  lemma {:induction false} HeadIsMax(sorted: seq<Ring>, x: Ring)
    requires NonIncreasing(sorted) && x in multiset(sorted)
    ensures x.riskScore <= sorted[0].riskScore
  {
    var i :| 0 <= i < |sorted| && sorted[i] == x;
    if i > 0 {
      assert sorted[0].riskScore >= sorted[i].riskScore;
    }
  }

  lemma {:induction false} NonIncreasingTail(sorted: seq<Ring>)
    requires NonIncreasing(sorted) && sorted != []
    ensures NonIncreasing(sorted[1..])
  {
    var rest := sorted[1..];
    forall i, j | 0 <= i < j < |rest|
      ensures rest[i].riskScore >= rest[j].riskScore
    {
      assert rest[i] == sorted[i + 1] && rest[j] == sorted[j + 1];
    }
  }

  lemma {:induction false} AllBelowHead(sorted: seq<Ring>, x: real)
    requires NonIncreasing(sorted) && sorted != [] && sorted[0].riskScore < x
    ensures forall i :: 0 <= i < |sorted| ==> sorted[i].riskScore < x
  {
    forall i | 0 < i < |sorted|
      ensures sorted[i].riskScore < x
    {
      assert sorted[0].riskScore >= sorted[i].riskScore;
    }
  }

  lemma {:induction false} ConsNonIncreasing(x: Ring, tail: seq<Ring>)
    requires NonIncreasing(tail)
    requires forall y :: y in multiset(tail) ==> y.riskScore <= x.riskScore
    ensures NonIncreasing([x] + tail)
  {
    var result := [x] + tail;
    forall i, j | 0 <= i < j < |result|
      ensures result[i].riskScore >= result[j].riskScore
    {
      assert result[j] == tail[j - 1];
      if i == 0 {
        assert tail[j - 1] in multiset(tail);
      } else {
        assert result[i] == tail[i - 1];
      }
    }
  }

  lemma {:induction false} InsertByRiskSorted(sorted: seq<Ring>, r: Ring)
    requires NonIncreasing(sorted)
    ensures NonIncreasing(InsertByRisk(sorted, r))
    decreases |sorted|
  {
    if sorted != [] {
      var rest := sorted[1..];
      NonIncreasingTail(sorted);
      if sorted[0].riskScore >= r.riskScore {
        InsertByRiskSorted(rest, r);
        InsertByRiskMultiset(rest, r);
        var tail := InsertByRisk(rest, r);
        forall y: Ring | y in multiset(tail)
          ensures y.riskScore <= sorted[0].riskScore
        {
          if y != r {
            assert y in multiset(rest);
            assert sorted == [sorted[0]] + rest;
            assert y in multiset(sorted);
            HeadIsMax(sorted, y);
          }
        }
        ConsNonIncreasing(sorted[0], tail);
      } else {
        forall y: Ring | y in multiset(sorted)
          ensures y.riskScore <= r.riskScore
        {
          HeadIsMax(sorted, y);
        }
        ConsNonIncreasing(r, sorted);
      }
    }
  }

  /** The sorted rings are in non-increasing risk order and a permutation of the input. */
  lemma {:induction false} SortByRiskSortedPermutation(rings: seq<Ring>)
    ensures NonIncreasing(SortByRisk(rings))
    ensures multiset(SortByRisk(rings)) == multiset(rings)
  {
    SortByRiskSorted(rings);
    SortByRiskPermutation(rings);
  }

  lemma {:induction false} SortByRiskSorted(rings: seq<Ring>)
    ensures NonIncreasing(SortByRisk(rings))
    decreases |rings|
  {
    if rings != [] {
      var front := rings[..|rings| - 1];
      SortByRiskSorted(front);
      InsertByRiskSorted(SortByRisk(front), rings[|rings| - 1]);
    }
  }

  lemma {:induction false} SortByRiskPermutation(rings: seq<Ring>)
    ensures multiset(SortByRisk(rings)) == multiset(rings)
    decreases |rings|
  {
    if rings != [] {
      var front := rings[..|rings| - 1];
      var last := rings[|rings| - 1];
      SortByRiskPermutation(front);
      InsertByRiskMultiset(SortByRisk(front), last);
      assert multiset(rings) == multiset(front) + multiset{last} by {
        assert rings == front + [last];
      }
    }
  }

  lemma {:induction false} WithRiskAppend(a: seq<Ring>, b: seq<Ring>, x: real)
    ensures WithRisk(a + b, x) == WithRisk(a, x) + WithRisk(b, x)
    decreases |a|
  {
    if a != [] {
      WithRiskAppend(a[1..], b, x);
      assert a + b == [a[0]] + (a[1..] + b);
      assert a == [a[0]] + a[1..];
      WithRiskCons(a[0], a[1..] + b, x);
      WithRiskCons(a[0], a[1..], x);
    } else {
      assert a + b == b;
    }
  }

  lemma {:induction false} WithRiskNone(s: seq<Ring>, x: real)
    requires forall i :: 0 <= i < |s| ==> s[i].riskScore < x
    ensures WithRisk(s, x) == []
    decreases |s|
  {
    if s != [] {
      WithRiskNone(s[1..], x);
    }
  }

  function Keep(r: Ring, x: real): seq<Ring> {
    if r.riskScore == x then [r] else []
  }

  lemma {:induction false} WithRiskCons(r: Ring, s: seq<Ring>, x: real)
    ensures WithRisk([r] + s, x) == Keep(r, x) + WithRisk(s, x)
  {
    assert ([r] + s)[0] == r;
    assert ([r] + s)[1..] == s;
  }

  lemma {:induction false} InsertByRiskStable(sorted: seq<Ring>, r: Ring, x: real)
    requires NonIncreasing(sorted)
    ensures WithRisk(InsertByRisk(sorted, r), x) == WithRisk(sorted, x) + Keep(r, x)
    decreases |sorted|
  {
    if sorted == [] {
      WithRiskCons(r, [], x);
    } else if sorted[0].riskScore >= r.riskScore {
      NonIncreasingTail(sorted);
      InsertByRiskStable(sorted[1..], r, x);
      InsertAfterHead(sorted, r, x);
    } else {
      InsertBeforeHead(sorted, r, x);
    }
  }

  /** Inserting behind the head, given InsertByRiskStable for the tail. */
  lemma {:induction false} InsertAfterHead(sorted: seq<Ring>, r: Ring, x: real)
    requires sorted != [] && sorted[0].riskScore >= r.riskScore
    requires WithRisk(InsertByRisk(sorted[1..], r), x) == WithRisk(sorted[1..], x) + Keep(r, x)
    ensures WithRisk(InsertByRisk(sorted, r), x) == WithRisk(sorted, x) + Keep(r, x)
  {
    var rest := sorted[1..];
    var tail := InsertByRisk(rest, r);
    ConsKeeps(sorted[0], tail, rest, r, x);
    assert WithRisk(InsertByRisk(sorted, r), x) == WithRisk([sorted[0]] + tail, x) by {
      assert InsertByRisk(sorted, r) == [sorted[0]] + tail;
    }
    assert WithRisk(sorted, x) == WithRisk([sorted[0]] + rest, x) by {
      assert sorted == [sorted[0]] + rest;
    }
  }

  /** A common head does not disturb the equation of InsertByRiskStable. */
  lemma {:induction false} ConsKeeps(h: Ring, tail: seq<Ring>, rest: seq<Ring>, r: Ring, x: real)
    requires WithRisk(tail, x) == WithRisk(rest, x) + Keep(r, x)
    ensures WithRisk([h] + tail, x) == WithRisk([h] + rest, x) + Keep(r, x)
  {
    WithRiskCons(h, tail, x);
    WithRiskCons(h, rest, x);
    assert Keep(h, x) + (WithRisk(rest, x) + Keep(r, x)) == Keep(h, x) + WithRisk(rest, x) + Keep(r, x);
  }

  /** Inserting in front of a strictly less risky head. */
  lemma {:induction false} InsertBeforeHead(sorted: seq<Ring>, r: Ring, x: real)
    requires NonIncreasing(sorted) && sorted != [] && sorted[0].riskScore < r.riskScore
    ensures WithRisk(InsertByRisk(sorted, r), x) == WithRisk(sorted, x) + Keep(r, x)
  {
    assert InsertByRisk(sorted, r) == [r] + sorted;
    WithRiskCons(r, sorted, x);
    if r.riskScore == x {
      AllBelowHead(sorted, x);
      WithRiskNone(sorted, x);
    }
  }

  /** Rings of equal risk keep their creation order. */
  lemma {:induction false} SortByRiskStable(rings: seq<Ring>, x: real)
    ensures WithRisk(SortByRisk(rings), x) == WithRisk(rings, x)
    decreases |rings|
  {
    if rings != [] {
      var front := rings[..|rings| - 1];
      var last := rings[|rings| - 1];
      SortByRiskStable(front, x);
      SortByRiskSorted(front);
      InsertByRiskStable(SortByRisk(front), last, x);
      assert rings == front + [last];
      WithRiskAppend(front, [last], x);
      WithRiskCons(last, [], x);
      assert [last] + [] == [last];
    }
  }
}
