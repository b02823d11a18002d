/**
 * Per-account suspicion scoring (python-engine/scoring.py).
 *
 * `calculate_scores` first builds a participation map from account id to
 * the list of cycles the account appears in, then scores every graph node:
 * a cycle score min(60 n, 100), a velocity score min(50 m, 100), and the
 * 0.6 / 0.4 weighted average of the scores that are present.  Pattern
 * tags are the strings "cycle_participation:n" and "temporal_velocity:m".
 *
 * Python floats are modelled as exact reals, so 0.6 and 0.4 are exactly
 * three fifths and two fifths here.
 */
module Scoring {
  import opened Common
  import Detectors

  type Cycle = Detectors.Cycle
  type Velocity = map<string, seq<Detectors.VelocityEvent>>

  /**
   * The account record that scoring produces and the ring grouper later
   * updates.  `ringId` and `tempRisk` stand for the optional dictionary
   * keys 'ring_id' and 'temp_risk': None while the key is absent.
   */
  datatype Account = Account(
    accountId: string,
    suspicionScore: real,
    detectedPatterns: seq<string>,
    cycleCount: nat,
    velocityCount: nat,
    ringId: Option<string>,
    tempRisk: Option<real>)

  // ---------------------------------------------------------------------
  // The participation map
  // ---------------------------------------------------------------------

  type Participation = map<string, seq<Cycle>>

  /** `participation.get(account, [])` */
  function CyclesOf(m: Participation, account: string): seq<Cycle> {
    if account in m then m[account] else []
  }

  /** The inner loop after visiting `members`: each visited account gets `cycle` appended. */
  function Enter(m: Participation, cycle: Cycle, members: seq<string>): Participation
    decreases |members|
  {
    if members == [] then m
    else
      var m' := Enter(m, cycle, members[..|members| - 1]);
      var a := members[|members| - 1];
      m'[a := CyclesOf(m', a) + [cycle]]
  }

  /** The participation map after the outer loop has visited `cycles`. */
  function ParticipationOf(cycles: seq<Cycle>): Participation
    decreases |cycles|
  {
    if cycles == [] then map[]
    else
      var last := cycles[|cycles| - 1];
      Enter(ParticipationOf(cycles[..|cycles| - 1]), last, last)
  }

  method BuildParticipation(cycles: seq<Cycle>) returns (participation: Participation)
    ensures participation == ParticipationOf(cycles)
  {
    participation := map[];
    for i := 0 to |cycles|
      invariant participation == ParticipationOf(cycles[..i])
    {
      var cycle := cycles[i];
      ghost var before := participation;
      for j := 0 to |cycle|
        invariant participation == Enter(before, cycle, cycle[..j])
      {
        var account := cycle[j];
        if account !in participation {
          participation := participation[account := []];
        }
        participation := participation[account := participation[account] + [cycle]];
        assert cycle[..j + 1][..j] == cycle[..j];
      }
      assert cycle[..|cycle|] == cycle;
      assert cycles[..i + 1][..i] == cycles[..i];
    }
    assert cycles[..|cycles|] == cycles;
  }

  /** `k` copies of `c`. */
  function Repeat(c: Cycle, k: nat): (r: seq<Cycle>)
    ensures |r| == k && forall i :: 0 <= i < k ==> r[i] == c
  {
    if k == 0 then [] else Repeat(c, k - 1) + [c]
  }

  /**
   * Reference definition of an account's list: every cycle, in order,
   * once per occurrence of the account in it.
   */
  function Listed(cycles: seq<Cycle>, account: string): seq<Cycle>
    decreases |cycles|
  {
    if cycles == [] then []
    else
      var last := cycles[|cycles| - 1];
      Listed(cycles[..|cycles| - 1], account) + Repeat(last, multiset(last)[account])
  }

  /** The cycles that contain the account, in their original order. */
  function Containing(cycles: seq<Cycle>, account: string): seq<Cycle>
    decreases |cycles|
  {
    if cycles == [] then []
    else
      var last := cycles[|cycles| - 1];
      Containing(cycles[..|cycles| - 1], account) + (if account in last then [last] else [])
  }

  lemma {:induction false} EnterAt(m: Participation, cycle: Cycle, members: seq<string>, a: string)
    ensures a in Enter(m, cycle, members) <==> a in m || a in members
    ensures CyclesOf(Enter(m, cycle, members), a) == CyclesOf(m, a) + Repeat(cycle, multiset(members)[a])
    decreases |members|
  {
    if members != [] {
      var front := members[..|members| - 1];
      var b := members[|members| - 1];
      EnterAt(m, cycle, front, a);
      CountSnoc(members, a);
      var k := multiset(front)[a];
      EnterStep(m, cycle, members, a);
      if b == a {
        assert Repeat(cycle, k + 1) == Repeat(cycle, k) + [cycle];
        assert CyclesOf(m, a) + Repeat(cycle, k) + [cycle] == CyclesOf(m, a) + (Repeat(cycle, k) + [cycle]);
      }
    }
  }

  /** The occurrences of `a` in a non-empty sequence: those in its front, and the last element. */
  lemma {:induction false} CountSnoc(members: seq<string>, a: string)
    requires members != []
    ensures multiset(members)[a]
      == multiset(members[..|members| - 1])[a] + (if members[|members| - 1] == a then 1 else 0)
  {
    assert members == members[..|members| - 1] + [members[|members| - 1]];
  }

  /** Visiting one more member appends the cycle to that member's list only. */
  lemma {:induction false} EnterStep(m: Participation, cycle: Cycle, members: seq<string>, a: string)
    requires members != []
    ensures var front := members[..|members| - 1];
      a in Enter(m, cycle, members) <==> a in Enter(m, cycle, front) || a == members[|members| - 1]
    ensures var front := members[..|members| - 1];
      CyclesOf(Enter(m, cycle, members), a)
        == CyclesOf(Enter(m, cycle, front), a) + (if a == members[|members| - 1] then [cycle] else [])
  {
  }

  /** The participation list of an account is the reference list. */
  lemma {:induction false} ParticipationLists(cycles: seq<Cycle>, a: string)
    ensures a in ParticipationOf(cycles) <==> exists i :: 0 <= i < |cycles| && a in cycles[i]
    ensures CyclesOf(ParticipationOf(cycles), a) == Listed(cycles, a)
    decreases |cycles|
  {
    if cycles != [] {
      var front := cycles[..|cycles| - 1];
      var last := cycles[|cycles| - 1];
      ParticipationLists(front, a);
      EnterAt(ParticipationOf(front), last, last, a);
      if exists i :: 0 <= i < |cycles| && a in cycles[i] {
        var i :| 0 <= i < |cycles| && a in cycles[i];
        if i < |front| {
          assert a in front[i];
        }
      }
      if exists i :: 0 <= i < |front| && a in front[i] {
        var i :| 0 <= i < |front| && a in front[i];
        assert a in cycles[i];
      }
    }
  }

  /**
   * For cycles without repeated nodes (simple cycles, as cycle enumeration
   * yields them) an account's list is the cycles containing it, so its
   * length is the number of such cycles.
   */
  lemma {:induction false} SimpleCyclesListed(cycles: seq<Cycle>, a: string)
    requires forall i :: 0 <= i < |cycles| ==> multiset(cycles[i])[a] <= 1
    ensures Listed(cycles, a) == Containing(cycles, a)
    decreases |cycles|
  {
    if cycles != [] {
      var front := cycles[..|cycles| - 1];
      var last := cycles[|cycles| - 1];
      assert forall i :: 0 <= i < |front| ==> front[i] == cycles[i];
      SimpleCyclesListed(front, a);
      assert multiset(last)[a] <= 1;
      if a in last {
        assert multiset(last)[a] == 1;
        assert Repeat(last, 1) == [last];
      } else {
        assert multiset(last)[a] == 0;
      }
    }
  }

  // ---------------------------------------------------------------------
  // Pattern scores and their weighted average
  // ---------------------------------------------------------------------

  /** `min(num_cycles * 60, 100)`: 1 cycle gives 60, 2 or more give 100. */
  function CycleScore(n: nat): (s: int)
    ensures 0 <= s <= 100 && s <= 60 * n
    ensures n == 0 ==> s == 0
    ensures n == 1 ==> s == 60
    ensures n >= 2 ==> s == 100
  {
    if n * 60 < 100 then n * 60 else 100
  }

  /** `min(num_velocity * 50, 100)`: 1 event gives 50, 2 or more give 100. */
  function VelocityScore(m: nat): (s: int)
    ensures 0 <= s <= 100 && s <= 50 * m
    ensures m == 0 ==> s == 0
    ensures m == 1 ==> s == 50
    ensures m >= 2 ==> s == 100
  {
    if m * 50 < 100 then m * 50 else 100
  }

  /** The keys of `pattern_scores`, with their entries of the `weights` table. */
  datatype PatternName = CycleParticipation | TemporalVelocity

  function Weight(p: PatternName): (w: real)
    ensures 0.0 < w < 1.0
  {
    match p
    case CycleParticipation => 0.6
    case TemporalVelocity => 0.4
  }

  function Name(p: PatternName): string {
    match p
    case CycleParticipation => "cycle_participation"
    case TemporalVelocity => "temporal_velocity"
  }

  /** `pattern_scores` as its items in insertion order. */
  type PatternScores = seq<(PatternName, int)>

  function WeightedSum(ps: PatternScores): real
    decreases |ps|
  {
    if ps == [] then 0.0
    else WeightedSum(ps[..|ps| - 1]) + ps[|ps| - 1].1 as real * Weight(ps[|ps| - 1].0)
  }

  function TotalWeight(ps: PatternScores): real
    decreases |ps|
  {
    if ps == [] then 0.0 else TotalWeight(ps[..|ps| - 1]) + Weight(ps[|ps| - 1].0)
  }

  /** The suspicion score for a `pattern_scores` table, zero when it is empty. */
  function Average(ps: PatternScores): real {
    if ps != [] then
      (if TotalWeight(ps) > 0.0 then WeightedSum(ps) / TotalWeight(ps) else 0.0)
    else 0.0
  }

  method SuspicionScore(ps: PatternScores) returns (score: real)
    ensures score == Average(ps)
  {
    if |ps| > 0 {
      var totalWeight := 0.0;
      var weightedSum := 0.0;
      for i := 0 to |ps|
        invariant totalWeight == TotalWeight(ps[..i])
        invariant weightedSum == WeightedSum(ps[..i])
      {
        var (pattern, s) := ps[i];
        var weight := Weight(pattern);
        weightedSum := weightedSum + s as real * weight;
        totalWeight := totalWeight + weight;
        assert ps[..i + 1][..i] == ps[..i];
      }
      assert ps[..|ps|] == ps;
      score := if totalWeight > 0.0 then weightedSum / totalWeight else 0.0;
    } else {
      score := 0.0;
    }
  }

  /** With every score in [0,100] the weighted sum lies between 0 and 100 times the total weight. */
  lemma {:induction false} WeightedSumBounds(ps: PatternScores)
    requires forall i :: 0 <= i < |ps| ==> 0 <= ps[i].1 <= 100
    ensures 0.0 <= WeightedSum(ps) <= 100.0 * TotalWeight(ps)
    ensures ps != [] ==> TotalWeight(ps) > 0.0
    decreases |ps|
  {
    if ps != [] {
      var front := ps[..|ps| - 1];
      assert forall i :: 0 <= i < |front| ==> front[i] == ps[i];
      WeightedSumBounds(front);
      var (p, s) := ps[|ps| - 1];
      assert 0 <= s <= 100;
      assert 0.0 <= s as real * Weight(p) <= 100.0 * Weight(p);
    }
  }

  /** A weighted average of scores in [0,100] is in [0,100]. */
  lemma {:induction false} AverageBounds(ps: PatternScores)
    requires forall i :: 0 <= i < |ps| ==> 0 <= ps[i].1 <= 100
    ensures 0.0 <= Average(ps) <= 100.0
  {
    WeightedSumBounds(ps);
    if ps != [] {
      var w := TotalWeight(ps);
      var x := WeightedSum(ps);
      assert x / w <= 100.0 by {
        assert x <= 100.0 * w;
      }
    }
  }

  // ---------------------------------------------------------------------
  // One account
  // ---------------------------------------------------------------------

  /** f"{name}:{count}" */
  function Tag(p: PatternName, count: nat): string {
    Name(p) + ":" + Decimal(count)
  }

  /** The record `calculate_scores` appends for `account`. */
  function Record(account: string, participation: Participation, velocity: Velocity): Account {
    var n := |CyclesOf(participation, account)|;
    var m := |Detectors.Lookup(velocity, account)|;
    var scores :=
      (if account in participation then [(CycleParticipation, CycleScore(n))] else [])
      + (if account in velocity then [(TemporalVelocity, VelocityScore(m))] else []);
    var tags :=
      (if account in participation then [Tag(CycleParticipation, n)] else [])
      + (if account in velocity then [Tag(TemporalVelocity, m)] else []);
    Account(account, Average(scores), tags, n, m, None, None)
  }

  method ScoreAccount(account: string, participation: Participation, velocity: Velocity)
    returns (record: Account)
    ensures record == Record(account, participation, velocity)
  {
    var detectedPatterns: seq<string> := [];
    var patternScores: PatternScores := [];
    if account in participation {
      var numCycles := |participation[account]|;
      var cycleScore := if numCycles * 60 < 100 then numCycles * 60 else 100;
      patternScores := patternScores + [(CycleParticipation, cycleScore)];
      detectedPatterns := detectedPatterns + [Tag(CycleParticipation, numCycles)];
    }
    if account in velocity {
      var numVelocity := |velocity[account]|;
      var velocityScore := if numVelocity * 50 < 100 then numVelocity * 50 else 100;
      patternScores := patternScores + [(TemporalVelocity, velocityScore)];
      detectedPatterns := detectedPatterns + [Tag(TemporalVelocity, numVelocity)];
    }
    assert patternScores ==
      (if account in participation then [(CycleParticipation, CycleScore(|CyclesOf(participation, account)|))] else [])
      + (if account in velocity then [(TemporalVelocity, VelocityScore(|Detectors.Lookup(velocity, account)|))] else []);
    assert detectedPatterns ==
      (if account in participation then [Tag(CycleParticipation, |CyclesOf(participation, account)|)] else [])
      + (if account in velocity then [Tag(TemporalVelocity, |Detectors.Lookup(velocity, account)|)] else []);
    var suspicionScore := SuspicionScore(patternScores);
    record := Account(account, suspicionScore, detectedPatterns,
                      |CyclesOf(participation, account)|, |Detectors.Lookup(velocity, account)|,
                      None, None);
  }

  /** One record per graph node, in node iteration order. */
  method CalculateScores(nodes: seq<string>, patterns: Detectors.Patterns) returns (accounts: seq<Account>)
    ensures |accounts| == |nodes|
    ensures forall i :: 0 <= i < |nodes| ==>
      accounts[i] == Record(nodes[i], ParticipationOf(patterns.cycles), patterns.velocity)
  {
    accounts := [];
    var cycles := patterns.cycles;
    var velocity := patterns.velocity;
    var participation := BuildParticipation(cycles);
    for i := 0 to |nodes|
      invariant |accounts| == i
      invariant forall k :: 0 <= k < i ==> accounts[k] == Record(nodes[k], participation, velocity)
    {
      var record := ScoreAccount(nodes[i], participation, velocity);
      accounts := accounts + [record];
    }
  }

  // ---------------------------------------------------------------------
  // Properties of a record
  // ---------------------------------------------------------------------

  /** The record names the account, counts its cycles and events, and carries no ring keys yet. */
  lemma {:induction false} RecordCounts(account: string, cycles: seq<Cycle>, velocity: Velocity)
    ensures Record(account, ParticipationOf(cycles), velocity).accountId == account
    ensures Record(account, ParticipationOf(cycles), velocity).cycleCount == |Listed(cycles, account)|
    ensures Record(account, ParticipationOf(cycles), velocity).velocityCount
      == |Detectors.Lookup(velocity, account)|
    ensures Record(account, ParticipationOf(cycles), velocity).ringId.None?
    ensures Record(account, ParticipationOf(cycles), velocity).tempRisk.None?
  {
    ParticipationLists(cycles, account);
  }

  /** The suspicion score is always in [0,100]. */
  lemma {:induction false} ScoreInRange(account: string, participation: Participation, velocity: Velocity)
    ensures 0.0 <= Record(account, participation, velocity).suspicionScore <= 100.0
  {
    var n := |CyclesOf(participation, account)|;
    var m := |Detectors.Lookup(velocity, account)|;
    var scores :=
      (if account in participation then [(CycleParticipation, CycleScore(n))] else [])
      + (if account in velocity then [(TemporalVelocity, VelocityScore(m))] else []);
    AverageBounds(scores);
  }

  /** No tags exactly when the account is in no cycle and has no velocity key; then the score is 0. */
  lemma {:induction false} NoPatterns(account: string, participation: Participation, velocity: Velocity)
    ensures Record(account, participation, velocity).detectedPatterns == []
      <==> account !in participation && account !in velocity
    ensures Record(account, participation, velocity).detectedPatterns == []
      ==> Record(account, participation, velocity).suspicionScore == 0.0
  {
  }

  lemma {:induction false} SingleAverage(ps: PatternScores)
    requires |ps| == 1
    ensures Average(ps) == ps[0].1 as real
  {
    assert ps[..0] == [];
    var w := Weight(ps[0].0);
    assert TotalWeight(ps) == w;
    assert WeightedSum(ps) == ps[0].1 as real * w;
  }

  /** With only one pattern present the score is that pattern's score. */
  lemma {:induction false} OnlyOnePattern(account: string, participation: Participation, velocity: Velocity)
    ensures account in participation && account !in velocity ==>
      Record(account, participation, velocity).suspicionScore
        == CycleScore(Record(account, participation, velocity).cycleCount) as real
    ensures account !in participation && account in velocity ==>
      Record(account, participation, velocity).suspicionScore
        == VelocityScore(Record(account, participation, velocity).velocityCount) as real
  {
    var r := Record(account, participation, velocity);
    if account in participation && account !in velocity {
      var ps := [(CycleParticipation, CycleScore(r.cycleCount))];
      SingleAverage(ps);
    }
    if account !in participation && account in velocity {
      var ps := [(TemporalVelocity, VelocityScore(r.velocityCount))];
      SingleAverage(ps);
    }
  }

  /** With both patterns present the score is 0.6 c + 0.4 v. */
  lemma {:induction false} BothPatterns(account: string, participation: Participation, velocity: Velocity)
    requires account in participation && account in velocity
    ensures Record(account, participation, velocity).suspicionScore
      == 0.6 * CycleScore(Record(account, participation, velocity).cycleCount) as real
       + 0.4 * VelocityScore(Record(account, participation, velocity).velocityCount) as real
  {
    var r := Record(account, participation, velocity);
    var c := CycleScore(r.cycleCount);
    var v := VelocityScore(r.velocityCount);
    var ps := [(CycleParticipation, c), (TemporalVelocity, v)];
    var first := [(CycleParticipation, c)];
    assert ps[..1] == first;
    assert first[..0] == [];
    assert TotalWeight(first) == 0.6;
    assert WeightedSum(first) == c as real * 0.6;
    assert TotalWeight(ps) == 1.0;
    assert WeightedSum(ps) == c as real * 0.6 + v as real * 0.4;
  }

  /**
   * The tags list cycle participation before temporal velocity, and each
   * tag splits at ':' into the pattern name and the decimal count stored
   * in the record.
   */
  lemma {:induction false} TagsDecode(account: string, participation: Participation, velocity: Velocity)
    ensures var r := Record(account, participation, velocity);
      |r.detectedPatterns| == (if account in participation then 1 else 0) + (if account in velocity then 1 else 0)
    ensures var r := Record(account, participation, velocity);
      account in participation ==>
        Split(r.detectedPatterns[0], ':') == ["cycle_participation", Decimal(r.cycleCount)]
        && DecimalValue(Decimal(r.cycleCount)) == r.cycleCount
    ensures var r := Record(account, participation, velocity);
      account in velocity ==>
        Split(r.detectedPatterns[|r.detectedPatterns| - 1], ':') == ["temporal_velocity", Decimal(r.velocityCount)]
        && DecimalValue(Decimal(r.velocityCount)) == r.velocityCount
  {
    var r := Record(account, participation, velocity);
    TagSplits(CycleParticipation, r.cycleCount);
    TagSplits(TemporalVelocity, r.velocityCount);
  }

  lemma {:induction false} TagSplits(p: PatternName, count: nat)
    ensures Split(Tag(p, count), ':') == [Name(p), Decimal(count)]
    ensures DecimalValue(Decimal(count)) == count
  {
    var d := Decimal(count);
    assert ':' !in Name(p);
    assert forall i :: 0 <= i < |d| ==> IsDigit(d[i]);
    assert ':' !in d;
    SplitAfterFirst(Name(p), ':', d);
    SplitNoSeparator(d, ':');
    DecimalRoundTrip(count);
  }
}
