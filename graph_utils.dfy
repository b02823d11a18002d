/**
 * The graph-edge helpers of the web front end (lib/graphUtils.ts).
 *
 * `loadTransactionEdges` trims the CSV text, splits it into lines, skips
 * the header line and turns every line with at least four comma-separated
 * fields into an edge.  The fetch is the parameter `response` (None when
 * it fails, which the source answers with an empty list) and JavaScript's
 * `parseFloat` is the parameter `parseFloat` (None for NaN).
 *
 * `generateGraphEdges` links the members of every cycle ring into a
 * closed loop and chains up to six accounts that have no ring.  Only the
 * structure of those edges (source and target) is modelled; their
 * amounts and timestamps come from `Math.random` and the clock.
 */
module GraphUtils {
  import opened Common

  // ---------------------------------------------------------------------
  // loadTransactionEdges
  // ---------------------------------------------------------------------

  datatype GraphEdge = GraphEdge(
    source: string,
    target: string,
    totalAmount: real,
    earliestTimestamp: string,
    latestTimestamp: string)

  /** JavaScript's `parseFloat`: None stands for NaN. */
  type ParseFloat = string -> Option<real>

  /** `parseFloat(field) || 0`: NaN (and zero) become 0. */
  function Amount(field: string, parseFloat: ParseFloat): real {
    parseFloat(field).GetOr(0.0)
  }

  /** The edge of one data line, from its comma-separated fields; None below four fields. */
  function LineEdge(line: string, parseFloat: ParseFloat): Option<GraphEdge> {
    var values := Split(line, ',');
    if |values| >= 4 then
      Some(GraphEdge(Trim(values[0]), Trim(values[1]), Amount(values[2], parseFloat),
                     Trim(values[3]), Trim(values[3])))
    else None
  }

  /** The edges of `lines[1..]`, in line order: the header `lines[0]` is skipped. */
  function EdgesOf(lines: seq<string>, parseFloat: ParseFloat): seq<GraphEdge>
    decreases |lines|
  {
    if |lines| <= 1 then []
    else
      var e := LineEdge(lines[|lines| - 1], parseFloat);
      EdgesOf(lines[..|lines| - 1], parseFloat) + (if e.Some? then [e.value] else [])
  }

  /** `csvText.trim().split('\n')` */
  function Lines(csvText: string): seq<string> {
    Split(Trim(csvText), '\n')
  }

  method LoadTransactionEdges(response: Option<string>, parseFloat: ParseFloat)
    returns (edges: seq<GraphEdge>)
    ensures response.None? ==> edges == []
    ensures response.Some? ==> edges == EdgesOf(Lines(response.value), parseFloat)
  {
    if response.None? {
      return [];
    }
    var lines := Split(Trim(response.value), '\n');
    edges := [];
    for i := 1 to |lines|
      invariant edges == EdgesOf(lines[..i], parseFloat)
    {
      var values := Split(lines[i], ',');
      if |values| >= 4 {
        edges := edges + [GraphEdge(Trim(values[0]), Trim(values[1]), Amount(values[2], parseFloat),
                                    Trim(values[3]), Trim(values[3]))];
      }
      assert lines[..i + 1][..i] == lines[..i];
      assert lines[..i + 1][i] == lines[i];
    }
    assert lines[..|lines|] == lines;
  }

  /** A line with at least four comma-separated fields. */
  predicate IsDataLine(line: string) {
    |Split(line, ',')| >= 4
  }

  /** Positions of the data lines past the header. */
  function DataLines(lines: seq<string>): set<int> {
    set i | 1 <= i < |lines| && IsDataLine(lines[i])
  }

  /** One edge per data line past the header. */
  lemma {:induction false} EdgeCount(lines: seq<string>, parseFloat: ParseFloat)
    ensures |EdgesOf(lines, parseFloat)| == |DataLines(lines)|
    decreases |lines|
  {
    var n := |lines|;
    if n > 1 {
      EdgeCount(lines[..n - 1], parseFloat);
      DataLinesStep(lines);
      assert |EdgesOf(lines, parseFloat)|
        == |EdgesOf(lines[..n - 1], parseFloat)| + (if IsDataLine(lines[n - 1]) then 1 else 0);
    } else {
      assert DataLines(lines) == {};
    }
  }

  /** The data lines of `lines` are those of its front, plus the last line when it is one. */
  lemma {:induction false} DataLinesStep(lines: seq<string>)
    requires |lines| > 1
    ensures |DataLines(lines)|
      == |DataLines(lines[..|lines| - 1])| + (if IsDataLine(lines[|lines| - 1]) then 1 else 0)
  {
    var n := |lines|;
    var front := lines[..n - 1];
    var before := DataLines(front);
    assert forall i :: 0 <= i < n - 1 ==> front[i] == lines[i];
    assert n - 1 !in before;
    if IsDataLine(lines[n - 1]) {
      assert DataLines(lines) == before + {n - 1};
    } else {
      assert DataLines(lines) == before;
    }
  }

  /** Never more edges than lines after the header. */
  lemma {:induction false} EdgeCountBounded(lines: seq<string>, parseFloat: ParseFloat)
    requires |lines| >= 1
    ensures |EdgesOf(lines, parseFloat)| <= |lines| - 1
    decreases |lines|
  {
    if |lines| > 1 {
      EdgeCountBounded(lines[..|lines| - 1], parseFloat);
    }
  }

  /** An edge is produced exactly from a data line after the header. */
  lemma {:induction false} EdgeFromLine(lines: seq<string>, parseFloat: ParseFloat, e: GraphEdge)
    ensures e in EdgesOf(lines, parseFloat)
      <==> exists i :: 1 <= i < |lines| && LineEdge(lines[i], parseFloat) == Some(e)
    decreases |lines|
  {
    if |lines| > 1 {
      var n := |lines|;
      var front := lines[..n - 1];
      EdgeFromLine(front, parseFloat, e);
      assert forall i :: 0 <= i < n - 1 ==> front[i] == lines[i];
    }
  }

  /** The header line never matters: any first line gives the same edges. */
  lemma {:induction false} HeaderIgnored(lines: seq<string>, header: string, parseFloat: ParseFloat)
    requires |lines| >= 1
    ensures EdgesOf([header] + lines[1..], parseFloat) == EdgesOf(lines, parseFloat)
    decreases |lines|
  {
    if |lines| > 1 {
      var n := |lines|;
      HeaderIgnored(lines[..n - 1], header, parseFloat);
      assert ([header] + lines[1..])[..n - 1] == [header] + lines[..n - 1][1..];
    } else {
      assert [header] + lines[1..] == [header];
    }
  }

  /**
   * The edge of a line copies trimmed fields 0, 1 and 3, the last one as
   * both timestamps; fields after the fourth are ignored.
   */
  lemma {:induction false} LineEdgeFields(line: string, extra: string, parseFloat: ParseFloat)
    requires |Split(line, ',')| >= 4
    ensures var values := Split(line, ',');
      LineEdge(line, parseFloat).Some?
      && LineEdge(line, parseFloat).value.source == Trim(values[0])
      && LineEdge(line, parseFloat).value.target == Trim(values[1])
      && LineEdge(line, parseFloat).value.earliestTimestamp == Trim(values[3])
      && LineEdge(line, parseFloat).value.latestTimestamp == Trim(values[3])
    ensures LineEdge(line + [','] + extra, parseFloat) == LineEdge(line, parseFloat)
  {
    SplitConcat(line, ',', extra);
    var values := Split(line, ',');
    var all := Split(line + [','] + extra, ',');
    assert all[..|values|] == values;
  }

  /** A line with fewer than four fields, such as an empty line, gives no edge. */
  lemma {:induction false} ShortLineSkipped(line: string, parseFloat: ParseFloat)
    requires multiset(line)[','] < 3
    ensures LineEdge(line, parseFloat) == None
  {
    SplitCount(line, ',');
  }

  // ---------------------------------------------------------------------
  // generateGraphEdges
  // ---------------------------------------------------------------------

  /** The fields of an analysis result the generator reads; `ringId` None is JSON null. */
  datatype Account = Account(accountId: string, ringId: Option<string>)
  datatype Ring = Ring(memberAccounts: seq<string>, patternType: string)

  /** The structure of a generated edge. */
  datatype Link = Link(source: string, target: string)

  /** Member i links to member i+1, the last back to the first. */
  function CycleLinks(members: seq<string>): (links: seq<Link>)
    ensures |links| == |members|
  {
    seq(|members|, i requires 0 <= i < |members| => Link(members[i], members[(i + 1) % |members|]))
  }

  function RingLinks(ring: Ring): seq<Link> {
    if ring.patternType == "cycle" then CycleLinks(ring.memberAccounts) else []
  }

  function AllRingLinks(rings: seq<Ring>): seq<Link>
    decreases |rings|
  {
    if rings == [] then []
    else AllRingLinks(rings[..|rings| - 1]) + RingLinks(rings[|rings| - 1])
  }

  /** `!acc.ring_id`: null or the empty string. */
  predicate NoRing(a: Account) {
    a.ringId.None? || a.ringId.value == ""
  }

  function NonRingAccounts(accounts: seq<Account>): seq<Account>
    decreases |accounts|
  {
    if accounts == [] then []
    else
      NonRingAccounts(accounts[..|accounts| - 1])
      + (if NoRing(accounts[|accounts| - 1]) then [accounts[|accounts| - 1]] else [])
  }

  /** `Math.min(k - 1, 5)` iterations, none when it is negative. */
  function ChainLength(k: nat): nat {
    if k == 0 then 0 else if k - 1 < 5 then k - 1 else 5
  }

  function ChainLinks(nonRing: seq<Account>): seq<Link> {
    seq(ChainLength(|nonRing|), i requires 0 <= i < ChainLength(|nonRing|) =>
      Link(nonRing[i].accountId, nonRing[i + 1].accountId))
  }

  /** The inner loop over one cycle ring's members. */
  method PushCycleLinks(links: seq<Link>, members: seq<string>) returns (result: seq<Link>)
    ensures result == links + CycleLinks(members)
  {
    result := links;
    for i := 0 to |members|
      invariant result == links + CycleLinks(members)[..i]
    {
      var source := members[i];
      var target := members[(i + 1) % |members|];
      result := result + [Link(source, target)];
      assert CycleLinks(members)[..i + 1] == CycleLinks(members)[..i] + [Link(source, target)];
    }
    assert CycleLinks(members)[..|members|] == CycleLinks(members);
  }

  /** The `forEach` over the rings. */
  method PushRingLinks(rings: seq<Ring>) returns (links: seq<Link>)
    ensures links == AllRingLinks(rings)
  {
    links := [];
    for r := 0 to |rings|
      invariant links == AllRingLinks(rings[..r])
    {
      var ring := rings[r];
      if ring.patternType == "cycle" {
        links := PushCycleLinks(links, ring.memberAccounts);
      }
      assert rings[..r + 1][..r] == rings[..r];
    }
    assert rings[..|rings|] == rings;
  }

  /** `suspicious_accounts.filter(acc => !acc.ring_id)` */
  method FilterNonRing(accounts: seq<Account>) returns (nonRing: seq<Account>)
    ensures nonRing == NonRingAccounts(accounts)
  {
    nonRing := [];
    for k := 0 to |accounts|
      invariant nonRing == NonRingAccounts(accounts[..k])
    {
      if accounts[k].ringId.None? || accounts[k].ringId.value == "" {
        nonRing := nonRing + [accounts[k]];
      }
      assert accounts[..k + 1][..k] == accounts[..k];
    }
    assert accounts[..|accounts|] == accounts;
  }

  /** The loop over the first accounts without a ring. */
  method PushChainLinks(links: seq<Link>, nonRing: seq<Account>) returns (result: seq<Link>)
    ensures result == links + ChainLinks(nonRing)
  {
    result := links;
    var bound := if |nonRing| - 1 < 5 then |nonRing| - 1 else 5;
    var i := 0;
    while i < bound
      invariant 0 <= i <= ChainLength(|nonRing|)
      invariant bound >= 0 ==> i <= bound
      invariant result == links + ChainLinks(nonRing)[..i]
    {
      var source := nonRing[i].accountId;
      var target := nonRing[i + 1].accountId;
      result := result + [Link(source, target)];
      assert ChainLinks(nonRing)[..i + 1] == ChainLinks(nonRing)[..i] + [Link(source, target)];
      i := i + 1;
    }
    assert i == ChainLength(|nonRing|);
    assert ChainLinks(nonRing)[..i] == ChainLinks(nonRing);
  }

  method GenerateGraphEdges(rings: seq<Ring>, accounts: seq<Account>) returns (links: seq<Link>)
    ensures links == AllRingLinks(rings) + ChainLinks(NonRingAccounts(accounts))
  {
    links := PushRingLinks(rings);
    var nonRing := FilterNonRing(accounts);
    links := PushChainLinks(links, nonRing);
  }

  /**
   * Reference view of a cycle ring's edges: the sources are the members in
   * order and the targets are the members rotated by one.
   */
  lemma {:induction false} CycleLinksRotate(members: seq<string>)
    requires members != []
    ensures forall i :: 0 <= i < |members| ==> CycleLinks(members)[i].source == members[i]
    ensures forall i :: 0 <= i < |members| ==>
      CycleLinks(members)[i].target == (members[1..] + [members[0]])[i]
  {
    forall i | 0 <= i < |members|
      ensures CycleLinks(members)[i].target == (members[1..] + [members[0]])[i]
    {
      CycleTarget(members, i);
    }
  }

  /** The link out of position i goes to the next position, and from the last back to the first. */
  lemma {:induction false} CycleTarget(members: seq<string>, i: nat)
    requires i < |members|
    ensures CycleLinks(members)[i].target == (members[1..] + [members[0]])[i]
  {
    var n := |members|;
    if i < n - 1 {
      assert (i + 1) % n == i + 1;
      assert (members[1..] + [members[0]])[i] == members[i + 1];
    } else {
      assert (i + 1) % n == 0;
      assert (members[1..] + [members[0]])[i] == members[0];
    }
  }

  /** Only cycle rings contribute, each exactly as many edges as it has members. */
  lemma {:induction false} RingLinkCount(rings: seq<Ring>)
    ensures |AllRingLinks(rings)| == CycleMemberCount(rings)
    decreases |rings|
  {
    if rings != [] {
      RingLinkCount(rings[..|rings| - 1]);
    }
  }

  function CycleMemberCount(rings: seq<Ring>): nat
    decreases |rings|
  {
    if rings == [] then 0
    else
      CycleMemberCount(rings[..|rings| - 1])
      + (if rings[|rings| - 1].patternType == "cycle" then |rings[|rings| - 1].memberAccounts| else 0)
  }

  /** An edge comes from a ring exactly when that ring is a cycle ring whose edges include it. */
  lemma {:induction false} RingLinkFrom(rings: seq<Ring>, l: Link)
    ensures l in AllRingLinks(rings) <==>
      exists r :: 0 <= r < |rings| && rings[r].patternType == "cycle" && l in CycleLinks(rings[r].memberAccounts)
    decreases |rings|
  {
    if rings != [] {
      var n := |rings|;
      var front := rings[..n - 1];
      RingLinkFrom(front, l);
      assert AllRingLinks(rings) == AllRingLinks(front) + RingLinks(rings[n - 1]);
      if l in AllRingLinks(front) {
        var r :| 0 <= r < n - 1 && front[r].patternType == "cycle" && l in CycleLinks(front[r].memberAccounts);
        assert front[r] == rings[r];
      }
      if exists r :: 0 <= r < n && rings[r].patternType == "cycle" && l in CycleLinks(rings[r].memberAccounts) {
        var r :| 0 <= r < n && rings[r].patternType == "cycle" && l in CycleLinks(rings[r].memberAccounts);
        if r < n - 1 {
          assert front[r] == rings[r];
        }
      }
    }
  }

  /** The chain has max(0, min(k-1, 5)) edges for k ring-less accounts, each linking neighbours. */
  lemma {:induction false} ChainShape(nonRing: seq<Account>)
    ensures |ChainLinks(nonRing)| == (if |nonRing| == 0 then 0 else if |nonRing| - 1 < 5 then |nonRing| - 1 else 5)
    ensures |ChainLinks(nonRing)| <= 5
    ensures forall i :: 0 <= i < |ChainLinks(nonRing)| ==>
      ChainLinks(nonRing)[i].source == nonRing[i].accountId
      && ChainLinks(nonRing)[i].target == nonRing[i + 1].accountId
  {
  }

  /** The chain runs over exactly the accounts without a ring, in their order. */
  lemma {:induction false} NonRingAccountsIff(accounts: seq<Account>, a: Account)
    ensures a in NonRingAccounts(accounts) <==> a in accounts && NoRing(a)
    decreases |accounts|
  {
    if accounts != [] {
      NonRingAccountsIff(accounts[..|accounts| - 1], a);
      assert accounts == accounts[..|accounts| - 1] + [accounts[|accounts| - 1]];
    }
  }
}
