/**
 * The two detectors of the engine and the record that bundles their results.
 *
 * `detect_cycles` keeps the enumerated simple cycles of length at least 3;
 * the enumeration itself (networkx's `simple_cycles`) is an input, and an
 * enumeration that raised is `None`.
 *
 * `detect_temporal_velocity` gathers, for every node, the transfers on its
 * incoming and outgoing edges, and pairs every incoming transfer with every
 * outgoing one that leaves no earlier than it arrived and at most 72 hours
 * later. The networkx graph is abstracted to its node order, its predecessor
 * and successor lists and the per-edge transaction lists.
 */
module Detectors {
  import opened Common

  type Cycle = seq<string>

  // -----------------------------------------------------------------------
  // detect_cycles
  // -----------------------------------------------------------------------

  /** The list comprehension `[cycle for cycle in cycles if len(cycle) >= 3]`. */
  function LongCycles(cycles: seq<Cycle>): seq<Cycle> {
    if cycles == [] then []
    else
      LongCycles(cycles[..|cycles| - 1])
      + (if |cycles[|cycles| - 1]| >= 3 then [cycles[|cycles| - 1]] else [])
  }

  /** detect_cycles: the filtered enumeration, or [] when the enumeration raised. */
  function DetectCycles(enumerated: Option<seq<Cycle>>): (r: seq<Cycle>)
    ensures enumerated.None? ==> r == []
    ensures enumerated.Some? ==> r == LongCycles(enumerated.value)
  {
    match enumerated
    case None => []
    case Some(cycles) => LongCycles(cycles)
  }

  /** Exactly the input cycles of length at least 3 are kept. */
  lemma {:induction false} LongCyclesMembers(cycles: seq<Cycle>, c: Cycle)
    ensures c in LongCycles(cycles) <==> c in cycles && |c| >= 3
  {
    if cycles != [] {
      var front := cycles[..|cycles| - 1];
      LongCyclesMembers(front, c);
      assert cycles == front + [cycles[|cycles| - 1]];
    }
  }

  /** The filter keeps the input order: it distributes over concatenation. */
  lemma {:induction false} LongCyclesAppend(a: seq<Cycle>, b: seq<Cycle>)
    ensures LongCycles(a + b) == LongCycles(a) + LongCycles(b)
  {
    if b == [] {
      assert a + b == a;
    } else {
      var bf := b[..|b| - 1];
      assert (a + b)[..|a + b| - 1] == a + bf;
      LongCyclesAppend(a, bf);
    }
  }

  /** Nothing is dropped when every cycle is long enough, and the result never grows. */
  lemma {:induction false} LongCyclesBounds(cycles: seq<Cycle>)
    ensures |LongCycles(cycles)| <= |cycles|
    ensures (forall i :: 0 <= i < |cycles| ==> |cycles[i]| >= 3) ==> LongCycles(cycles) == cycles
  {
    if cycles != [] {
      LongCyclesBounds(cycles[..|cycles| - 1]);
    }
  }

  /** Filtering twice is filtering once. */
  lemma {:induction false} LongCyclesIdempotent(cycles: seq<Cycle>)
    ensures LongCycles(LongCycles(cycles)) == LongCycles(cycles)
  {
    var r := LongCycles(cycles);
    forall i | 0 <= i < |r| ensures |r[i]| >= 3 {
      LongCyclesMembers(cycles, r[i]);
    }
    LongCyclesBounds(r);
  }

  // -----------------------------------------------------------------------
  // detect_temporal_velocity
  // -----------------------------------------------------------------------

  /** One transaction on an edge: amount and time in whole seconds. */
  datatype Txn = Txn(amount: real, timestamp: int)

  /** The `incoming`/`outgoing` entries: counterparty (`from` or `to`), amount and time. */
  datatype Transfer = Transfer(counterparty: string, amount: real, timestamp: int)

  /**
   * One recorded pass-through. `elapsed` is the gap in seconds; the source
   * stores it as hours rounded to two decimals and the two times as ISO text.
   */
  datatype VelocityEvent = VelocityEvent(
    fromAccount: string,
    toAccount: string,
    inAmount: real,
    outAmount: real,
    elapsed: int,
    inTimestamp: int,
    outTimestamp: int)

  datatype TransferGraph = TransferGraph(
    nodes: seq<string>,
    predecessors: map<string, seq<string>>,
    successors: map<string, seq<string>>,
    transactions: map<(string, string), seq<Txn>>)

  /**
   * What the detector relies on: distinct nodes, adjacency lists for every
   * node, and a `transactions` list on every edge it visits.
   */
  ghost predicate Valid(g: TransferGraph) {
    && (forall i, j :: 0 <= i < j < |g.nodes| ==> g.nodes[i] != g.nodes[j])
    && (forall a :: a in g.nodes ==> a in g.predecessors && a in g.successors)
    && (forall a, p :: a in g.predecessors && p in g.predecessors[a] ==> (p, a) in g.transactions)
    && (forall a, s :: a in g.successors && s in g.successors[a] ==> (a, s) in g.transactions)
  }

  const WindowSeconds := 72 * 3600

  function Abs(x: int): nat {
    if x < 0 then -x else x
  }

  /** `hours_diff <= 72 and out_txn['timestamp'] >= in_txn['timestamp']`, in seconds. */
  predicate Qualifies(inT: Transfer, outT: Transfer) {
    Abs(outT.timestamp - inT.timestamp) <= WindowSeconds && outT.timestamp >= inT.timestamp
  }

  function MakeEvent(inT: Transfer, outT: Transfer): VelocityEvent {
    VelocityEvent(inT.counterparty, outT.counterparty, inT.amount, outT.amount,
                  outT.timestamp - inT.timestamp, inT.timestamp, outT.timestamp)
  }

  /** The transactions of one edge as transfers with the given counterparty. */
  function Transfers(counterparty: string, txns: seq<Txn>): (r: seq<Transfer>)
    ensures |r| == |txns|
    ensures forall k :: 0 <= k < |txns| ==> r[k] == Transfer(counterparty, txns[k].amount, txns[k].timestamp)
  {
    seq(|txns|, k requires 0 <= k < |txns| => Transfer(counterparty, txns[k].amount, txns[k].timestamp))
  }

  /** The `incoming` list: predecessors in order, each edge's transactions in order. */
  function IncomingFrom(g: TransferGraph, account: string, preds: seq<string>): seq<Transfer>
    requires forall p :: p in preds ==> (p, account) in g.transactions
  {
    if preds == [] then []
    else
      var p := preds[|preds| - 1];
      IncomingFrom(g, account, preds[..|preds| - 1]) + Transfers(p, g.transactions[(p, account)])
  }

  /** The `outgoing` list: successors in order, each edge's transactions in order. */
  function OutgoingTo(g: TransferGraph, account: string, succs: seq<string>): seq<Transfer>
    requires forall s :: s in succs ==> (account, s) in g.transactions
  {
    if succs == [] then []
    else
      var s := succs[|succs| - 1];
      OutgoingTo(g, account, succs[..|succs| - 1]) + Transfers(s, g.transactions[(account, s)])
  }

  function Incoming(g: TransferGraph, account: string): seq<Transfer>
    requires Valid(g) && account in g.nodes
  {
    IncomingFrom(g, account, g.predecessors[account])
  }

  function Outgoing(g: TransferGraph, account: string): seq<Transfer>
    requires Valid(g) && account in g.nodes
  {
    OutgoingTo(g, account, g.successors[account])
  }

  /** Every (incoming, outgoing) pair, incoming-major: the order of the nested loops. */
  function Row(inT: Transfer, outs: seq<Transfer>): (r: seq<(Transfer, Transfer)>)
    ensures |r| == |outs| && forall j :: 0 <= j < |outs| ==> r[j] == (inT, outs[j])
  {
    seq(|outs|, j requires 0 <= j < |outs| => (inT, outs[j]))
  }

  function Product(ins: seq<Transfer>, outs: seq<Transfer>): seq<(Transfer, Transfer)> {
    if ins == [] then [] else Product(ins[..|ins| - 1], outs) + Row(ins[|ins| - 1], outs)
  }

  function QualifyingPairs(ps: seq<(Transfer, Transfer)>): seq<(Transfer, Transfer)> {
    if ps == [] then []
    else
      QualifyingPairs(ps[..|ps| - 1])
      + (if Qualifies(ps[|ps| - 1].0, ps[|ps| - 1].1) then [ps[|ps| - 1]] else [])
  }

  function ToEvents(ps: seq<(Transfer, Transfer)>): (r: seq<VelocityEvent>)
    ensures |r| == |ps| && forall k :: 0 <= k < |ps| ==> r[k] == MakeEvent(ps[k].0, ps[k].1)
  {
    seq(|ps|, k requires 0 <= k < |ps| => MakeEvent(ps[k].0, ps[k].1))
  }

  /** The events the nested loops record for one account, in the order they are appended. */
  function PassThrough(ins: seq<Transfer>, outs: seq<Transfer>): seq<VelocityEvent> {
    ToEvents(QualifyingPairs(Product(ins, outs)))
  }

  /** The events recorded for one node of the graph. */
  function EventsOf(g: TransferGraph, account: string): seq<VelocityEvent>
    requires Valid(g) && account in g.nodes
  {
    PassThrough(Incoming(g, account), Outgoing(g, account))
  }

  lemma {:induction false} QualifyingPairsAppend(a: seq<(Transfer, Transfer)>, b: seq<(Transfer, Transfer)>)
    ensures QualifyingPairs(a + b) == QualifyingPairs(a) + QualifyingPairs(b)
    decreases |b|
  {
    if b != [] {
      assert (a + b)[..|a + b| - 1] == a + b[..|b| - 1];
      QualifyingPairsAppend(a, b[..|b| - 1]);
    } else {
      assert a + b == a;
    }
  }

  lemma {:induction false} ToEventsAppend(a: seq<(Transfer, Transfer)>, b: seq<(Transfer, Transfer)>)
    ensures ToEvents(a + b) == ToEvents(a) + ToEvents(b)
  {
  }

  lemma {:induction false} RowStep(inT: Transfer, outs: seq<Transfer>, j: nat)
    requires j < |outs|
    ensures Row(inT, outs[..j + 1]) == Row(inT, outs[..j]) + [(inT, outs[j])]
  {
  }

  // --- properties of the pairing ---------------------------------------------

  /** The product lists each (incoming, outgoing) pair once, incoming-major. */
  lemma {:induction false} ProductAt(ins: seq<Transfer>, outs: seq<Transfer>, i: nat, j: nat)
    requires i < |ins| && j < |outs|
    ensures |Product(ins, outs)| == |ins| * |outs|
    ensures i * |outs| + j < |Product(ins, outs)|
    ensures Product(ins, outs)[i * |outs| + j] == (ins[i], outs[j])
  {
    var front := ins[..|ins| - 1];
    var m := |outs|;
    ProductLength(ins, outs);
    ProductLength(front, outs);
    if i < |front| {
      ProductAt(front, outs, i, j);
      assert front[i] == ins[i];
    } else {
      assert i == |ins| - 1;
      assert i * m == (|ins| - 1) * m;
    }
  }

  lemma {:induction false} ProductLength(ins: seq<Transfer>, outs: seq<Transfer>)
    ensures |Product(ins, outs)| == |ins| * |outs|
  {
    if ins != [] {
      ProductLength(ins[..|ins| - 1], outs);
      assert (|ins| - 1) * |outs| + |outs| == |ins| * |outs|;
    }
  }

  lemma {:induction false} ProductMembers(ins: seq<Transfer>, outs: seq<Transfer>, p: (Transfer, Transfer))
    ensures p in Product(ins, outs) <==> p.0 in ins && p.1 in outs
  {
    if ins != [] {
      var front := ins[..|ins| - 1];
      ProductMembers(front, outs, p);
      assert ins == front + [ins[|ins| - 1]];
    }
  }

  lemma {:induction false} QualifyingPairsMembers(ps: seq<(Transfer, Transfer)>, p: (Transfer, Transfer))
    ensures p in QualifyingPairs(ps) <==> p in ps && Qualifies(p.0, p.1)
  {
    if ps != [] {
      var front := ps[..|ps| - 1];
      QualifyingPairsMembers(front, p);
      assert ps == front + [ps[|ps| - 1]];
    }
  }

  /**
   * An event is recorded exactly for a pair of an incoming and an outgoing
   * transfer where the outgoing one is no earlier and at most 72 hours later;
   * it names the predecessor and the successor and copies both amounts.
   */
  lemma {:induction false} PassThroughIff(ins: seq<Transfer>, outs: seq<Transfer>, e: VelocityEvent)
    ensures e in PassThrough(ins, outs)
        <==> exists i, j :: 0 <= i < |ins| && 0 <= j < |outs|
               && 0 <= outs[j].timestamp - ins[i].timestamp <= WindowSeconds
               && e == VelocityEvent(ins[i].counterparty, outs[j].counterparty, ins[i].amount,
                                     outs[j].amount, outs[j].timestamp - ins[i].timestamp,
                                     ins[i].timestamp, outs[j].timestamp)
  {
    if e in PassThrough(ins, outs) {
      var i, j := PassThroughSound(ins, outs, e);
    }
    if exists i, j :: 0 <= i < |ins| && 0 <= j < |outs|
         && 0 <= outs[j].timestamp - ins[i].timestamp <= WindowSeconds
         && e == VelocityEvent(ins[i].counterparty, outs[j].counterparty, ins[i].amount,
                               outs[j].amount, outs[j].timestamp - ins[i].timestamp,
                               ins[i].timestamp, outs[j].timestamp) {
      var i, j :| 0 <= i < |ins| && 0 <= j < |outs|
         && 0 <= outs[j].timestamp - ins[i].timestamp <= WindowSeconds
         && e == VelocityEvent(ins[i].counterparty, outs[j].counterparty, ins[i].amount,
                               outs[j].amount, outs[j].timestamp - ins[i].timestamp,
                               ins[i].timestamp, outs[j].timestamp);
      PassThroughComplete(ins, outs, i, j);
    }
  }

  lemma {:induction false} PassThroughSound(ins: seq<Transfer>, outs: seq<Transfer>, e: VelocityEvent) returns (i: nat, j: nat)
    requires e in PassThrough(ins, outs)
    ensures i < |ins| && j < |outs| && Qualifies(ins[i], outs[j]) && e == MakeEvent(ins[i], outs[j])
  {
    var qs := QualifyingPairs(Product(ins, outs));
    var k :| 0 <= k < |qs| && PassThrough(ins, outs)[k] == e;
    QualifyingPairsMembers(Product(ins, outs), qs[k]);
    ProductMembers(ins, outs, qs[k]);
    i :| 0 <= i < |ins| && ins[i] == qs[k].0;
    j :| 0 <= j < |outs| && outs[j] == qs[k].1;
  }

  lemma {:induction false} PassThroughComplete(ins: seq<Transfer>, outs: seq<Transfer>, i: nat, j: nat)
    requires i < |ins| && j < |outs| && Qualifies(ins[i], outs[j])
    ensures MakeEvent(ins[i], outs[j]) in PassThrough(ins, outs)
  {
    var qs := QualifyingPairs(Product(ins, outs));
    var p := (ins[i], outs[j]);
    ProductMembers(ins, outs, p);
    QualifyingPairsMembers(Product(ins, outs), p);
    var k :| 0 <= k < |qs| && qs[k] == p;
    assert PassThrough(ins, outs)[k] == MakeEvent(ins[i], outs[j]);
  }


  /** With no incoming or no outgoing transfer there is no event. */
  lemma {:induction false} NoPassThroughWithoutBothSides(ins: seq<Transfer>, outs: seq<Transfer>)
    requires ins == [] || outs == []
    ensures PassThrough(ins, outs) == []
  {
    ProductLength(ins, outs);
  }

  /** With a window of 72 hours, an event's gap is never negative and never beyond the window. */
  lemma {:induction false} PassThroughWithinWindow(ins: seq<Transfer>, outs: seq<Transfer>, k: nat)
    requires k < |PassThrough(ins, outs)|
    ensures 0 <= PassThrough(ins, outs)[k].elapsed <= WindowSeconds
    ensures PassThrough(ins, outs)[k].elapsed
         == PassThrough(ins, outs)[k].outTimestamp - PassThrough(ins, outs)[k].inTimestamp
  {
    var e := PassThrough(ins, outs)[k];
    PassThroughIff(ins, outs, e);
  }

  // --- the events as the qualifying index pairs ---------------------------------

  /** Qualifying positions (i, j) with j < m of row i, by increasing j. */
  function RowIndices(ins: seq<Transfer>, outs: seq<Transfer>, i: nat, m: nat): seq<(nat, nat)>
    requires i < |ins| && m <= |outs|
    decreases m
  {
    if m == 0 then []
    else RowIndices(ins, outs, i, m - 1) + (if Qualifies(ins[i], outs[m - 1]) then [(i, m - 1)] else [])
  }

  /** All qualifying positions (i, j) with i < n, incoming-major. */
  function QualifyingIndices(ins: seq<Transfer>, outs: seq<Transfer>, n: nat): seq<(nat, nat)>
    requires n <= |ins|
    decreases n
  {
    if n == 0 then [] else QualifyingIndices(ins, outs, n - 1) + RowIndices(ins, outs, n - 1, |outs|)
  }

  /** Every listed position is in range. */
  predicate InRange(ins: seq<Transfer>, outs: seq<Transfer>, idx: seq<(nat, nat)>) {
    forall k :: 0 <= k < |idx| ==> idx[k].0 < |ins| && idx[k].1 < |outs|
  }

  /** The events of the listed positions, in list order. */
  function EventsAt(ins: seq<Transfer>, outs: seq<Transfer>, idx: seq<(nat, nat)>): (r: seq<VelocityEvent>)
    requires InRange(ins, outs, idx)
    ensures |r| == |idx|
  {
    seq(|idx|, k requires 0 <= k < |idx| => MakeEvent(ins[idx[k].0], outs[idx[k].1]))
  }

  /** (i1, j1) is visited before (i2, j2) by the nested loops. */
  predicate Before(p: (nat, nat), q: (nat, nat)) {
    p.0 < q.0 || (p.0 == q.0 && p.1 < q.1)
  }

  lemma {:induction false} RowIndicesRange(ins: seq<Transfer>, outs: seq<Transfer>, i: nat, m: nat)
    requires i < |ins| && m <= |outs|
    ensures forall k :: 0 <= k < |RowIndices(ins, outs, i, m)| ==>
      RowIndices(ins, outs, i, m)[k].0 == i && RowIndices(ins, outs, i, m)[k].1 < m
    decreases m
  {
    if m > 0 {
      RowIndicesRange(ins, outs, i, m - 1);
    }
  }

  lemma {:induction false} RowIndicesOrder(ins: seq<Transfer>, outs: seq<Transfer>, i: nat, m: nat)
    requires i < |ins| && m <= |outs|
    ensures forall k, l :: 0 <= k < l < |RowIndices(ins, outs, i, m)| ==>
      RowIndices(ins, outs, i, m)[k].1 < RowIndices(ins, outs, i, m)[l].1
    decreases m
  {
    if m > 0 {
      RowIndicesOrder(ins, outs, i, m - 1);
      RowIndicesRange(ins, outs, i, m - 1);
    }
  }

  lemma {:induction false} RowIndicesSound(ins: seq<Transfer>, outs: seq<Transfer>, i: nat, m: nat, p: (nat, nat))
    requires i < |ins| && m <= |outs| && p in RowIndices(ins, outs, i, m)
    ensures p.0 == i && p.1 < m && Qualifies(ins[i], outs[p.1])
    decreases m
  {
    var front := RowIndices(ins, outs, i, m - 1);
    if p in front {
      RowIndicesSound(ins, outs, i, m - 1, p);
    } else {
      assert p == (i, m - 1);
    }
  }

  lemma InAppend<T>(a: seq<T>, b: seq<T>, x: T)
    ensures x in a + b <==> x in a || x in b
  {
  }

  lemma {:induction false} RowIndicesComplete(ins: seq<Transfer>, outs: seq<Transfer>, i: nat, m: nat, j: nat)
    requires i < |ins| && j < m <= |outs| && Qualifies(ins[i], outs[j])
    ensures (i, j) in RowIndices(ins, outs, i, m)
    decreases m
  {
    var front := RowIndices(ins, outs, i, m - 1);
    if j < m - 1 {
      RowIndicesComplete(ins, outs, i, m - 1, j);
      assert (i, j) in front;
    } else {
      assert RowIndices(ins, outs, i, m) == front + [(i, j)];
    }
  }

  lemma {:induction false} QualifyingIndicesShape(ins: seq<Transfer>, outs: seq<Transfer>, n: nat)
    requires n <= |ins|
    ensures forall k :: 0 <= k < |QualifyingIndices(ins, outs, n)| ==>
      QualifyingIndices(ins, outs, n)[k].0 < n && QualifyingIndices(ins, outs, n)[k].1 < |outs|
    ensures forall k, l :: 0 <= k < l < |QualifyingIndices(ins, outs, n)| ==>
      Before(QualifyingIndices(ins, outs, n)[k], QualifyingIndices(ins, outs, n)[l])
    ensures forall i: nat, j: nat :: (i, j) in QualifyingIndices(ins, outs, n) ==>
      i < n && j < |outs| && Qualifies(ins[i], outs[j])
    ensures forall i: nat, j: nat :: i < n && j < |outs| && Qualifies(ins[i], outs[j]) ==>
      (i, j) in QualifyingIndices(ins, outs, n)
  {
    QualifyingIndicesRange(ins, outs, n);
    QualifyingIndicesOrder(ins, outs, n);
    QualifyingIndicesMembers(ins, outs, n);
  }

  lemma {:induction false} QualifyingIndicesRange(ins: seq<Transfer>, outs: seq<Transfer>, n: nat)
    requires n <= |ins|
    ensures forall k :: 0 <= k < |QualifyingIndices(ins, outs, n)| ==>
      QualifyingIndices(ins, outs, n)[k].0 < n && QualifyingIndices(ins, outs, n)[k].1 < |outs|
    decreases n
  {
    if n > 0 {
      QualifyingIndicesRange(ins, outs, n - 1);
      RowIndicesRange(ins, outs, n - 1, |outs|);
      var front := QualifyingIndices(ins, outs, n - 1);
      var row := RowIndices(ins, outs, n - 1, |outs|);
      assert forall k :: 0 <= k < |front + row| ==> (front + row)[k] == if k < |front| then front[k] else row[k - |front|];
    }
  }

  lemma {:induction false} QualifyingIndicesOrder(ins: seq<Transfer>, outs: seq<Transfer>, n: nat)
    requires n <= |ins|
    ensures forall k, l :: 0 <= k < l < |QualifyingIndices(ins, outs, n)| ==>
      Before(QualifyingIndices(ins, outs, n)[k], QualifyingIndices(ins, outs, n)[l])
    decreases n
  {
    if n > 0 {
      QualifyingIndicesOrder(ins, outs, n - 1);
      QualifyingIndicesRange(ins, outs, n - 1);
      RowIndicesRange(ins, outs, n - 1, |outs|);
      RowIndicesOrder(ins, outs, n - 1, |outs|);
      var front := QualifyingIndices(ins, outs, n - 1);
      var row := RowIndices(ins, outs, n - 1, |outs|);
      var all := front + row;
      forall k, l | 0 <= k < l < |all|
        ensures Before(all[k], all[l])
      {
        if l < |front| {
          assert all[k] == front[k] && all[l] == front[l];
        } else if k < |front| {
          assert all[k] == front[k] && all[l] == row[l - |front|];
        } else {
          assert all[k] == row[k - |front|] && all[l] == row[l - |front|];
        }
      }
    }
  }

  lemma {:induction false} QualifyingIndicesMembers(ins: seq<Transfer>, outs: seq<Transfer>, n: nat)
    requires n <= |ins|
    ensures forall i: nat, j: nat :: (i, j) in QualifyingIndices(ins, outs, n) ==>
      i < n && j < |outs| && Qualifies(ins[i], outs[j])
    ensures forall i: nat, j: nat :: i < n && j < |outs| && Qualifies(ins[i], outs[j]) ==>
      (i, j) in QualifyingIndices(ins, outs, n)
  {
    forall i: nat, j: nat | (i, j) in QualifyingIndices(ins, outs, n)
      ensures i < n && j < |outs| && Qualifies(ins[i], outs[j])
    {
      QualifyingIndicesSound(ins, outs, n, i, j);
    }
    forall i: nat, j: nat | i < n && j < |outs| && Qualifies(ins[i], outs[j])
      ensures (i, j) in QualifyingIndices(ins, outs, n)
    {
      QualifyingIndicesComplete(ins, outs, n, i, j);
    }
  }

  lemma {:induction false} QualifyingIndicesSound(ins: seq<Transfer>, outs: seq<Transfer>, n: nat, i: nat, j: nat)
    requires n <= |ins| && (i, j) in QualifyingIndices(ins, outs, n)
    ensures i < n && j < |outs| && Qualifies(ins[i], outs[j])
    decreases n
  {
    var front := QualifyingIndices(ins, outs, n - 1);
    var row := RowIndices(ins, outs, n - 1, |outs|);
    if (i, j) in front {
      QualifyingIndicesSound(ins, outs, n - 1, i, j);
    } else {
      assert (i, j) in row;
      RowIndicesSound(ins, outs, n - 1, |outs|, (i, j));
    }
  }

  lemma {:induction false} QualifyingIndicesComplete(ins: seq<Transfer>, outs: seq<Transfer>, n: nat, i: nat, j: nat)
    requires n <= |ins| && i < n && j < |outs| && Qualifies(ins[i], outs[j])
    ensures (i, j) in QualifyingIndices(ins, outs, n)
    decreases n
  {
    if i < n - 1 {
      QualifyingIndicesComplete(ins, outs, n - 1, i, j);
      FrontIn(ins, outs, n, (i, j));
    } else {
      RowIndicesComplete(ins, outs, n - 1, |outs|, j);
      RowIn(ins, outs, n, (i, j));
    }
  }

  lemma {:induction false} FrontIn(ins: seq<Transfer>, outs: seq<Transfer>, n: nat, p: (nat, nat))
    requires 0 < n <= |ins| && p in QualifyingIndices(ins, outs, n - 1)
    ensures p in QualifyingIndices(ins, outs, n)
  {
    InAppend(QualifyingIndices(ins, outs, n - 1), RowIndices(ins, outs, n - 1, |outs|), p);
  }

  lemma {:induction false} RowIn(ins: seq<Transfer>, outs: seq<Transfer>, n: nat, p: (nat, nat))
    requires 0 < n <= |ins| && p in RowIndices(ins, outs, n - 1, |outs|)
    ensures p in QualifyingIndices(ins, outs, n)
  {
    InAppend(QualifyingIndices(ins, outs, n - 1), RowIndices(ins, outs, n - 1, |outs|), p);
  }

  /**
   * The qualifying positions, listed incoming-major (the order of the
   * nested loops): every listed position is in range and qualifies, every
   * qualifying position is listed, and each is listed once — the list
   * strictly increases in the loops' visiting order.
   */
  lemma {:induction false} QualifyingIndicesIff(ins: seq<Transfer>, outs: seq<Transfer>)
    ensures InRange(ins, outs, QualifyingIndices(ins, outs, |ins|))
    ensures forall i: nat, j: nat :: (i, j) in QualifyingIndices(ins, outs, |ins|) ==>
      i < |ins| && j < |outs| && Qualifies(ins[i], outs[j])
    ensures forall i: nat, j: nat :: i < |ins| && j < |outs| && Qualifies(ins[i], outs[j]) ==>
      (i, j) in QualifyingIndices(ins, outs, |ins|)
    ensures forall k, l :: 0 <= k < l < |QualifyingIndices(ins, outs, |ins|)| ==>
      Before(QualifyingIndices(ins, outs, |ins|)[k], QualifyingIndices(ins, outs, |ins|)[l])
  {
    QualifyingIndicesShape(ins, outs, |ins|);
  }

  lemma {:induction false} EventsAtAppend(ins: seq<Transfer>, outs: seq<Transfer>, a: seq<(nat, nat)>, b: seq<(nat, nat)>)
    requires InRange(ins, outs, a) && InRange(ins, outs, b)
    ensures InRange(ins, outs, a + b)
    ensures EventsAt(ins, outs, a + b) == EventsAt(ins, outs, a) + EventsAt(ins, outs, b)
  {
    assert forall k :: 0 <= k < |a + b| ==> (a + b)[k] == if k < |a| then a[k] else b[k - |a|];
  }

  /** Row i of the pairs, filtered, gives the events of row i's qualifying positions. */
  lemma {:induction false} RowEvents(ins: seq<Transfer>, outs: seq<Transfer>, i: nat, m: nat)
    requires i < |ins| && m <= |outs|
    ensures InRange(ins, outs, RowIndices(ins, outs, i, m))
    ensures ToEvents(QualifyingPairs(Row(ins[i], outs[..m]))) == EventsAt(ins, outs, RowIndices(ins, outs, i, m))
    decreases m
  {
    if m == 0 {
      assert Row(ins[i], outs[..0]) == [];
    } else {
      RowEvents(ins, outs, i, m - 1);
      RowEventsStep(ins, outs, i, m);
    }
  }

  lemma {:induction false} RowEventsStep(ins: seq<Transfer>, outs: seq<Transfer>, i: nat, m: nat)
    requires i < |ins| && 0 < m <= |outs|
    requires InRange(ins, outs, RowIndices(ins, outs, i, m - 1))
    requires ToEvents(QualifyingPairs(Row(ins[i], outs[..m - 1]))) == EventsAt(ins, outs, RowIndices(ins, outs, i, m - 1))
    ensures InRange(ins, outs, RowIndices(ins, outs, i, m))
    ensures ToEvents(QualifyingPairs(Row(ins[i], outs[..m]))) == EventsAt(ins, outs, RowIndices(ins, outs, i, m))
  {
    var before := QualifyingPairs(Row(ins[i], outs[..m - 1]));
    var q := if Qualifies(ins[i], outs[m - 1]) then [(ins[i], outs[m - 1])] else [];
    RowPairsStep(ins[i], outs, m);
    ToEventsAppend(before, q);
    var a := RowIndices(ins, outs, i, m - 1);
    var b: seq<(nat, nat)> := if Qualifies(ins[i], outs[m - 1]) then [(i, m - 1)] else [];
    CellEvents(ins, outs, i, m - 1);
    assert RowIndices(ins, outs, i, m) == a + b;
    EventsAtAppend(ins, outs, a, b);
  }

  /** Extending a row by one outgoing transfer extends its filtered pairs by that cell, if it qualifies. */
  lemma {:induction false} RowPairsStep(inT: Transfer, outs: seq<Transfer>, m: nat)
    requires 0 < m <= |outs|
    ensures QualifyingPairs(Row(inT, outs[..m]))
      == QualifyingPairs(Row(inT, outs[..m - 1])) + (if Qualifies(inT, outs[m - 1]) then [(inT, outs[m - 1])] else [])
  {
    var p := (inT, outs[m - 1]);
    RowExtend(inT, outs, m);
    QualifyingPairsAppend(Row(inT, outs[..m - 1]), [p]);
    QualifyingPairsSingle(p);
  }

  /** One cell of the product, filtered, gives the events of its position if it qualifies. */
  lemma {:induction false} CellEvents(ins: seq<Transfer>, outs: seq<Transfer>, i: nat, j: nat)
    requires i < |ins| && j < |outs|
    ensures var b: seq<(nat, nat)> := if Qualifies(ins[i], outs[j]) then [(i, j)] else [];
      InRange(ins, outs, b) &&
      ToEvents(if Qualifies(ins[i], outs[j]) then [(ins[i], outs[j])] else []) == EventsAt(ins, outs, b)
  {
    if Qualifies(ins[i], outs[j]) {
      assert ToEvents([(ins[i], outs[j])]) == [MakeEvent(ins[i], outs[j])];
    }
  }

  lemma {:induction false} RowExtend(inT: Transfer, outs: seq<Transfer>, m: nat)
    requires 0 < m <= |outs|
    ensures Row(inT, outs[..m]) == Row(inT, outs[..m - 1]) + [(inT, outs[m - 1])]
  {
    assert outs[..m][..m - 1] == outs[..m - 1];
  }

  lemma {:induction false} QualifyingPairsSingle(p: (Transfer, Transfer))
    ensures QualifyingPairs([p]) == if Qualifies(p.0, p.1) then [p] else []
  {
    assert [p][..0] == [];
  }

  /** The first n incoming transfers give the events of the qualifying positions with i < n. */
  lemma {:induction false} PrefixEvents(ins: seq<Transfer>, outs: seq<Transfer>, n: nat)
    requires n <= |ins|
    ensures InRange(ins, outs, QualifyingIndices(ins, outs, n))
    ensures PassThrough(ins[..n], outs) == EventsAt(ins, outs, QualifyingIndices(ins, outs, n))
    decreases n
  {
    QualifyingIndicesRange(ins, outs, n);
    if n == 0 {
      assert ins[..0] == [];
    } else {
      PrefixEvents(ins, outs, n - 1);
      var front := Product(ins[..n - 1], outs);
      var row := Row(ins[n - 1], outs);
      ProductExtend(ins, outs, n - 1);
      QualifyingPairsAppend(front, row);
      ToEventsAppend(QualifyingPairs(front), QualifyingPairs(row));
      RowEvents(ins, outs, n - 1, |outs|);
      assert outs[..|outs|] == outs;
      EventsAtAppend(ins, outs, QualifyingIndices(ins, outs, n - 1), RowIndices(ins, outs, n - 1, |outs|));
    }
  }

  /**
   * The recorded events are exactly the events of the qualifying positions,
   * in the nested loops' order: one event per qualifying (incoming,
   * outgoing) pair, so there are as many events as qualifying pairs.
   */
  lemma {:induction false} PassThroughIsImage(ins: seq<Transfer>, outs: seq<Transfer>)
    ensures InRange(ins, outs, QualifyingIndices(ins, outs, |ins|))
    ensures PassThrough(ins, outs) == EventsAt(ins, outs, QualifyingIndices(ins, outs, |ins|))
  {
    PrefixEvents(ins, outs, |ins|);
    assert ins[..|ins|] == ins;
  }

  /** The number of events is the number of qualifying (incoming, outgoing) position pairs. */
  lemma {:induction false} PassThroughCount(ins: seq<Transfer>, outs: seq<Transfer>)
    ensures |PassThrough(ins, outs)|
      == |set i: nat, j: nat | i < |ins| && j < |outs| && Qualifies(ins[i], outs[j]) :: (i, j)|
  {
    PassThroughIsImage(ins, outs);
    QualifyingIndicesIff(ins, outs);
    var idx := QualifyingIndices(ins, outs, |ins|);
    var pairs := set i: nat, j: nat | i < |ins| && j < |outs| && Qualifies(ins[i], outs[j]) :: (i, j);
    forall p
      ensures p in idx <==> p in pairs
    {
      if p in idx {
        assert p == (p.0, p.1);
      }
    }
    forall k, l | 0 <= k < l < |idx|
      ensures idx[k] != idx[l]
    {
      assert Before(idx[k], idx[l]);
    }
    DistinctSize(idx, pairs);
  }

  // --- the loops ---------------------------------------------------------------

  /** Lines 28-36: gather the incoming transfers of one account. */
  method CollectIncoming(g: TransferGraph, account: string) returns (incoming: seq<Transfer>)
    requires Valid(g) && account in g.nodes
    ensures incoming == Incoming(g, account)
  {
    var preds := g.predecessors[account];
    incoming := [];
    for i := 0 to |preds|
      invariant incoming == IncomingFrom(g, account, preds[..i])
    {
      var pred := preds[i];
      assert preds[..i + 1][..i] == preds[..i];
      var txns := g.transactions[(pred, account)];
      ghost var before := incoming;
      for k := 0 to |txns|
        invariant incoming == before + Transfers(pred, txns[..k])
      {
        incoming := incoming + [Transfer(pred, txns[k].amount, txns[k].timestamp)];
      }
      assert txns[..|txns|] == txns;
    }
    assert preds[..|preds|] == preds;
  }

  /** Lines 39-47: gather the outgoing transfers of one account. */
  method CollectOutgoing(g: TransferGraph, account: string) returns (outgoing: seq<Transfer>)
    requires Valid(g) && account in g.nodes
    ensures outgoing == Outgoing(g, account)
  {
    var succs := g.successors[account];
    outgoing := [];
    for i := 0 to |succs|
      invariant outgoing == OutgoingTo(g, account, succs[..i])
    {
      var succ := succs[i];
      assert succs[..i + 1][..i] == succs[..i];
      var txns := g.transactions[(account, succ)];
      ghost var before := outgoing;
      for k := 0 to |txns|
        invariant outgoing == before + Transfers(succ, txns[..k])
      {
        outgoing := outgoing + [Transfer(succ, txns[k].amount, txns[k].timestamp)];
      }
      assert txns[..|txns|] == txns;
    }
    assert succs[..|succs|] == succs;
  }

  function Lookup(velocity: map<string, seq<VelocityEvent>>, account: string): seq<VelocityEvent> {
    if account in velocity then velocity[account] else []
  }

  /** One step of the inner loop adds at most the event of the pair it looks at. */
  lemma {:induction false} PairStep(front: seq<(Transfer, Transfer)>, inT: Transfer, outs: seq<Transfer>, j: nat)
    requires j < |outs|
    ensures ToEvents(QualifyingPairs(front + Row(inT, outs[..j + 1])))
         == ToEvents(QualifyingPairs(front + Row(inT, outs[..j])))
            + (if Qualifies(inT, outs[j]) then [MakeEvent(inT, outs[j])] else [])
  {
    RowStep(inT, outs, j);
    var done := front + Row(inT, outs[..j]);
    assert front + Row(inT, outs[..j + 1]) == done + [(inT, outs[j])];
    QualifyingPairsAppend(done, [(inT, outs[j])]);
    assert QualifyingPairs([(inT, outs[j])]) == if Qualifies(inT, outs[j]) then [(inT, outs[j])] else [];
    ToEventsAppend(QualifyingPairs(done), QualifyingPairs([(inT, outs[j])]));
  }

  /** After the inner loop for the last incoming transfer, its row is part of the product. */
  lemma {:induction false} ProductExtend(ins: seq<Transfer>, outs: seq<Transfer>, i: nat)
    requires i < |ins|
    ensures Product(ins[..i + 1], outs) == Product(ins[..i], outs) + Row(ins[i], outs)
  {
    assert ins[..i + 1][..i] == ins[..i];
  }

  /**
   * Lines 50-64: the nested loops append each qualifying pair to the
   * defaultdict entry of the account, which comes into being on the first append.
   */
  method RecordPassThrough(velocity: map<string, seq<VelocityEvent>>, account: string,
                           incoming: seq<Transfer>, outgoing: seq<Transfer>)
    returns (result: map<string, seq<VelocityEvent>>)
    ensures PassThrough(incoming, outgoing) == [] ==> result == velocity
    ensures PassThrough(incoming, outgoing) != [] ==>
      result == velocity[account := Lookup(velocity, account) + PassThrough(incoming, outgoing)]
  {
    result := velocity;
    ghost var recorded: seq<VelocityEvent> := [];
    for i := 0 to |incoming|
      invariant recorded == PassThrough(incoming[..i], outgoing)
      invariant result == if recorded == [] then velocity else velocity[account := Lookup(velocity, account) + recorded]
    {
      ghost var front := Product(incoming[..i], outgoing);
      result, recorded := RecordRow(velocity, account, result, front, recorded, incoming[i], outgoing);
      ProductExtend(incoming, outgoing, i);
    }
    assert incoming[..|incoming|] == incoming;
  }

  /** The inner loop of lines 52-64, for one incoming transfer against every outgoing one. */
  method RecordRow(ghost velocity: map<string, seq<VelocityEvent>>, account: string,
                   current: map<string, seq<VelocityEvent>>, ghost front: seq<(Transfer, Transfer)>,
                   ghost recorded: seq<VelocityEvent>, inTxn: Transfer, outgoing: seq<Transfer>)
    returns (result: map<string, seq<VelocityEvent>>, ghost after: seq<VelocityEvent>)
    requires recorded == ToEvents(QualifyingPairs(front))
    requires current == if recorded == [] then velocity else velocity[account := Lookup(velocity, account) + recorded]
    ensures after == ToEvents(QualifyingPairs(front + Row(inTxn, outgoing)))
    ensures result == if after == [] then velocity else velocity[account := Lookup(velocity, account) + after]
  {
    ghost var start := Lookup(velocity, account);
    result := current;
    after := recorded;
    assert front + Row(inTxn, outgoing[..0]) == front;
    for j := 0 to |outgoing|
      invariant after == ToEvents(QualifyingPairs(front + Row(inTxn, outgoing[..j])))
      invariant result == if after == [] then velocity else velocity[account := start + after]
    {
      var outTxn := outgoing[j];
      PairStep(front, inTxn, outgoing, j);
      var timeDiff := Abs(outTxn.timestamp - inTxn.timestamp);
      if timeDiff <= WindowSeconds && outTxn.timestamp >= inTxn.timestamp {
        var event := VelocityEvent(inTxn.counterparty, outTxn.counterparty, inTxn.amount, outTxn.amount,
                                   outTxn.timestamp - inTxn.timestamp, inTxn.timestamp, outTxn.timestamp);
        AppendEventStep(velocity, account, result, after, event);
        result := result[account := Lookup(result, account) + [event]];
        after := after + [event];
      }
    }
    assert outgoing[..|outgoing|] == outgoing;
  }

  /** detect_temporal_velocity: a key for exactly the accounts with at least one event. */
  method DetectTemporalVelocity(g: TransferGraph) returns (velocity: map<string, seq<VelocityEvent>>)
    requires Valid(g)
    ensures forall a :: a in velocity <==> a in g.nodes && EventsOf(g, a) != []
    ensures forall a :: a in velocity ==> a in g.nodes && velocity[a] == EventsOf(g, a)
  {
    velocity := map[];
    for n := 0 to |g.nodes|
      invariant forall a :: a in velocity <==> a in g.nodes[..n] && EventsOf(g, a) != []
      invariant forall a :: a in velocity ==> a in g.nodes && velocity[a] == EventsOf(g, a)
    {
      var account := g.nodes[n];
      assert account !in g.nodes[..n];
      var incoming := CollectIncoming(g, account);
      var outgoing := CollectOutgoing(g, account);
      ghost var before := velocity;
      velocity := RecordPassThrough(velocity, account, incoming, outgoing);
      VelocityStep(g, n, before, velocity);
    }
    assert g.nodes[..|g.nodes|] == g.nodes;
  }

  /** Appending an event to the account's entry extends the events recorded for it. */
  lemma {:induction false} AppendEventStep(velocity: map<string, seq<VelocityEvent>>, account: string,
                        current: map<string, seq<VelocityEvent>>, recorded: seq<VelocityEvent>, event: VelocityEvent)
    requires current == if recorded == [] then velocity else velocity[account := Lookup(velocity, account) + recorded]
    ensures current[account := Lookup(current, account) + [event]]
         == velocity[account := Lookup(velocity, account) + (recorded + [event])]
  {
    assert Lookup(current, account) == Lookup(velocity, account) + recorded;
    assert Lookup(velocity, account) + recorded + [event] == Lookup(velocity, account) + (recorded + [event]);
  }

  /** One pass of the loop over the nodes keeps its two invariants. */
  lemma {:induction false} VelocityStep(g: TransferGraph, n: nat, before: map<string, seq<VelocityEvent>>,
                     after: map<string, seq<VelocityEvent>>)
    requires Valid(g) && n < |g.nodes|
    requires forall a :: a in before <==> a in g.nodes[..n] && EventsOf(g, a) != []
    requires forall a :: a in before ==> a in g.nodes && before[a] == EventsOf(g, a)
    requires EventsOf(g, g.nodes[n]) == [] ==> after == before
    requires EventsOf(g, g.nodes[n]) != [] ==>
      after == before[g.nodes[n] := Lookup(before, g.nodes[n]) + EventsOf(g, g.nodes[n])]
    ensures forall a :: a in after <==> a in g.nodes[..n + 1] && EventsOf(g, a) != []
    ensures forall a :: a in after ==> a in g.nodes && after[a] == EventsOf(g, a)
  {
    var account := g.nodes[n];
    assert account !in g.nodes[..n];
    assert Lookup(before, account) == [];
    assert g.nodes[..n + 1] == g.nodes[..n] + [account];
  }

  /** An account with no incoming or no outgoing transfer gets no key. */
  lemma {:induction false} NoKeyWithoutBothSides(g: TransferGraph, account: string)
    requires Valid(g) && account in g.nodes
    requires Incoming(g, account) == [] || Outgoing(g, account) == []
    ensures EventsOf(g, account) == []
  {
    NoPassThroughWithoutBothSides(Incoming(g, account), Outgoing(g, account));
  }

  lemma {:induction false} IncomingFromMembers(g: TransferGraph, account: string, preds: seq<string>, t: Transfer)
    requires forall p :: p in preds ==> (p, account) in g.transactions
    requires t in IncomingFrom(g, account, preds)
    ensures t.counterparty in preds
    ensures Txn(t.amount, t.timestamp) in g.transactions[(t.counterparty, account)]
  {
    var front := preds[..|preds| - 1];
    var p := preds[|preds| - 1];
    if t in IncomingFrom(g, account, front) {
      IncomingFromMembers(g, account, front, t);
    } else {
      var txns := g.transactions[(p, account)];
      var k :| 0 <= k < |txns| && Transfers(p, txns)[k] == t;
      assert txns[k] == Txn(t.amount, t.timestamp);
    }
  }

  lemma {:induction false} OutgoingToMembers(g: TransferGraph, account: string, succs: seq<string>, t: Transfer)
    requires forall s :: s in succs ==> (account, s) in g.transactions
    requires t in OutgoingTo(g, account, succs)
    ensures t.counterparty in succs
    ensures Txn(t.amount, t.timestamp) in g.transactions[(account, t.counterparty)]
  {
    var front := succs[..|succs| - 1];
    var s := succs[|succs| - 1];
    if t in OutgoingTo(g, account, front) {
      OutgoingToMembers(g, account, front, t);
    } else {
      var txns := g.transactions[(account, s)];
      var k :| 0 <= k < |txns| && Transfers(s, txns)[k] == t;
      assert txns[k] == Txn(t.amount, t.timestamp);
    }
  }

  /**
   * Each event's `from_account` is a predecessor and its `to_account` a
   * successor of the account, and the amounts and times are those of real
   * transactions on the two edges.
   */
  lemma {:induction false} EventFields(g: TransferGraph, account: string, e: VelocityEvent)
    requires Valid(g) && account in g.nodes
    requires e in EventsOf(g, account)
    ensures e.fromAccount in g.predecessors[account]
    ensures e.toAccount in g.successors[account]
    ensures Txn(e.inAmount, e.inTimestamp) in g.transactions[(e.fromAccount, account)]
    ensures Txn(e.outAmount, e.outTimestamp) in g.transactions[(account, e.toAccount)]
    ensures 0 <= e.elapsed == e.outTimestamp - e.inTimestamp <= WindowSeconds
  {
    var ins, outs := Incoming(g, account), Outgoing(g, account);
    PassThroughIff(ins, outs, e);
    var i, j :| 0 <= i < |ins| && 0 <= j < |outs|
      && 0 <= outs[j].timestamp - ins[i].timestamp <= WindowSeconds
      && e == VelocityEvent(ins[i].counterparty, outs[j].counterparty, ins[i].amount,
                            outs[j].amount, outs[j].timestamp - ins[i].timestamp,
                            ins[i].timestamp, outs[j].timestamp);
    IncomingFromMembers(g, account, g.predecessors[account], ins[i]);
    OutgoingToMembers(g, account, g.successors[account], outs[j]);
  }

  // -----------------------------------------------------------------------
  // detect_all_patterns
  // -----------------------------------------------------------------------

  /** The result dictionary: exactly the `cycles` and `velocity` entries. */
  datatype Patterns = Patterns(cycles: seq<Cycle>, velocity: map<string, seq<VelocityEvent>>)

  method DetectAllPatterns(g: TransferGraph, enumerated: Option<seq<Cycle>>) returns (patterns: Patterns)
    requires Valid(g)
    ensures patterns.cycles == DetectCycles(enumerated)
    ensures forall c :: c in patterns.cycles ==> |c| >= 3
    ensures forall a :: a in patterns.velocity <==> a in g.nodes && EventsOf(g, a) != []
    ensures forall a :: a in patterns.velocity ==> a in g.nodes && patterns.velocity[a] == EventsOf(g, a)
  {
    var cycles := DetectCycles(enumerated);
    if enumerated.Some? {
      forall c | c in cycles ensures |c| >= 3 {
        LongCyclesMembers(enumerated.value, c);
      }
    }
    var velocity := DetectTemporalVelocity(g);
    patterns := Patterns(cycles, velocity);
  }
}
