/**
 * The row fold of `build_graph`: every input row adds its account node and,
 * for each of its optional IP address, device id and bank account fields that
 * is present, a prefixed node and a typed edge from the account to it.
 *
 * The directed graph is a class whose fields the fold updates in place, as
 * the networkx DiGraph is; a pure function on `GraphState` values says what
 * each update does, and the lemmas below are proved about that function.
 */
module GraphBuilder {
  import opened Common

  datatype NodeKind = AccountNode | IpNode | DeviceNode | BankNode

  datatype EdgeKind = UsesIp | UsesDevice | UsesBank

  /** One data row after the CSV read; None stands for a pandas NA cell. */
  datatype Row = Row(
    accountId: string,
    ipAddress: Option<string>,
    deviceId: Option<string>,
    bankAccount: Option<string>)

  /** Nodes in insertion order, the `type` attribute of each node, and the `type` of each edge. */
  datatype GraphState = GraphState(
    nodes: seq<string>,
    kinds: map<string, NodeKind>,
    edges: map<(string, string), EdgeKind>)

  const EmptyGraph := GraphState([], map[], map[])

  /** The node name prefix and node type that belong to each edge type. */
  function Prefix(k: EdgeKind): string {
    match k
    case UsesIp => "ip_"
    case UsesDevice => "device_"
    case UsesBank => "bank_"
  }

  function TargetKind(k: EdgeKind): NodeKind {
    match k
    case UsesIp => IpNode
    case UsesDevice => DeviceNode
    case UsesBank => BankNode
  }

  /** The optional row field that an edge type is drawn from. */
  function Field(r: Row, k: EdgeKind): Option<string> {
    match k
    case UsesIp => r.ipAddress
    case UsesDevice => r.deviceId
    case UsesBank => r.bankAccount
  }

  /** The graph invariants networkx maintains: distinct nodes, one kind each, edges between nodes. */
  ghost predicate Wellformed(g: GraphState) {
    && (forall i, j :: 0 <= i < j < |g.nodes| ==> g.nodes[i] != g.nodes[j])
    && (forall v :: v in g.kinds <==> v in g.nodes)
    && (forall e :: e in g.edges ==> e.0 in g.kinds && e.1 in g.kinds)
  }

  /** G.add_node(v, type=k): a new node goes to the end; an existing one only has its type replaced. */
  function WithNode(g: GraphState, v: string, k: NodeKind): GraphState {
    GraphState(if v in g.kinds then g.nodes else g.nodes + [v], g.kinds[v := k], g.edges)
  }

  /** G.add_edge(u, v, type=k) between two existing nodes. */
  function WithEdge(g: GraphState, u: string, v: string, k: EdgeKind): GraphState {
    g.(edges := g.edges[(u, v) := k])
  }

  /** The `if pd.notna(...)` step for one optional field. */
  function AddLink(g: GraphState, account: string, k: EdgeKind, field: Option<string>): GraphState {
    if field.Some? then
      var target := Prefix(k) + field.value;
      WithEdge(WithNode(g, target, TargetKind(k)), account, target, k)
    else g
  }

  /** The body of the loop over rows. */
  function AddRow(g: GraphState, r: Row): GraphState {
    var g1 := WithNode(g, r.accountId, AccountNode);
    var g2 := AddLink(g1, r.accountId, UsesIp, r.ipAddress);
    var g3 := AddLink(g2, r.accountId, UsesDevice, r.deviceId);
    AddLink(g3, r.accountId, UsesBank, r.bankAccount)
  }

  /** The graph after folding the rows in order. */
  function Build(rows: seq<Row>): GraphState {
    if rows == [] then EmptyGraph else AddRow(Build(rows[..|rows| - 1]), rows[|rows| - 1])
  }

  class Graph {
    var nodes: seq<string>
    var kinds: map<string, NodeKind>
    var edges: map<(string, string), EdgeKind>

    function State(): GraphState
      reads this
    {
      GraphState(nodes, kinds, edges)
    }

    constructor ()
      ensures State() == EmptyGraph
    {
      nodes, kinds, edges := [], map[], map[];
    }

    method AddNode(v: string, k: NodeKind)
      modifies this
      ensures State() == WithNode(old(State()), v, k)
    {
      if v !in kinds {
        nodes := nodes + [v];
      }
      kinds := kinds[v := k];
    }

    method AddEdge(u: string, v: string, k: EdgeKind)
      requires u in kinds && v in kinds
      modifies this
      ensures State() == WithEdge(old(State()), u, v, k)
    {
      edges := edges[(u, v) := k];
    }
  }

  /** build_graph: the CSV read is abstracted to the row list, which is also returned as `df`. */
  method BuildGraph(rows: seq<Row>) returns (g: Graph, df: seq<Row>)
    ensures fresh(g)
    ensures g.State() == Build(rows) && df == rows
  {
    g := new Graph();
    df := rows;
    for i := 0 to |rows|
      invariant g.State() == Build(rows[..i])
    {
      var row := rows[i];
      ghost var before := g.State();
      assert rows[..i + 1][..i] == rows[..i];
      var account := row.accountId;
      g.AddNode(account, AccountNode);
      ghost var g1 := g.State();
      if row.ipAddress.Some? {
        var ipNode := "ip_" + row.ipAddress.value;
        g.AddNode(ipNode, IpNode);
        g.AddEdge(account, ipNode, UsesIp);
      }
      ghost var g2 := g.State();
      assert g2 == AddLink(g1, account, UsesIp, row.ipAddress);
      if row.deviceId.Some? {
        var deviceNode := "device_" + row.deviceId.value;
        g.AddNode(deviceNode, DeviceNode);
        g.AddEdge(account, deviceNode, UsesDevice);
      }
      ghost var g3 := g.State();
      assert g3 == AddLink(g2, account, UsesDevice, row.deviceId);
      if row.bankAccount.Some? {
        var bankNode := "bank_" + row.bankAccount.value;
        g.AddNode(bankNode, BankNode);
        g.AddEdge(account, bankNode, UsesBank);
      }
      assert g.State() == AddLink(g3, account, UsesBank, row.bankAccount);
      assert g.State() == AddRow(before, row);
    }
    assert rows[..|rows|] == rows;
  }

  // -----------------------------------------------------------------------
  // One fold step, summarised as map merges (later writes win)
  // -----------------------------------------------------------------------

  /** The node types and edges one optional field contributes. */
  function LinkKinds(k: EdgeKind, field: Option<string>): map<string, NodeKind> {
    if field.Some? then map[Prefix(k) + field.value := TargetKind(k)] else map[]
  }

  function LinkEdges(account: string, k: EdgeKind, field: Option<string>): map<(string, string), EdgeKind> {
    if field.Some? then map[(account, Prefix(k) + field.value) := k] else map[]
  }

  function RowKinds(r: Row): map<string, NodeKind> {
    map[r.accountId := AccountNode] + LinkKinds(UsesIp, r.ipAddress)
      + LinkKinds(UsesDevice, r.deviceId) + LinkKinds(UsesBank, r.bankAccount)
  }

  function RowEdges(r: Row): map<(string, string), EdgeKind> {
    LinkEdges(r.accountId, UsesIp, r.ipAddress) + LinkEdges(r.accountId, UsesDevice, r.deviceId)
      + LinkEdges(r.accountId, UsesBank, r.bankAccount)
  }

  lemma {:induction false} WithNodeWellformed(g: GraphState, v: string, k: NodeKind)
    requires Wellformed(g)
    ensures Wellformed(WithNode(g, v, k))
  {
  }

  lemma {:induction false} AddLinkWellformed(g: GraphState, account: string, k: EdgeKind, field: Option<string>)
    requires Wellformed(g) && account in g.kinds
    ensures Wellformed(AddLink(g, account, k, field))
  {
    if field.Some? {
      WithNodeWellformed(g, Prefix(k) + field.value, TargetKind(k));
    }
  }

  lemma {:induction false} AddLinkKinds(g: GraphState, account: string, k: EdgeKind, field: Option<string>)
    ensures AddLink(g, account, k, field).kinds == g.kinds + LinkKinds(k, field)
    ensures LinkKinds(k, field).Keys <= g.kinds.Keys ==> AddLink(g, account, k, field).nodes == g.nodes
  {
  }

  lemma {:induction false} AddLinkEdges(g: GraphState, account: string, k: EdgeKind, field: Option<string>)
    ensures AddLink(g, account, k, field).edges == g.edges + LinkEdges(account, k, field)
  {
  }

  lemma {:induction false} AddRowWellformed(g: GraphState, r: Row)
    requires Wellformed(g)
    ensures Wellformed(AddRow(g, r))
  {
    var a := r.accountId;
    var g1 := WithNode(g, a, AccountNode);
    WithNodeWellformed(g, a, AccountNode);
    var g2 := AddLink(g1, a, UsesIp, r.ipAddress);
    AddLinkWellformed(g1, a, UsesIp, r.ipAddress);
    AddLinkKinds(g1, a, UsesIp, r.ipAddress);
    var g3 := AddLink(g2, a, UsesDevice, r.deviceId);
    AddLinkWellformed(g2, a, UsesDevice, r.deviceId);
    AddLinkKinds(g2, a, UsesDevice, r.deviceId);
    AddLinkWellformed(g3, a, UsesBank, r.bankAccount);
  }

  lemma {:induction false} MergeAssoc<K, V>(m: map<K, V>, a: map<K, V>, b: map<K, V>)
    ensures (m + a) + b == m + (a + b)
  {
  }

  lemma {:induction false} AddRowKinds(g: GraphState, r: Row)
    ensures AddRow(g, r).kinds == g.kinds + RowKinds(r)
  {
    var a := r.accountId;
    var g1 := WithNode(g, a, AccountNode);
    var g2 := AddLink(g1, a, UsesIp, r.ipAddress);
    AddLinkKinds(g1, a, UsesIp, r.ipAddress);
    var g3 := AddLink(g2, a, UsesDevice, r.deviceId);
    AddLinkKinds(g2, a, UsesDevice, r.deviceId);
    AddLinkKinds(g3, a, UsesBank, r.bankAccount);
    var ka, ki, kd, kb := map[a := AccountNode], LinkKinds(UsesIp, r.ipAddress),
      LinkKinds(UsesDevice, r.deviceId), LinkKinds(UsesBank, r.bankAccount);
    assert g1.kinds == g.kinds + ka;
    MergeAssoc(g.kinds, ka, ki);
    MergeAssoc(g.kinds, ka + ki, kd);
    MergeAssoc(g.kinds, ka + ki + kd, kb);
  }

  lemma {:induction false} AddRowEdges(g: GraphState, r: Row)
    ensures AddRow(g, r).edges == g.edges + RowEdges(r)
  {
    var a := r.accountId;
    var g1 := WithNode(g, a, AccountNode);
    var g2 := AddLink(g1, a, UsesIp, r.ipAddress);
    AddLinkEdges(g1, a, UsesIp, r.ipAddress);
    var g3 := AddLink(g2, a, UsesDevice, r.deviceId);
    AddLinkEdges(g2, a, UsesDevice, r.deviceId);
    AddLinkEdges(g3, a, UsesBank, r.bankAccount);
    var ei, ed, eb := LinkEdges(a, UsesIp, r.ipAddress), LinkEdges(a, UsesDevice, r.deviceId),
      LinkEdges(a, UsesBank, r.bankAccount);
    MergeAssoc(g.edges, ei, ed);
    MergeAssoc(g.edges, ei + ed, eb);
  }

  lemma {:induction false} AddRowNodes(g: GraphState, r: Row)
    requires RowKinds(r).Keys <= g.kinds.Keys
    ensures AddRow(g, r).nodes == g.nodes
  {
    var a := r.accountId;
    var g1 := WithNode(g, a, AccountNode);
    var g2 := AddLink(g1, a, UsesIp, r.ipAddress);
    AddLinkKinds(g1, a, UsesIp, r.ipAddress);
    var g3 := AddLink(g2, a, UsesDevice, r.deviceId);
    AddLinkKinds(g2, a, UsesDevice, r.deviceId);
    AddLinkKinds(g3, a, UsesBank, r.bankAccount);
    assert g1.kinds.Keys == g.kinds.Keys;
  }

  /** Distinct edge types never aim at the same node name: the prefixes differ in their first letter. */
  lemma {:induction false} PrefixesDisjoint(k1: EdgeKind, x1: string, k2: EdgeKind, x2: string)
    requires Prefix(k1) + x1 == Prefix(k2) + x2
    ensures k1 == k2 && x1 == x2
  {
    assert (Prefix(k1) + x1)[0] == Prefix(k1)[0];
    assert (Prefix(k2) + x2)[0] == Prefix(k2)[0];
    assert k1 == k2;
    assert x1 == (Prefix(k1) + x1)[|Prefix(k1)|..];
  }

  /** The edges of one row: an edge to Prefix(k) + x, of type k, for each present field. */
  lemma {:induction false} RowEdgesIff(r: Row, account: string, k: EdgeKind, x: string)
    ensures (account, Prefix(k) + x) in RowEdges(r) <==> r.accountId == account && Field(r, k) == Some(x)
    ensures (account, Prefix(k) + x) in RowEdges(r) ==> RowEdges(r)[(account, Prefix(k) + x)] == k
  {
    forall k2 | Field(r, k2).Some? && Prefix(k2) + Field(r, k2).value == Prefix(k) + x
      ensures k2 == k && Field(r, k2).value == x
    {
      PrefixesDisjoint(k2, Field(r, k2).value, k, x);
    }
  }

  lemma {:induction false} RowEdgesShape(r: Row, e: (string, string))
    requires e in RowEdges(r)
    ensures e.0 == r.accountId && Field(r, RowEdges(r)[e]).Some?
    ensures e.1 == Prefix(RowEdges(r)[e]) + Field(r, RowEdges(r)[e]).value
  {
  }

  // -----------------------------------------------------------------------
  // Properties of the fold
  // -----------------------------------------------------------------------

  lemma {:induction false} BuildWellformed(rows: seq<Row>)
    ensures Wellformed(Build(rows))
  {
    if rows != [] {
      BuildWellformed(rows[..|rows| - 1]);
      AddRowWellformed(Build(rows[..|rows| - 1]), rows[|rows| - 1]);
    }
  }

  /** The nodes a row contributes. */
  function RowNodes(r: Row): (s: set<string>)
    ensures s == RowKinds(r).Keys
  {
    {r.accountId}
    + (if r.ipAddress.Some? then {"ip_" + r.ipAddress.value} else {})
    + (if r.deviceId.Some? then {"device_" + r.deviceId.value} else {})
    + (if r.bankAccount.Some? then {"bank_" + r.bankAccount.value} else {})
  }

  /** The node set is the union of the rows' nodes. */
  lemma {:induction false} NodeSetIsUnion(rows: seq<Row>)
    ensures forall v :: v in Build(rows).kinds <==> exists i :: 0 <= i < |rows| && v in RowNodes(rows[i])
  {
    forall v ensures v in Build(rows).kinds <==> exists i :: 0 <= i < |rows| && v in RowNodes(rows[i]) {
      if v in Build(rows).kinds {
        NodesComeFromRows(rows, v);
      }
      if exists i :: 0 <= i < |rows| && v in RowNodes(rows[i]) {
        var i :| 0 <= i < |rows| && v in RowNodes(rows[i]);
        RowNodesAreNodes(rows, i, v);
      }
    }
  }

  lemma {:induction false} NodesComeFromRows(rows: seq<Row>, v: string)
    requires v in Build(rows).kinds
    ensures exists i :: 0 <= i < |rows| && v in RowNodes(rows[i])
  {
    var front := rows[..|rows| - 1];
    var last := rows[|rows| - 1];
    AddRowKinds(Build(front), last);
    if v in RowNodes(last) {
      assert v in RowNodes(rows[|rows| - 1]);
    } else {
      NodesComeFromRows(front, v);
      var i :| 0 <= i < |front| && v in RowNodes(front[i]);
      assert rows[i] == front[i];
    }
  }

  lemma {:induction false} RowNodesAreNodes(rows: seq<Row>, i: nat, v: string)
    requires i < |rows| && v in RowNodes(rows[i])
    ensures v in Build(rows).kinds
  {
    var front := rows[..|rows| - 1];
    var last := rows[|rows| - 1];
    AddRowKinds(Build(front), last);
    if i < |front| {
      assert front[i] == rows[i];
      RowNodesAreNodes(front, i, v);
    }
  }

  /** Every row's account id is a node after the fold. */
  lemma {:induction false} AccountIdsAreNodes(rows: seq<Row>, i: nat)
    requires i < |rows|
    ensures rows[i].accountId in Build(rows).kinds
    ensures rows[i].accountId in Build(rows).nodes
  {
    NodeSetIsUnion(rows);
    BuildWellformed(rows);
    assert rows[i].accountId in RowNodes(rows[i]);
  }

  /**
   * An edge account -> Prefix(k) + x exists exactly when some row for that
   * account has x in the field that k is drawn from, and it then has type k.
   */
  lemma {:induction false} EdgeIff(rows: seq<Row>, account: string, k: EdgeKind, x: string)
    ensures (account, Prefix(k) + x) in Build(rows).edges
        <==> exists i :: 0 <= i < |rows| && rows[i].accountId == account && Field(rows[i], k) == Some(x)
    ensures (account, Prefix(k) + x) in Build(rows).edges ==> Build(rows).edges[(account, Prefix(k) + x)] == k
  {
    if rows != [] {
      var front := rows[..|rows| - 1];
      var last := rows[|rows| - 1];
      var key := (account, Prefix(k) + x);
      EdgeIff(front, account, k, x);
      assert Build(rows) == AddRow(Build(front), last);
      AddRowEdges(Build(front), last);
      RowEdgesIff(last, account, k, x);
      EdgeIffStep(rows, front, account, k, x);
    }
  }

  /** The occurrence condition of EdgeIff for `rows`, from that of its front and its last row. */
  lemma {:induction false} EdgeIffStep(rows: seq<Row>, front: seq<Row>, account: string, k: EdgeKind, x: string)
    requires rows != [] && front == rows[..|rows| - 1]
    ensures (exists i :: 0 <= i < |rows| && rows[i].accountId == account && Field(rows[i], k) == Some(x))
        <==> (exists i :: 0 <= i < |front| && front[i].accountId == account && Field(front[i], k) == Some(x))
             || (rows[|rows| - 1].accountId == account && Field(rows[|rows| - 1], k) == Some(x))
  {
    if exists i :: 0 <= i < |front| && front[i].accountId == account && Field(front[i], k) == Some(x) {
      var i :| 0 <= i < |front| && front[i].accountId == account && Field(front[i], k) == Some(x);
      assert rows[i] == front[i];
    }
    if exists i :: 0 <= i < |rows| && rows[i].accountId == account && Field(rows[i], k) == Some(x) {
      var i :| 0 <= i < |rows| && rows[i].accountId == account && Field(rows[i], k) == Some(x);
      if i < |front| {
        assert front[i] == rows[i];
      }
    }
  }

  /** The candidate properties of the source, one per prefix. */
  lemma {:induction false} IpEdgeIff(rows: seq<Row>, account: string, ip: string)
    ensures (account, "ip_" + ip) in Build(rows).edges
        <==> exists i :: 0 <= i < |rows| && rows[i].accountId == account && rows[i].ipAddress == Some(ip)
    ensures (account, "ip_" + ip) in Build(rows).edges ==> Build(rows).edges[(account, "ip_" + ip)] == UsesIp
  {
    EdgeIff(rows, account, UsesIp, ip);
  }

  lemma {:induction false} DeviceEdgeIff(rows: seq<Row>, account: string, device: string)
    ensures (account, "device_" + device) in Build(rows).edges
        <==> exists i :: 0 <= i < |rows| && rows[i].accountId == account && rows[i].deviceId == Some(device)
    ensures (account, "device_" + device) in Build(rows).edges
        ==> Build(rows).edges[(account, "device_" + device)] == UsesDevice
  {
    EdgeIff(rows, account, UsesDevice, device);
  }

  lemma {:induction false} BankEdgeIff(rows: seq<Row>, account: string, bank: string)
    ensures (account, "bank_" + bank) in Build(rows).edges
        <==> exists i :: 0 <= i < |rows| && rows[i].accountId == account && rows[i].bankAccount == Some(bank)
    ensures (account, "bank_" + bank) in Build(rows).edges
        ==> Build(rows).edges[(account, "bank_" + bank)] == UsesBank
  {
    EdgeIff(rows, account, UsesBank, bank);
  }

  /** Every edge leaves some row's account and enters that row's prefixed node of the edge's type. */
  lemma {:induction false} EdgeShape(rows: seq<Row>, u: string, v: string)
    requires (u, v) in Build(rows).edges
    ensures exists i :: 0 <= i < |rows| && rows[i].accountId == u
              && Field(rows[i], Build(rows).edges[(u, v)]).Some?
              && v == Prefix(Build(rows).edges[(u, v)]) + Field(rows[i], Build(rows).edges[(u, v)]).value
  {
    var front := rows[..|rows| - 1];
    var last := rows[|rows| - 1];
    var k := Build(rows).edges[(u, v)];
    AddRowEdges(Build(front), last);
    if (u, v) in RowEdges(last) {
      RowEdgesShape(last, (u, v));
    } else {
      EdgeShape(front, u, v);
      var i :| 0 <= i < |front| && front[i].accountId == u && Field(front[i], k).Some?
              && v == Prefix(k) + Field(front[i], k).value;
      assert rows[i] == front[i];
    }
  }

  /** A row with every optional field NA adds its account node and no edge. */
  lemma {:induction false} AllNaRowAddsOnlyAccount(rows: seq<Row>, account: string)
    ensures var after := Build(rows + [Row(account, None, None, None)]);
      && after.edges == Build(rows).edges
      && after.kinds.Keys == Build(rows).kinds.Keys + {account}
  {
    var r := Row(account, None, None, None);
    assert (rows + [r])[..|rows|] == rows;
    AddRowEdges(Build(rows), r);
    AddRowKinds(Build(rows), r);
  }

  /** Folding the same row twice in a row is the same as folding it once. */
  lemma {:induction false} AddRowIdempotent(g: GraphState, r: Row)
    ensures AddRow(AddRow(g, r), r) == AddRow(g, r)
  {
    var g1 := AddRow(g, r);
    AddRowKinds(g, r);
    AddRowKinds(g1, r);
    AddRowEdges(g, r);
    AddRowEdges(g1, r);
    AddRowNodes(g1, r);
  }

  /** Repeating a row that already occurred leaves the node order, the node set and the edges unchanged. */
  lemma {:induction false} RepeatedRowChangesNoNodeOrEdge(rows: seq<Row>, i: nat)
    requires i < |rows|
    ensures var after := Build(rows + [rows[i]]);
      && after.nodes == Build(rows).nodes
      && after.kinds.Keys == Build(rows).kinds.Keys
      && after.edges == Build(rows).edges
  {
    var r := rows[i];
    var g := Build(rows);
    assert (rows + [r])[..|rows|] == rows;
    assert Build(rows + [r]) == AddRow(g, r);
    RepeatedRowKinds(rows, i);
    AddRowNodes(g, r);
    AddRowEdges(g, r);
    RowEdgesPresent(rows, i);
    UnionOfPresent(g.edges, RowEdges(r));
  }

  /** Adding entries a map already holds leaves it unchanged. */
  lemma {:induction false} UnionOfPresent(m: map<(string, string), EdgeKind>, more: map<(string, string), EdgeKind>)
    requires forall e :: e in more ==> e in m && m[e] == more[e]
    ensures m + more == m
  {
  }

  /** A row that occurred adds no node: its nodes are all there already. */
  lemma {:induction false} RepeatedRowKinds(rows: seq<Row>, i: nat)
    requires i < |rows|
    ensures RowKinds(rows[i]).Keys <= Build(rows).kinds.Keys
    ensures (Build(rows).kinds + RowKinds(rows[i])).Keys == Build(rows).kinds.Keys
    ensures AddRow(Build(rows), rows[i]).kinds.Keys == Build(rows).kinds.Keys
  {
    NodeSetIsUnion(rows);
    AddRowKinds(Build(rows), rows[i]);
  }

  /** The edges of a row that occurred are all there already, with their types. */
  lemma {:induction false} RowEdgesPresent(rows: seq<Row>, i: nat)
    requires i < |rows|
    ensures forall e :: e in RowEdges(rows[i]) ==> e in Build(rows).edges && Build(rows).edges[e] == RowEdges(rows[i])[e]
  {
    var r := rows[i];
    forall e | e in RowEdges(r) ensures e in Build(rows).edges && Build(rows).edges[e] == RowEdges(r)[e] {
      RowEdgesShape(r, e);
      var k := RowEdges(r)[e];
      EdgeIff(rows, r.accountId, k, Field(r, k).value);
    }
  }
}
