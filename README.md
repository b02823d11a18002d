# MuleRift core in Dafny

MuleRift is a money-muling detection engine. It reads a transactions CSV
and builds a directed graph of accounts and the IP addresses, devices and
bank accounts they use. On that graph it finds transaction cycles and rapid
pass-through (money in and out again within 72 hours). Each account gets a
suspicion score. Cycles become fraud rings. The result is a JSON report
that a separate validator checks against the "Locked Data Contract", and a
web front end draws it as a graph.

This project models that core and proves properties of the model. There is
one module per source file:

| module | file | source |
|---|---|---|
| `GraphBuilder` | `graph_builder.dfy` | `python-engine/graph_builder.py` |
| `Detectors` | `detectors.dfy` | `python-engine/detectors.py` |
| `Scoring` | `scoring.dfy` | `python-engine/scoring.py` |
| `RingGrouper` | `ring_grouper.dfy` | `python-engine/ring_grouper.py` |
| `Output` | `output.dfy` | `python-engine/output.py` |
| `Engine` | `engine.dfy` | `python-engine/main.py` (the driver's own logic) |
| `Contract` | `contract.dfy` | `validate_contract.py` |
| `GraphUtils` | `graph_utils.dfy` | `lib/graphUtils.ts` |
| `Common` | `common.dfy` | helpers shared by the modules above |

Modelling choices:

- **State.** The source mutates things in place, and the model keeps that form:
  - the networkx graph that `build_graph` fills is the class `GraphBuilder.Graph`;
  - the account list that `group_rings` tags is an `array`;
  - every loop is a `method` with a `for`/`while` loop, with one exception. The validator's `has_camel_case` (`validate_contract.py:94-104`) recurses into nested values from inside its loops over keys and items. It is modelled as the recursive functions `Contract.CamelCase`, `Contract.FieldsCamelCase` and `Contract.ItemsCamelCase`;
  - some loops and loop bodies are methods of their own. Each is covered by the row of the method that calls it:
    - `GraphUtils.PushCycleLinks`, `PushRingLinks`, `FilterNonRing` and `PushChainLinks` are the loops of `GraphUtils.GenerateGraphEdges`;
    - `Contract.CheckAccount` is the body of `Contract.CheckAccounts`;
    - `Contract.CheckRing` is the body of `Contract.CheckRings`;
    - `Engine.BuildSuspiciousAccount` is the body of `Engine.BuildSuspiciousAccounts`.
- **Specifications.** Each such method is proved equal to a pure specification function. The properties are lemmas about those functions.
- **Numbers and time.**
  - Python floats are exact `real`s.
  - `round(x, n)` is the parameter `round`.
  - Timestamps are whole seconds.
- **Inputs the source takes from its environment.** These are parameters:
  - the cycle enumeration of `nx.simple_cycles`: `Option`, with `None` when it raises;
  - the iteration order of a Python set;
  - the elapsed time;
  - the fetched CSV text and JavaScript's `parseFloat`.
- **Errors.**
  - Validator errors are a structured `Error` datatype. Each carries what its message interpolates.
  - A Python exception in the validator is the outcome `Crashed`.
  - A failed load in the front end returns an empty list.
- **The driver.** `main.py` is modelled over an abstract `Results` record: its node sets and groups. That record is not wired to the detectors, because the file's calls and keys do not match theirs (see below).

## Model

| member | source | states |
|---|---|---|
| GraphBuilder.Graph.constructor | python-engine/graph_builder.py:6 | a new DiGraph has no nodes and no edges |
| GraphBuilder.Graph.AddNode | python-engine/graph_builder.py:10 | `add_node` puts a new node last, and for an existing node only replaces its type |
| GraphBuilder.Graph.AddEdge | python-engine/graph_builder.py:15 | `add_edge` between two existing nodes sets that edge's type; nothing else changes |
| GraphBuilder.BuildGraph | python-engine/graph_builder.py:4-27 | the loop over rows leaves the graph equal to the fold `Build(rows)` and returns the rows as `df` |
| GraphBuilder.BuildWellformed | python-engine/graph_builder.py:8-25 | after any rows, the nodes are distinct, every node has one type, and every edge joins two nodes |
| GraphBuilder.AddRowKinds | python-engine/graph_builder.py:9-25 | one row adds exactly its account node and the prefixed node of each present field, with their types |
| GraphBuilder.AddRowEdges | python-engine/graph_builder.py:12-25 | one row adds exactly one typed edge per present optional field |
| GraphBuilder.PrefixesDisjoint | python-engine/graph_builder.py:13-23 | `ip_`, `device_` and `bank_` names never collide across fields or values |
| GraphBuilder.RowEdgesIff | python-engine/graph_builder.py:12-25 | a row has an edge to `Prefix(k) + x` iff its field for `k` is present with value `x`, and that edge has type `k` |
| GraphBuilder.NodeSetIsUnion | python-engine/graph_builder.py:8-25 | the node set is exactly the union of the nodes each row contributes |
| GraphBuilder.AccountIdsAreNodes | python-engine/graph_builder.py:9-10 | every row's account id is a node of the graph |
| GraphBuilder.EdgeIff | python-engine/graph_builder.py:12-25 | an edge account → `Prefix(k) + x` exists iff some row for that account has `x` in field `k`; its type is `k` |
| GraphBuilder.IpEdgeIff | python-engine/graph_builder.py:12-15 | an `ip_` edge exists iff some row of the account has that IP address; its type is `uses_ip` |
| GraphBuilder.DeviceEdgeIff | python-engine/graph_builder.py:17-20 | the same rule for `device_` edges of type `uses_device` |
| GraphBuilder.BankEdgeIff | python-engine/graph_builder.py:22-25 | the same rule for `bank_` edges of type `uses_bank` |
| GraphBuilder.EdgeShape | python-engine/graph_builder.py:12-25 | every edge leaves some row's account and enters that row's prefixed node for the edge's type |
| GraphBuilder.AllNaRowAddsOnlyAccount | python-engine/graph_builder.py:12-25 | a row with every optional field NA adds only its account node and no edge |
| GraphBuilder.AddRowIdempotent | python-engine/graph_builder.py:8-25 | folding the same row twice in a row equals folding it once |
| GraphBuilder.RepeatedRowChangesNoNodeOrEdge | python-engine/graph_builder.py:8-25 | repeating a row seen before leaves the node order, the node set and the edges unchanged |
| Detectors.DetectCycles | python-engine/detectors.py:5-17 | the enumerated cycles filtered to length ≥ 3, or `[]` when the enumeration raises |
| Detectors.LongCyclesMembers | python-engine/detectors.py:14 | a cycle is kept iff it is in the input and has length ≥ 3 |
| Detectors.LongCyclesAppend | python-engine/detectors.py:14 | the filter keeps input order: it distributes over concatenation |
| Detectors.LongCyclesBounds | python-engine/detectors.py:14 | the result is never longer than the input, and equals it when every cycle is long enough |
| Detectors.LongCyclesIdempotent | python-engine/detectors.py:14 | filtering twice is filtering once |
| Detectors.CollectIncoming | python-engine/detectors.py:28-36 | the incoming list holds every predecessor's transactions, predecessor by predecessor, in edge order |
| Detectors.CollectOutgoing | python-engine/detectors.py:39-47 | the outgoing list holds every successor's transactions, successor by successor, in edge order |
| Detectors.ProductAt | python-engine/detectors.py:50-51 | the nested loops visit pair (i, j) at position `i·len(outs) + j`, once each |
| Detectors.ProductMembers | python-engine/detectors.py:50-51 | a pair is visited iff its incoming and outgoing transfers are in the two lists |
| Detectors.PassThroughIff | python-engine/detectors.py:50-64 | an event is recorded iff some pair has the outgoing transfer no earlier than, and at most 72 h after, the incoming one; the event names both counterparties, amounts and times |
| Detectors.QualifyingIndicesIff | python-engine/detectors.py:50-56 | the qualifying index pairs, listed in loop order, are in range; a pair (i, j) is listed iff it qualifies; each is listed once, in strictly increasing order (i, then j) |
| Detectors.PassThroughIsImage | python-engine/detectors.py:50-64 | the recorded events are exactly the events of those index pairs, in that order |
| Detectors.PassThroughCount | python-engine/detectors.py:50-64 | the number of recorded events is the number of qualifying index pairs (i, j) |
| Detectors.PassThroughWithinWindow | python-engine/detectors.py:52-55 | every event's gap lies in [0, 72 h] and equals the out time minus the in time |
| Detectors.NoPassThroughWithoutBothSides | python-engine/detectors.py:50-51 | with no incoming or no outgoing transfer, no event is recorded |
| Detectors.RecordPassThrough | python-engine/detectors.py:50-64 | the nested loops append the account's qualifying events in loop order; a key appears only on the first append |
| Detectors.RecordRow | python-engine/detectors.py:51-64 | the inner loop for one incoming transfer appends exactly the qualifying pairs of its row |
| Detectors.DetectTemporalVelocity | python-engine/detectors.py:19-66 | the result has a key iff the node has at least one event, and the key holds exactly the node's events in order |
| Detectors.NoKeyWithoutBothSides | python-engine/detectors.py:26-64 | an account lacking incoming or outgoing transfers gets no key |
| Detectors.EventFields | python-engine/detectors.py:56-61 | each event's `from_account` is a predecessor and its `to_account` a successor; amounts and times come from real transactions on those edges |
| Detectors.DetectAllPatterns | python-engine/detectors.py:68-79 | the result holds exactly the filtered cycles, all of length ≥ 3, and the velocity map as above |
| Scoring.BuildParticipation | python-engine/scoring.py:17-22 | the participation loop yields the map `ParticipationOf(cycles)` |
| Scoring.ParticipationLists | python-engine/scoring.py:17-22 | an account has an entry iff some cycle lists it; the entry is each cycle, in order, once per occurrence |
| Scoring.SimpleCyclesListed | python-engine/scoring.py:17-22 | for cycles without repeated nodes, an account's list is exactly the cycles containing it |
| Scoring.CycleScore | python-engine/scoring.py:31-33 | `min(60n, 100)`: 0 for none, 60 for one cycle, 100 for two or more |
| Scoring.VelocityScore | python-engine/scoring.py:39-41 | `min(50m, 100)`: 0 for none, 50 for one event, 100 for two or more |
| Scoring.SuspicionScore | python-engine/scoring.py:46-62 | the loop over `pattern_scores` computes the weighted average, or 0 for an empty table |
| Scoring.AverageBounds | python-engine/scoring.py:46-62 | a weighted average of scores in [0,100] is in [0,100] |
| Scoring.ScoreAccount | python-engine/scoring.py:26-70 | the record built for one node equals `Record(account, …)` |
| Scoring.CalculateScores | python-engine/scoring.py:1-72 | one record per graph node, in node order, each equal to `Record` |
| Scoring.RecordCounts | python-engine/scoring.py:64-70 | the record names the account, counts its cycle list and its events, and has no ring keys yet |
| Scoring.ScoreInRange | python-engine/scoring.py:45-62 | every suspicion score is in [0,100] |
| Scoring.NoPatterns | python-engine/scoring.py:26-62 | no tags iff the account is in no cycle and has no velocity key; then the score is 0 |
| Scoring.OnlyOnePattern | python-engine/scoring.py:46-60 | with exactly one pattern present, the score is that pattern's score |
| Scoring.BothPatterns | python-engine/scoring.py:46-60 | with both patterns present, the score is 0.6·cycle + 0.4·velocity |
| Scoring.TagsDecode | python-engine/scoring.py:35-43 | tags list cycle participation before velocity; each splits at `:` into the name and the count stored in the record |
| RingGrouper.CreatedRings | python-engine/ring_grouper.py:14-35 | one ring per cycle, in cycle order |
| RingGrouper.CollectMemberScores | python-engine/ring_grouper.py:18-21 | the member-score loop collects, in account order, the scores of accounts listed in the cycle |
| RingGrouper.TagMembers | python-engine/ring_grouper.py:38-43 | each account is tagged iff it is listed and has no ring or a strictly lower `temp_risk`; all others are unchanged |
| RingGrouper.CleanUp | python-engine/ring_grouper.py:46-51 | every account loses `temp_risk` and gets `''` when it has no ring |
| RingGrouper.GroupRings | python-engine/ring_grouper.py:1-56 | returns the created rings sorted by risk; each account ends as every ring offered in turn, then cleaned up |
| RingGrouper.AssignedScoresUnchanged | python-engine/ring_grouper.py:18-21 | tagging never changes ids or scores, so later rings see the original scores |
| RingGrouper.CreatedRingShape | python-engine/ring_grouper.py:15-35 | the k-th ring's id is `RING_` plus three digits spelling k; its type is `cycle` and its members are the cycle |
| RingGrouper.CreatedRingIdsDistinct | python-engine/ring_grouper.py:14-15 | different rings get different ids |
| RingGrouper.MemberScoresIff | python-engine/ring_grouper.py:18-21 | a score is collected iff some account listed in the cycle has it |
| RingGrouper.RiskInRange | python-engine/ring_grouper.py:24 | with member scores in [0,100], a ring's risk (their mean, 0 if none) is in [0,100] |
| RingGrouper.AssignAllBest | python-engine/ring_grouper.py:37-43 | an untagged account keeps the first of its rings with the highest risk, or stays untouched when no ring lists it |
| RingGrouper.FinalRing | python-engine/ring_grouper.py:37-51 | after clean-up the account has no `temp_risk`, `''` when no ring lists it, else its first best ring's id; nothing else changes |
| RingGrouper.EmptyRingIdIff | python-engine/ring_grouper.py:38-51 | a freshly scored account gets `''` iff no cycle lists it |
| RingGrouper.SortByRiskSortedPermutation | python-engine/ring_grouper.py:54 | the sorted rings have non-increasing risk and are a permutation of the input |
| RingGrouper.SortByRiskStable | python-engine/ring_grouper.py:54 | rings of equal risk keep their creation order, as in Python's stable sort |
| Output.GenerateJsonOutput | python-engine/output.py:3-46 | projects each account and ring onto the contract fields, rounds scores to 2 places, fills `ring_id` with `''`, and counts and fills the summary |
| Output.CountFlaggedIsIndexCount | python-engine/output.py:32 | the flagged count is the number of positions whose rounded score exceeds 50 |
| Output.CountFlaggedBounded | python-engine/output.py:32 | the count is at most the total; it equals the total iff all are flagged, and is 0 iff none is |
| Output.FlaggedAtMostTotal | python-engine/output.py:38-41 | in the summary, `suspicious_accounts_flagged` ≤ `total_accounts_analyzed` |
| Engine.CalculateSuspicionScore | python-engine/main.py:7-24 | the loop yields `min(Σ points, 100)` |
| Engine.SuspicionScoreInRange | python-engine/main.py:24 | the score is in [0,100] |
| Engine.SuspicionScoreMonotone | python-engine/main.py:16-24 | appending patterns never lowers the score |
| Engine.PatternPointsIgnoreCase | python-engine/main.py:17-22 | a name scores exactly as its lower-cased form does |
| Engine.PatternPointsElifOrder | python-engine/main.py:17-22 | `cycle` wins with 40; otherwise `velocity` or `peel` gives 30; otherwise 0 |
| Engine.PatternPointsExamples | python-engine/main.py:17-22 | example of `PatternPointsElifOrder`: `cycle_velocity` scores 40 (only its first match); `VELOCITY` scores 30 |
| Engine.SuspicionScoreCapped | python-engine/main.py:24 | example of `SuspicionScoreInRange` at its bound: two cycles and a velocity hit (110 points) are capped at 100 |
| Engine.KnownPatternPoints | python-engine/main.py:10-14 | the driver's own names score 40, 30 and 30 |
| Engine.AssignCycleRings | python-engine/main.py:60-66 | the cycle loop, numbering from 1, yields `CycleRingMap`, and the counter it leaves is one past the number of cycle groups |
| Engine.AssignPeelRings | python-engine/main.py:68-73 | the peel loop, numbering on from the counter it is given, only fills unmapped accounts (`PeelRingMap`), and advances the counter by the number of peel chains |
| Engine.AssignRings | python-engine/main.py:59-73 | the peel loop starts from the counter the cycle loop leaves; together they yield `AccountToRing`, and the final counter is one past the number of groups |
| Engine.AccountToRingAt | python-engine/main.py:59-73 | an account is mapped iff some group lists it; it takes the LAST cycle group listing it, else the FIRST peel chain listing it; peel ids are numbered after the cycles |
| Engine.EnumerationSize | python-engine/main.py:52-56 | an order that visits each element of a set exactly once is as long as the set is large |
| Engine.BuildSuspiciousAccounts | python-engine/main.py:75-92 | with `order` visiting each account of the union of the three node sets exactly once, there is one record per suspicious account, in that order, as many as the union has elements; each holds its patterns (never empty), its score and its ring id or null |
| Engine.DetectedPatternsIff | python-engine/main.py:76-83 | `cycle`, `velocity` and `peel` are listed iff the account is in the matching set, in that order; the list is empty iff the account is in none |
| Engine.DetectedPatternsScore | python-engine/main.py:76-85 | the resulting score is 40 for cycle, plus 30 for velocity, plus 30 for peel |
| Engine.BuildRingTableAsWritten | python-engine/main.py:95-110 | both loops as written build `RingTableAsWritten` |
| Engine.CycleEntriesCollapse | python-engine/main.py:98-103 | as written, all cycle groups collapse into one entry `RING_001` that holds the last group |
| Engine.RingTableAsWrittenLosesGroups | python-engine/main.py:98-110 | counterexample: with two cycle groups, account `a` points to `RING_001`, which does not list it, and `RING_002` has no entry |
| Engine.BuildSequentialRingTable | python-engine/main.py:95-110 | corrected table: group k (cycles, then peel chains) is keyed `RING_k` as `account_to_ring` numbers it |
| Engine.RingTableKeysDistinct | python-engine/main.py:95-110 | the corrected keys are pairwise distinct |
| Engine.RingTableAgreesWithAccounts | python-engine/main.py:59-110 | with the corrected table, each mapped account's ring id keys an entry that lists the account |
| Engine.BuildFraudRings | python-engine/main.py:112-125 | one ring per table entry, in order, with the rounded mean score of the accounts it lists |
| Engine.RiskInRange | python-engine/main.py:113-118 | before rounding, a ring's risk is in [0,100] |
| Engine.BuildReportRings | python-engine/main.py:95-125 | with the corrected table, ring k is keyed `RING_k` and holds group k (cycles, then peel chains), its type and the rounded mean score of the records listing its members |
| Engine.RecordsLinkToRings | python-engine/main.py:59-125 | every record with a ring id names a ring of the report that lists its account |
| Engine.Assemble | python-engine/main.py:51-139 | the report: one record per suspicious account with its patterns, score and ring id; ring k with id `RING_k`, its group's members and type and its rounded mean member score; summary counts as the driver fills them, with the flagged count equal to the size of the suspicious set; and every record's ring id names a ring that lists the account |
| Contract.ValidateContract | validate_contract.py:11-108 | the sequence of checks yields `Validate(data)`: errors in order, or `Crashed` where Python raises |
| Contract.CheckAccounts | validate_contract.py:22-45 | the account loop yields `AccountsErrors`; an account that raises ends the run |
| Contract.AccountsErrorsGrow | validate_contract.py:22-45 | checking more accounts only appends errors: the errors of the first j accounts are a prefix of all of them |
| Contract.CheckRings | validate_contract.py:48-75 | the ring loop appends `RingsErrors`; a ring that raises ends the run |
| Contract.CheckSummary | validate_contract.py:78-91 | the summary checks append `SummaryErrors` |
| Contract.MissingRootKeysOneError | validate_contract.py:16-19 | a dictionary missing a root key yields exactly one error, listing its keys |
| Contract.RingIdAccepted | validate_contract.py:57 | ids in the grouper's format pass the `RING_\d{3}` check iff the number is below 1000 |
| Contract.MatchesRingIdIff | validate_contract.py:44 | the pattern accepts exactly `RING_nnn` for n < 1000, optionally followed by one newline |
| Contract.AccountRingIdRule | validate_contract.py:42-45 | a non-string ring id is one error; a non-empty string that fails the format is another; `''` passes |
| Contract.AccountScoreRule | validate_contract.py:34-37 | a score error is raised iff the value is not a number, or is a number outside [0,100] |
| Contract.RingIdRule | validate_contract.py:57-58 | a ring-id error is raised iff the id is absent or fails the format |
| Contract.RingMembersRule | validate_contract.py:61-64 | a members error is raised iff the value is not a list, or is a list of fewer than 2 |
| Contract.RingPatternRule | validate_contract.py:67-69 | a pattern error is raised iff the type is not one of cycle, smurfing, shell |
| Contract.RingRiskRule | validate_contract.py:72-75 | a risk error is raised iff the value is not a number, or is a number outside [0,100] |
| Contract.SummaryCountRule | validate_contract.py:86-88 | each of the three counts that is not an integer gets its own error |
| Contract.CamelCaseIff | validate_contract.py:94-104 | `has_camel_case` reports exactly the keys containing a lower-then-upper letter pair at any depth, each at its path |
| Contract.ReportedSections | validate_contract.py:11-108 | `Validate`'s definition, unfolded for the lemmas below: a returned report lists the accounts' errors, then the rings', then the summary's, then the camelCase keys |
| Contract.ReportedAccountError | validate_contract.py:22-45 | in a returned report, the account errors are exactly each account's own errors under its index |
| Contract.ReportedRingError | validate_contract.py:48-75 | in a returned report, the ring errors are exactly each ring's own errors under its index |
| Contract.ReportedRingIdInvalid | validate_contract.py:57-58 | ring `idx` is reported with an invalid id iff it exists and its id is absent or malformed |
| Contract.ReportedAccountRingIdInvalid | validate_contract.py:42-45 | account `idx` is reported with invalid ring id `s` iff its `ring_id` is the non-empty `s` and fails the format |
| GraphUtils.LoadTransactionEdges | lib/graphUtils.ts:15-42 | a failed load gives `[]`; otherwise one edge per data line after the header, in line order |
| GraphUtils.EdgeCount | lib/graphUtils.ts:23-35 | the number of edges is the number of lines after the header that have at least four fields |
| GraphUtils.EdgeFromLine | lib/graphUtils.ts:23-35 | an edge is produced iff it is the edge of some line after the header |
| GraphUtils.EdgeCountBounded | lib/graphUtils.ts:23-35 | there are never more edges than lines after the header |
| GraphUtils.HeaderIgnored | lib/graphUtils.ts:23 | the first line never matters |
| GraphUtils.LineEdgeFields | lib/graphUtils.ts:24-33 | an edge copies trimmed fields 0, 1 and 3, with field 3 as both timestamps; fields past the fourth are ignored |
| GraphUtils.ShortLineSkipped | lib/graphUtils.ts:26 | a line with fewer than three commas gives no edge |
| GraphUtils.GenerateGraphEdges | lib/graphUtils.ts:48-94 | the links are those of the cycle rings followed by the chain of accounts without a ring |
| GraphUtils.CycleLinksRotate | lib/graphUtils.ts:55-58 | a cycle ring's sources are its members in order; its targets are the members rotated by one |
| GraphUtils.RingLinkCount | lib/graphUtils.ts:52-73 | only cycle rings contribute, each as many edges as it has members |
| GraphUtils.RingLinkFrom | lib/graphUtils.ts:52-73 | an edge comes from the rings iff some cycle ring's loop contains it |
| GraphUtils.ChainShape | lib/graphUtils.ts:77-79 | the chain has max(0, min(k−1, 5)) edges, each linking neighbouring ring-less accounts |
| GraphUtils.NonRingAccountsIff | lib/graphUtils.ts:76 | the chain runs over exactly the accounts whose ring id is null or empty |
| Common.Pad3Value | python-engine/ring_grouper.py:15 | `{n:03d}` spells n in digits and is as wide as 3 or as n's plain decimal form |
| Common.RingIdInjective | python-engine/main.py:63 | distinct ring numbers give distinct ring ids |
| Common.DecimalRoundTrip | python-engine/scoring.py:35 | the decimal form `f"{n}"` reads back as n |
| Common.ContainsIff | python-engine/main.py:17 | the scan behind `sub in s` succeeds iff `sub` occurs as a contiguous slice |
| Common.SplitJoin | lib/graphUtils.ts:20 | `split` is inverted by `join` with the same separator |
| Common.SplitPiecesFree | lib/graphUtils.ts:24 | no piece of a split contains the separator |
| Common.TrimIsInfix | lib/graphUtils.ts:28 | trimming gives the piece `s[i..j]` of the input: everything it removes before `i` and from `j` on is white space, and the piece has no white space at either end |
| Common.MeanBounds | python-engine/ring_grouper.py:24 | when 0 lies in [lo, hi] (the mean of no values is 0), the mean of values in [lo, hi] is in [lo, hi], and the mean times the count is the sum |

## Left out

- Floating point: scores, weights and risks are exact reals, and `round(x, n)` is a parameter. No rounding error, NaN or infinity is modelled.
- `json.dumps`, printing, `time.time`, `sys.argv` and the usage exit are I/O and are not modelled. The elapsed time is a parameter.
- `pd.read_csv` is not modelled: `build_graph` takes the parsed rows, with `None` for an NA cell.
- The `type` attribute strings (`'account'`, `'uses_ip'`, …) are enumerations.
- `nx.simple_cycles` is not modelled. Its result is an input, `None` when it raises. Only the filter and the bare `except` are modelled.
- In `detect_temporal_velocity`:
  - the `hours` field is stored as whole seconds, with no rounding;
  - the `isoformat()` timestamps are stored as the numbers themselves;
  - the `df` argument is unused in the source and left out.
- Detectors.DetectTemporalVelocity: requires `Valid(g)`, so every edge the detector visits carries a `transactions` list. The source raises `KeyError` otherwise; that exception is not modelled.
- `Graph.nodes()`, `predecessors` and `successors` orders are inputs of the transfer graph. Python set iteration order in `main.py` is the input `order`, which must visit each element of the set exactly once; which order Python picks is not modelled.
- main.py wiring:
  - `main.py` imports `prune_isolated_nodes`, which `graph_builder.py` does not define;
  - it calls `detect_all_patterns` with one argument instead of two;
  - it reads the keys `cycle_nodes`, `velocity_nodes`, `peel_nodes`, `cycle_groups` and `peel_groups`, which the detectors never produce.
  - So `Engine` works over an abstract `Results` record, and the end-to-end pipeline from CSV to report is not composed.
- Engine.Assemble: the report is built from the corrected ring table, not the one as written. See Findings.
- Validator messages:
  - their text is not modelled; each `Error` carries the index, the value or the path the message shows;
  - the set reprs in "Expected/Got" messages, whose order is hash order, become key lists.
- The validator's `__main__` block is I/O and is not modelled: reading the file and printing the result.
- JSON objects are item lists with first-match lookup. `json.load` gives distinct keys; duplicate keys are not modelled further.
- `\d` is modelled as ASCII digits only, and `str.lower` as ASCII case folding only.
- `lib/graphUtils.ts`:
  - for cycle and chain edges, amounts and timestamps come from `Math.random` and `Date.now` and are not modelled: only each edge's source and target;
  - `fetch`, `console.error` and the `async` machinery are not modelled: the response text is an input.

## Findings

| source | as written | input that shows it | evidently intended | confidence | as-written member | corrected member |
|---|---|---|---|---|---|---|
| python-engine/main.py:99 | each cycle group's key is `RING_{len(fraud_rings) + 1:03d}`, but `fraud_rings` is still empty, so every cycle group is stored under `RING_001` and only the last survives | `cycle_groups = [["a","b","c"], ["d","e","f"]]`, no peel groups: `account_to_ring` maps `a` to `RING_001` and `d` to `RING_002`, but `RING_001` lists d, e, f and `RING_002` has no entry | number the table entries as `account_to_ring` does (cycles 1…c, then peel chains c+1…), so each account's ring id names a ring that lists it | not executed | Engine.RingTableAsWrittenLosesGroups | Engine.RingTableAgreesWithAccounts |
