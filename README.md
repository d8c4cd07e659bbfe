# Fraud-graph dashboard: the graph engine, response shaping and seeder

This project is a Dafny model of the data-shaping core of a fraud-investigation
dashboard. The dashboard draws users and transactions as a relationship graph:
credit and debit arrows between users and the transactions they send and
receive, dashed links between users who share an email, phone, address or
payment method, and links between transactions that share an IP address or a
device. The model covers:

- the browser side (`frontend/src/App.jsx`):
  - the attribute indexers (value → ids);
  - the graph assembler `buildGraphNodes`, with its node and edge
    deduplication, degree counting and dot sizing;
  - the relation-card filter presets;
  - the activity histogram;
  - the transaction panel's shared-link search (`findShared`), its focused
    graph and its detail list;
  - the paging arithmetic of the lists and panels;
- the backend (`backend/main.py`):
  - the deduplicating bucketing of relationship query rows;
  - the WHERE clause, parameters and sort direction of the transaction list;
  - the `SKIP`/`LIMIT` window of the transaction list and its `total` field;
- the deterministic parts of the seeder (`scripts/seed_data.py`):
  - identifier and phone formats;
  - risk score and status;
  - the receiver drawn apart from the sender;
  - batch slicing.

The imperative parts keep their form:
- The dashboard assembler is the class `DashboardGraph.GraphBuilder`. Its fields
  are the node and edge arrays, the seen-sets and the degree table, and it has
  one method per helper and per loop.
- The transaction panel's builder is `TxFocusGraph.FocusBuilder`.
- The index builders, `findShared`, the histogram loop (over arrays), the row
  bucketing and the batch loop are methods with loops. The WHERE builder and the
  risk accumulation are straight-line methods, as in the source.
- Each method is proved equal to a pure reference definition: `Run`/`Replay` of
  the list of insertions the code attempts, `IndexOf`, `MapLinks`, `TallyOf`,
  `Kept`/`Select`, `Filters`/`Params`, `RiskOf`, `Flatten`. The properties are
  lemmas about those definitions.

Representation choices:
- Missing, `null` and empty JavaScript fields are all the empty string.
- A JavaScript object used as a dictionary is an `Index`: the insertion-ordered
  keys plus a map.
- Node sizes are in half-units: twice `min(10 + 1.5·degree, 30)`.
- Risk is in hundredths and amounts in paise.
- Timestamps are integer instants, already parsed.

Four behaviours of the code that a reader may not expect are proved as
lemmas:
- The transaction panel links every pair of a touched attribute group, so it
  also links two users neither of whom is a sender or receiver
  (`TxFocus.UninvolvedUsersLinked`).
- The panel keeps one seen-set for the focal transaction and its users, so a
  sender whose id equals the transaction id draws no dot, while its credit edge
  is still drawn (`TxFocusProps.SelfSenderLeavesBoxAlone`).
- Relationship rows whose node has no `id` collapse into one per relationship
  type (`Connections.MissingIdsCollapse`).
- `order=DESC` in capitals sorts ascending (`TxQuery.OrderDirIff`).

The seeder's cap at 1.0 never binds: the highest score is 0.95
(`Seed.RiskRange`).

## Model

| member | source | states |
|---|---|---|
| Records.ClassOf | frontend/src/App.jsx:471-472 | a transaction is drawn flagged exactly when its status is "flagged", review exactly when it is "review", and clear otherwise, a missing status included |
| Records.StatusOfMeaning | frontend/src/App.jsx:516 | the looked-up status is that of the first transaction with the id, and "clear" when no transaction has it |
| Filters.FilterByRelType | frontend/src/App.jsx:680-692 | "all" switches every category on; each other card switches on exactly its node kind(s) and its relation (e.g. "ip" gives only txs and ip, "sent" only users, txs, credit and debit); an unknown card leaves the filters unchanged |
| AttributeIndex.IndexOfMeaning | frontend/src/App.jsx:634-643 | a value is a key exactly when it is non-empty and some record carries it; its list is exactly the ids of the records carrying it, in input order, repeats kept; keys are listed once each |
| AttributeIndex.EmptyValueNeverIndexed | frontend/src/App.jsx:635-638 | a record with an empty or missing field contributes nothing: the empty value is never a key |
| AttributeIndex.BuildUserIndices | frontend/src/App.jsx:634-639 | the four loops build exactly the email, phone, address and payment indices of the user list |
| AttributeIndex.BuildTxIndices | frontend/src/App.jsx:640-643 | the loop builds exactly the IP and device indices of the transaction list |
| Pairs.AllPairsExactly | frontend/src/App.jsx:496-497 | the nested loops visit the index pair (a, b) exactly when a < b < n |
| Pairs.AllPairsCount | frontend/src/App.jsx:496-497 | the nested loops visit n(n-1)/2 pairs |
| Pairs.RowsSorted | frontend/src/App.jsx:496-497 | the pairs come in lexicographic (i, j) order |
| Pairs.RowAt | frontend/src/App.jsx:497 | the k-th step of the inner loop of row i visits (i, i+1+k) |
| Graph.DedupEdgesDrawn | frontend/src/App.jsx:440-445 | every drawn edge was requested, and no more edges are drawn than requested |
| Graph.DedupEdgesKeys | frontend/src/App.jsx:440-445 | the drawn edges carry exactly the keys of the requested ones |
| Graph.DedupEdgesDistinct | frontend/src/App.jsx:441-443 | no two drawn edges share a key |
| Graph.DedupEdgesFirstWins | frontend/src/App.jsx:441-443 | the first request with each key is the one drawn |
| Graph.KeysOfMembers | frontend/src/App.jsx:443 | the seen-set holds exactly the keys of the requested edges |
| Graph.DifferentLabelsDifferentKeys | frontend/src/App.jsx:441 | the same pair under two labels (e.g. two shared values) has two keys, so both edges are drawn |
| Graph.KeyInjective | frontend/src/App.jsx:441 | when the separator's first character is in no id, equal keys mean the same endpoints and label |
| DashboardSpec.CaptionNamesRelation | frontend/src/App.jsx:499 | a caption's head names its relation, whatever value follows it |
| DashboardSpec.Bump | frontend/src/App.jsx:431 | bumping x raises x's degree by one and no other |
| DashboardSpec.RunNodes | frontend/src/App.jsx:452-480 | the drawn nodes are the attempted insertions with repeated ids dropped, and the seen-sets hold exactly the ids attempted |
| DashboardSpec.RunEdges | frontend/src/App.jsx:440-450 | the drawn edges are the attempted `addEdge` calls with repeated keys dropped, and the seen-set holds exactly their keys |
| DashboardSpec.RunDegree | frontend/src/App.jsx:444 | the degree table is the one obtained from the drawn edges alone, a skipped duplicate counting nothing |
| DashboardSpec.DegreeTableCounts | frontend/src/App.jsx:431 | a node's degree is the number of drawn edge ends at it |
| DashboardSpec.RunConcat | frontend/src/App.jsx:465-545 | running the phases one after the other is running their concatenation |
| DashboardSpec.ApplyKeepsClosed | frontend/src/App.jsx:452-499 | an edge whose ends are drawn keeps every drawn edge between drawn nodes, and no step forgets a seen id |
| DashboardSpec.HalfSize | frontend/src/App.jsx:549 | a dot's size lies between 10 and 30 and reaches the cap exactly from degree 14 |
| DashboardSpec.Sized | frontend/src/App.jsx:548-550 | the sizing pass keeps the node count and resizes node by node |
| DashboardNodes.SizeMonotone | frontend/src/App.jsx:548-550 | more edges never make a dot smaller, the dot keeps its id, and a box is never resized |
| DashboardNodes.TouchesGrow | frontend/src/App.jsx:444 | appending edges never lowers a degree |
| DashboardNodes.DedupNodesSeen | frontend/src/App.jsx:452-480 | the dots drawn are exactly the users ensured, and the boxes exactly the transactions inserted |
| DashboardNodes.DedupNodesUnique | frontend/src/App.jsx:453-470 | no user id and no transaction id is drawn twice |
| DashboardNodes.SeenTxsMembers | frontend/src/App.jsx:469-470 | a transaction id is seen exactly when some step inserted its box |
| DashboardNodes.FirstBoxWins | frontend/src/App.jsx:469-480 | the first insertion of a transaction's box is the one drawn |
| DashboardNodes.BoxClassFixedAtFirst | frontend/src/App.jsx:514-518 | a box keeps the colour class of its first insertion, whatever later lookups say |
| DashboardNodes.SizedKeepsIds | frontend/src/App.jsx:548-550 | sizing changes no id and no kind, and keeps the nodes unique |
| DashboardProps.GroupEdgesArePairs | frontend/src/App.jsx:494-540 | a group of fewer than two ids adds no edge; otherwise its edges are the pairs of its first CapFor ids, in loop order, captioned with the value |
| DashboardProps.GroupEdgeCount | frontend/src/App.jsx:495-512 | a group adds c(c-1)/2 edge requests, where c is its size for user attributes and min(size, 8) for IP and device |
| DashboardProps.ContextGroupAtMost28 | frontend/src/App.jsx:512 | an IP or device group adds at most 28 edge requests |
| DashboardProps.GroupEdgeMembers | frontend/src/App.jsx:494-540 | an edge is requested by a group exactly when it joins ids a < b inside the capped prefix |
| DashboardProps.SharedRowsEdges | frontend/src/App.jsx:496-500 | the user-attribute loops request the pair edges in (i, j) order |
| DashboardProps.ContextRowsEdges | frontend/src/App.jsx:513-541 | the IP/device loops request the pair edges of the capped prefix in (i, j) order; the box insertions in between add no edges |
| DashboardProps.PairEdgeIsPair | frontend/src/App.jsx:496-499 | every pair edge joins ids[a] and ids[b] for some a < b within the bound |
| DashboardProps.PairIsPairEdge | frontend/src/App.jsx:496-499 | every a < b within the bound yields its pair edge |
| DashboardFilters.TxOpsEdges | frontend/src/App.jsx:481-482 | a transaction requests its credit edge only when users, txs and credit are all on, and its debit edge only when users, txs and debit are all on |
| DashboardFilters.TxsEdgesDisable | frontend/src/App.jsx:466-483 | switching credit or debit off removes exactly those requests from the transaction phase |
| DashboardFilters.SectionEdgesShape | frontend/src/App.jsx:492-494 | a switched-off section requests nothing, and every edge a section requests carries its relation and a caption naming it |
| DashboardFilters.BuildEdgesShaped | frontend/src/App.jsx:466-545 | every requested edge's relation is allowed by the filters (users and the flag for user attributes, txs and the flag for IP/device) and is captioned by it |
| DashboardFilters.BuildEdgesDisable | frontend/src/App.jsx:466-545 | switching one category off removes exactly that relation's requests |
| DashboardFilters.DedupWithout | frontend/src/App.jsx:441-443 | when no key is shared across relations, removing a relation and deduplicating commute |
| DashboardFilters.SeparatedByCaption | frontend/src/App.jsx:441 | edges with relation-naming captions and bar-free ids never share a key across relations |
| DashboardFilters.DrawnEdgesAllowed | frontend/src/App.jsx:425-553 | every drawn edge's relation is switched on by the filters |
| DashboardFilters.DisableRemovesExactlyItsEdges | frontend/src/App.jsx:425-553 | with bar-free ids, the edges drawn with one category off are the full drawn edges minus exactly that relation's, in order |
| DashboardGraph.GraphBuilder.constructor | frontend/src/App.jsx:426-429 | the assembler starts with empty arrays, seen-sets and degree table |
| DashboardGraph.GraphBuilder.BumpDegree | frontend/src/App.jsx:431 | `bumpDegree`: the degree table gains one at x |
| DashboardGraph.GraphBuilder.AddEdge | frontend/src/App.jsx:440-450 | `addEdge`: skips a seen key, and otherwise records the key, bumps both ends and appends the edge; the edge's ends stay drawn |
| DashboardGraph.GraphBuilder.EnsureUser | frontend/src/App.jsx:452-463 | `ensureUser`: a dot is appended only for an unseen id, and afterwards the id is seen |
| DashboardGraph.GraphBuilder.EnsureTx | frontend/src/App.jsx:469-480 | a box is appended only for an unseen transaction id, and afterwards the id is seen |
| DashboardGraph.GraphBuilder.AddTxNodes | frontend/src/App.jsx:468-480 | afterwards the sender and receiver are drawn when users is on, and the transaction when txs is on |
| DashboardGraph.GraphBuilder.AddTxEdges | frontend/src/App.jsx:481-482 | the credit and debit edges under their three-flag conditions |
| DashboardGraph.GraphBuilder.AddTransaction | frontend/src/App.jsx:467-482 | one transaction's nodes, then its edges |
| DashboardGraph.GraphBuilder.AddTransactions | frontend/src/App.jsx:466-483 | the transaction phase, in input order |
| DashboardGraph.GraphBuilder.AddSharedPair | frontend/src/App.jsx:498-499 | both users, then their edge |
| DashboardGraph.GraphBuilder.AddSharedRow | frontend/src/App.jsx:497-500 | the inner loop of one user-attribute row |
| DashboardGraph.GraphBuilder.AddSharedRows | frontend/src/App.jsx:496-500 | the nested loops of one user-attribute group |
| DashboardGraph.GraphBuilder.AddSharedGroup | frontend/src/App.jsx:494-501 | a user-attribute group: nothing below two ids, every pair otherwise, with no cap |
| DashboardGraph.GraphBuilder.AddContextPair | frontend/src/App.jsx:527-539 | the j box when unseen, then the edge |
| DashboardGraph.GraphBuilder.AddContextRow | frontend/src/App.jsx:514-540 | the i box when unseen, then the row's inner loop |
| DashboardGraph.GraphBuilder.AddContextGroup | frontend/src/App.jsx:510-541 | an IP/device group: nothing below two ids, otherwise the loops over the first min(size, 8) ids |
| DashboardGraph.GraphBuilder.AddIndex | frontend/src/App.jsx:494-501 | one map's groups in Object.entries order |
| DashboardGraph.GraphBuilder.AddSection | frontend/src/App.jsx:492-494 | nothing when the section is off, otherwise its map |
| DashboardGraph.GraphBuilder.AddUserSections | frontend/src/App.jsx:486-503 | the four user-attribute sections, only when users is on |
| DashboardGraph.GraphBuilder.AddContextSections | frontend/src/App.jsx:506-545 | the IP and device sections, only when txs is on |
| DashboardGraph.GraphBuilder.ScaleUserSizes | frontend/src/App.jsx:548-550 | every dot is resized from its degree, and boxes are kept |
| DashboardGraph.Resized | frontend/src/App.jsx:548-550 | the resize pass keeps the node count and resizes node by node |
| DashboardGraph.SharedGroupOps | frontend/src/App.jsx:494-500 | a user-attribute group of two or more ids runs all its rows, uncapped |
| DashboardGraph.ContextGroupOps | frontend/src/App.jsx:510-512 | an IP/device group of two or more ids runs the rows of its first min(size, 8) ids |
| DashboardGraph.BuildGraphNodes | frontend/src/App.jsx:425-553 | the drawn edges are the requests in phase order with repeated keys dropped; the nodes are the unique insertions, each dot sized by its count of drawn edge ends; no user id and no transaction id is drawn twice; every edge joins drawn nodes of the kinds its relation connects |
| Histogram.MinOf | frontend/src/App.jsx:594 | the earliest instant is one of them and no later than any |
| Histogram.MaxOf | frontend/src/App.jsx:594 | the latest instant is one of them and no earlier than any |
| Histogram.Span | frontend/src/App.jsx:595 | the span is at least 1, and is 1 exactly when the range is 0 or 1 wide |
| Histogram.BinOf | frontend/src/App.jsx:601 | every instant in range falls in one of the 12 bins |
| Histogram.BinMonotone | frontend/src/App.jsx:601 | later instants never fall in earlier bins |
| Histogram.BinEnds | frontend/src/App.jsx:601 | the earliest instant falls in the first bin, and the latest in the last when the range is not empty |
| Histogram.TimesAbove | frontend/src/App.jsx:593-594 | every parsed instant is at or after the minimum |
| Histogram.Increment | frontend/src/App.jsx:602 | `bins[b]++`: the array is the old one with bin b raised by one |
| Histogram.Visit | frontend/src/App.jsx:599-605 | one iteration updates the three arrays and the seen-set as the reference step does |
| Histogram.CountBins | frontend/src/App.jsx:596-606 | the loop's arrays and seen-set are the reference tally of the transactions |
| Histogram.BuildBars | frontend/src/App.jsx:591-606 | no chart for an empty fetch; otherwise the tally over the range of the instants |
| Histogram.TallyTxTotals | frontend/src/App.jsx:600-603 | the transaction bins add up to the parsed transactions, the flagged bins to the flagged ones, and no bin has more flagged than transactions |
| Histogram.TallyUserTotals | frontend/src/App.jsx:604-605 | the seen-set is the set of parties of the transactions with an instant, and the user bins add up to their number |
| Histogram.TallyTxBins | frontend/src/App.jsx:599-603 | bin b of the transaction row holds the number of transactions whose instant falls in bin b, and bin b of the flagged row the number of flagged ones among them |
| Histogram.FirstBinIsFirst | frontend/src/App.jsx:604-605 | the bin a user is counted in is the bin of the earliest transaction with an instant that involves them |
| Histogram.UserBinStep | frontend/src/App.jsx:604-605 | one transaction adds to its own bin exactly its sender and receiver not seen before, counting a self-transfer once, and adds nothing to any other bin |
| Histogram.TallyUserBins | frontend/src/App.jsx:599-605 | bin b of the user row holds the number of users whose first transaction with an instant falls in bin b |
| Histogram.BarsBins | frontend/src/App.jsx:591-606 | in the chart, each bin holds exactly its transactions, its flagged transactions and the users first seen in it |
| Histogram.NoTimesNone | frontend/src/App.jsx:599-600 | with no instant, every bin is empty |
| Histogram.BarsTotals | frontend/src/App.jsx:591-606 | there is a chart exactly when the fetch is non-empty; its three rows each have 12 bins and add up to the totals above |
| Histogram.NoTimesNoParties | frontend/src/App.jsx:599-600 | when no timestamp parses, nothing is counted |
| Histogram.SumBump | frontend/src/App.jsx:602 | raising one bin raises the total by one |
| Pagination.PageSize | frontend/src/App.jsx:1114-1115 | every page before the last is full, the last holds the remainder (at least one item), and pages past the end are empty |
| Pagination.PagesPartition | frontend/src/App.jsx:1114-1115 | the pages from first to last show every item once, in order |
| Pagination.CeilBounds | frontend/src/App.jsx:1114 | the page count is the least t with n ≤ t·per, and 0 for an empty list |
| Pagination.NextEnabledIffMorePages | frontend/src/App.jsx:1163 | Next is enabled exactly when a further page exists |
| Pagination.RangeCaption | frontend/src/App.jsx:1159 | the caption's end is the position of the last item shown, and its start is not after it |
| Pagination.SkipSteps | frontend/src/App.jsx:934-936 | from skip 0 the list only reaches multiples of the limit; Next moves one page on, Prev one page back but never before page 1 |
| TxDetail.Spaced | frontend/src/App.jsx:1237 | every underscore becomes a space and no other character changes |
| TxDetail.DetailHead | frontend/src/App.jsx:1233-1235 | the list has one row per sender, per receiver, two per link and one per linked transaction; it opens with the senders, then the receivers, each typed by direction |
| TxDetail.DetailLinks | frontend/src/App.jsx:1236 | next come both ends of each shared link, in link order, typed by its relation |
| TxDetail.DetailLinked | frontend/src/App.jsx:1237 | the list ends with the linked transactions, typed by their link with spaces for underscores |
| TxDetail.DetailPaging | frontend/src/App.jsx:1306-1307 | paging the list shows every row once, in order, at most six to a page |
| TxFocus.LinkedIdsMembers | frontend/src/App.jsx:1209-1210 | an id is a sender (receiver) exactly when some user entry with that id has link type INITIATED (RECEIVED) |
| TxFocus.AppendRow | frontend/src/App.jsx:1225-1226 | the inner loop appends row i's links in j order |
| TxFocus.AppendPairLinks | frontend/src/App.jsx:1224-1226 | the nested loops append one link per pair a < b, in (i, j) order |
| TxFocus.FindShared | frontend/src/App.jsx:1222-1227 | `findShared` appends, entry by entry, the links of each touched group of two or more ids |
| TxFocus.LoadSharedLinks | frontend/src/App.jsx:1213-1229 | the panel builds the four user indices and then the links of the email, phone, address and payment maps, in that order |
| TxFocus.GroupLinksMembers | frontend/src/App.jsx:1223-1226 | a group yields a link exactly when it touches a sender or receiver and the link joins ids a < b of the group |
| TxFocus.GroupLinksCount | frontend/src/App.jsx:1223-1226 | a touched group of size k yields k(k-1)/2 links, and an untouched one none |
| TxFocus.MapLinksFromInvolvedGroups | frontend/src/App.jsx:1222-1227 | every shared link comes from a group of two or more ids containing a sender or receiver, and joins two of its members under its value |
| TxFocus.UninvolvedUsersLinked | frontend/src/App.jsx:1223-1226 | two users of a touched group are linked even when neither is a sender or receiver |
| TxFocusGraph.FocusBuilder.constructor | frontend/src/App.jsx:1252-1253 | the panel's builder starts with empty arrays and seen-sets |
| TxFocusGraph.FocusBuilder.AddFocusBox | frontend/src/App.jsx:1270-1274 | the focal box is appended only when its id is unseen |
| TxFocusGraph.FocusBuilder.EnsureUser | frontend/src/App.jsx:1263-1267 | a dot is appended only for an id not yet in the shared seen-set |
| TxFocusGraph.FocusBuilder.AddEdge | frontend/src/App.jsx:1258-1262 | an edge is appended only when its `from|to|label` key is unseen |
| TxFocusGraph.AddCredits | frontend/src/App.jsx:1277 | each sender in order: its dot, then its credit edge |
| TxFocusGraph.AddDebits | frontend/src/App.jsx:1278 | each receiver in order: its dot, then its debit edge |
| TxFocusGraph.AddLinks | frontend/src/App.jsx:1279-1285 | each shared link the filter shows: both dots, then the dashed edge |
| TxFocusGraph.BuildFocusGraph | frontend/src/App.jsx:1249-1288 | the effect produces the nodes and edges of the reference replay |
| TxFocusGraph.ReplayConcat | frontend/src/App.jsx:1270-1285 | running the phases one after the other is running their concatenation |
| TxFocusProps.FocusGraphShape | frontend/src/App.jsx:1249-1288 | the focal box is the first node and carries its status class; every other node is a fresh dot; no id is drawn twice; every edge joins drawn nodes |
| TxFocusProps.FocusGraphKeeps | frontend/src/App.jsx:1263-1285 | the graph keeps its shape through every phase; a graph with no edge shows only the box; and when the focal id is no sender, no receiver and no link's first user, a lone box has no edges |
| TxFocusProps.NoConnectionsNotice | frontend/src/App.jsx:1328-1330 | when the focal id is no sender, no receiver and no link's first user, the "No connections" notice (one node at most) shows exactly when no edge is drawn |
| TxFocusProps.SelfSenderLeavesBoxAlone | frontend/src/App.jsx:1270-1277 | a sender whose id equals the transaction id draws no dot, yet its credit edge is drawn: one node, one edge |
| TxFocusProps.FocusAttempts | frontend/src/App.jsx:1276-1285 | the effect requests the credit edges (for "all"/"credit"), then the debit edges (for "all"/"debit"), then the link edges the filter shows, in order |
| TxFocusProps.FocusEdges | frontend/src/App.jsx:1258-1262 | the drawn edges are the requests with repeated keys dropped: keys are distinct, and every requested key is drawn |
| TxFocusProps.FocusEdgesShown | frontend/src/App.jsx:1276-1285 | every drawn edge is allowed by the filter, and is a sender's credit, a receiver's debit or a shown shared link |
| TxFocusProps.ReplayEdges | frontend/src/App.jsx:1258-1262 | the edge array and key set are the deduplication of the requests |
| Connections.UserConnections | backend/main.py:169-198 | every bucket holds, in row order, the nodes of the kept rows filed under it |
| Connections.TxConnections | backend/main.py:221-240 | `users` holds the kept rows whose labels contain "User", each with its link type, and `linked_transactions` holds the rest |
| Connections.KeptMembers | backend/main.py:178-185 | a row is kept exactly when it is the first with its `<rel>_<id>` key |
| Connections.KeptKeys | backend/main.py:178-185 | kept rows have distinct keys and cover every key met |
| Connections.SelectMembers | backend/main.py:187-198 | a node is in a bucket exactly when some row of the bucket's relationship type carries it |
| Connections.BucketsPartition | backend/main.py:187-198 | every row lands in exactly one bucket or is dropped |
| Connections.EntriesPartition | backend/main.py:236-240 | every kept row lands in exactly one of the two lists |
| Connections.UserEntriesMembers | backend/main.py:236-237 | an entry is in `users` exactly when some row with the User label carries its node and link type |
| Connections.OtherEntriesMembers | backend/main.py:238-240 | an entry is in `linked_transactions` exactly when some row without the User label carries it |
| Connections.NoConnectionsEmpty | backend/main.py:169-176 | the result starts with all six buckets present and empty |
| Connections.MissingIdsCollapse | backend/main.py:182 | two different nodes without an id under one relationship type keep only the first |
| Connections.KeptStep | backend/main.py:182-185 | one loop step: the key joins the seen-set, and the row is kept exactly when its key is new |
| TxQuery.BuildFilters | backend/main.py:111-127 | the appends build the reference clause list and parameter map |
| TxQuery.FiltersPresence | backend/main.py:114-127 | each clause is present exactly when its parameter is given: search and status when non-empty, the amount bounds whenever present, zero included |
| TxQuery.FiltersOrdered | backend/main.py:114-127 | the clauses come in the order search, status, min, max, each at most once |
| TxQuery.ParamsBound | backend/main.py:112-127 | each parameter is bound exactly when its clause is present, and to the value given; skip and limit are always bound |
| TxQuery.ClausesBound | backend/main.py:112-127 | every clause's parameter is bound |
| TxQuery.WhereEmptyIff | backend/main.py:129 | the WHERE part is empty exactly when no filter is given |
| TxQuery.AllFilters | backend/main.py:129 | with every filter given, the WHERE part is the four clauses joined by AND, in order |
| TxQuery.ZeroBoundsFilter | backend/main.py:122-129 | zero amount bounds still filter, while an empty search does not |
| TxQuery.OrderDir | backend/main.py:130 | the direction is DESC or ASC |
| TxQuery.OrderDirIff | backend/main.py:130 | the sort is DESC exactly when order is the lower-case word "desc"; "DESC" sorts ascending |
| TxQuery.Respond | backend/main.py:107-142 | an answer carries a `total` equal to the length of its data and never above the limit |
| TxQuery.RespondWindow | backend/main.py:133-142 | there is an answer exactly when 0 ≤ skip and 0 ≤ limit ≤ 500; its data are the matches from position `skip` on, and `total` is min(limit, matches − skip), the page length, not the number of matches |
| TxQuery.RespondConsecutive | backend/main.py:133-142 | two consecutive pages of one limit concatenate to the page of twice that limit |
| TxQuery.TotalIsPageLength | backend/main.py:142 | with more matches than the limit, `total` is the limit and below the number of matches |
| Seed.ValueZFill | scripts/seed_data.py:64 | the zero-padded decimal of n reads back as n, whatever the width |
| Seed.IdsInjective | scripts/seed_data.py:64 | distinct indices give distinct user ids and distinct transaction ids |
| Seed.IdsApart | scripts/seed_data.py:114 | no user id equals a transaction id, and no id contains a bar |
| Seed.UserIdLength | scripts/seed_data.py:64 | below 100000 users, a user id is seven characters long |
| Seed.PhoneShape | scripts/seed_data.py:29-30 | a 10-digit mobile number gives "+91-", five digits, "-", five digits, and the digits read back as the number |
| Seed.DrawnNumber | scripts/seed_data.py:27-29 | a first digit from 6-9 followed by nine digits is a mobile number |
| Seed.Risk | scripts/seed_data.py:104-108 | the `+=` accumulation computes the reference score |
| Seed.RiskRange | scripts/seed_data.py:104-108 | the score is 5 plus 40 for a shared IP, 30 for a shared device and 20 for a large amount, between 5 and 95, so the cap never applies |
| Seed.StatusBySignals | scripts/seed_data.py:104-109 | flagged exactly with shared IP and shared device; review exactly with a shared IP alone, or a shared device with a large amount; clear otherwise |
| Seed.StatusDrawn | scripts/seed_data.py:109 | flagged above 0.70, review above 0.40, clear otherwise |
| Seed.OthersMembers | scripts/seed_data.py:94 | the receiver candidates are exactly the user ids other than the sender |
| Seed.ReceiverDiffers | scripts/seed_data.py:93-94 | a drawn receiver is a user id other than the sender, and none can be drawn exactly when every id is the sender's |
| Seed.Batches | scripts/seed_data.py:150-151 | the batches are non-empty, full except the last, no larger than the batch size, and concatenate back to the input |

## Left out

- Database access: every Cypher query and `session.run` call. The relationship rows, user lists and transaction lists arrive as parameters.
- `fetch`, `Promise.all`, React state and effects, rendering, vis.js, tooltips (`mkTip`), node colours and the name/email lookups of the detail rows. Only the colour class of a transaction box is kept.
- Floating point: node sizes are modelled in half-units, risk in hundredths and amounts in paise. Timestamps are taken as already parsed integer instants; date parsing, `toLocaleString` and the histogram labels are left out.
- Histogram.BuildBars: takes the transactions in the order given and does not model the client-side re-sort by timestamp, a library call. The backend already returns them in ascending time order. With no parseable timestamp, the model's all-zero bins stand for the code's loop that skips every row.
- Object.entries order for integer-like keys: JavaScript visits those first, in numeric order. The index here keeps insertion order for every key.
- TxFocus.LinkedIdsMembers: the `u.data?.id || u.data` fallback is not modelled. An entry's id is taken as given.
- TxDetail.DetailLinked: the `data?.id || data` fallback for linked transactions (frontend/src/App.jsx:1237) is not modelled either. A linked transaction's id is taken as given.
- The user connection panel's flat list built from the buckets (frontend/src/App.jsx:1098-1106) is not modelled. Only its paging arithmetic is.
- The unchecked `sort_by` field name is not modelled: it is interpolated into the query text and only the database interprets it. The matches reach TxQuery.Respond already ordered.
- AttributeIndex.IndexOf, TxFocus.LoadSharedLinks's attribute maps (frontend/src/App.jsx:1213-1218) and DashboardSpec.Apply: the source keeps these in plain JavaScript objects, so a key such as `constructor`, `toString` or `__proto__` finds an inherited member. In the dashboard's indexers and the transaction panel's attribute maps, `idx[v] || []` then yields that member and `.push` throws. In DashboardSpec.Apply, whose source keeps `seenUsers = {}` and `seenTxs = {}` (frontend/src/App.jsx:427), such a user or transaction id counts as already seen, so its node is never drawn while edges to it are; its `userDegree` entry is likewise not a count. The transaction panel's graph keeps its seen-sets in `Set`s (frontend/src/App.jsx:1253) and is not affected. The model uses true maps and sets: it indexes and draws such values like any other, so it does not capture that failure or those dangling edges.
- The transaction panel's `txId.trim()` and its early return on an empty id (frontend/src/App.jsx:1192-1193) are not modelled. The transaction id reaches the panel's members as given.
- Randomness: every random draw of the seeder is a parameter (the index picked, the first digit and the rest of the phone number, whether the IP or device came from the shared pools, the amount). Faker, addresses and e-mails are left out.
- Seed.ValueZFill: `zfill` is modelled on non-negative numbers only; its handling of a sign never arises for ids.
- Printing, index creation, and the relationship-creation queries of the seeder are left out; they are I/O against the database.
- The analytics endpoints, CSV exports and backend/relationships.py are not part of this model; they are database queries.
