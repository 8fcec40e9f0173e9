# TrailerQL query trees in Dafny

TrailerQL describes a GraphQL query as a tree of four kinds of element:

- a `Field`, a leaf;
- a `Fragment`, a named fragment over a type;
- a `Group`, a selection, optionally paged, with arguments;
- a `BatchGroup`, a `nodes(ids:)` lookup around a template group.

The engine renders a tree as query text and estimates its node cost. It
splits long id lists into batched queries. When a response arrives, it
walks the response JSON along the tree and hands every node it finds to a
per-node callback. For a paged list below a parent node that has more
pages, it appends a follow-up query, unless the last edge has no cursor,
the callback stopped the page, or the root has no scannable shell for the
list. The follow-up query's root is the *shell* of the original
root: a pruned copy of the tree that still reaches the list, now
carrying the list's last cursor.

The model is organised like this:

| module | what it holds |
|---|---|
| `Elements` | the tree as mutually recursive datatypes, with the constructors and clones of each kind |
| `Cost` | the node cost and the batch-size rule |
| `Render` | the query text |
| `FragmentLists` | the `fragments` lists |
| `Shells` | shell pruning (`asShell`) |
| `Nodes` | the `Node` record, its equality and its hashing |
| `Queries` | the `Query` value, its request text and `batching` |
| `ScanSpec` | what a scan produces, as functions |
| `Scanner` | the scan as imperative methods over a log of callback calls and of the shared `extraQueries` list; each method is proved equal to its `ScanSpec` function |
| `Responses` | `processResponse` |
| `RenderExample`, `TextExamples`, `ScanExample` | the worked examples |

Modelling choices:

- **Element ids.** Each element's UUID is a natural number supplied by the caller.
- **The per-node callback.** It becomes an oracle `Node -> bool`: `true` means the callback throws `alreadyParsed` for that node.
- **The `Lista`/`List` collections.** These become sequences.

## Model

| member | source | states |
|---|---|---|
| `Nodes.MakeNode` | Sources/TrailerQL/Node.swift:15-26 | a node exists exactly when the payload has a string `id` and a string `__typename`; it takes both from the payload, keeps payload, parent and relationship, and starts with flags 0 |
| `Nodes.EqualIffSameHashInput` | Sources/TrailerQL/Node.swift:28-37 | two nodes are equal exactly when the hasher is fed the same id and parent id for both |
| `Nodes.EqualIsEquivalence` | Sources/TrailerQL/Node.swift:35-37 | node equality is reflexive, symmetric and transitive |
| `Nodes.NoCycles` | Sources/TrailerQL/Node.swift:7-13 | following `parent` links never comes back to the node |
| `Nodes.NewNodeAncestors` | Sources/TrailerQL/Node.swift:15-26 | a node made below a parent has that parent, then the parent's ancestors, as its ancestors |
| `Elements.NewGroup` | Sources/TrailerQL/Group.swift:18-25 | a new group stores name, parameters, paging and fields, and has no cursor |
| `Elements.CloneGroup` | Sources/TrailerQL/Group.swift:27-34 | a clone keeps id, name, paging and parameters, takes the given cursor, and takes the replacement fields only when they are given |
| `Elements.NewFragment` | Sources/TrailerQL/Fragment.swift:53-58 | a fragment is named after its lowercased type followed by `Fragment` |
| `Elements.CloneFragment` | Sources/TrailerQL/Fragment.swift:46-51 | a fragment clone keeps id, name and type and takes the given elements |
| `Elements.AddingElement` | Sources/TrailerQL/Fragment.swift:60-64 | the new element is appended after the unchanged old ones; the identity is kept |
| `Elements.NewBatchGroup` | Sources/TrailerQL/BatchGroup.swift:10-16 | a batch group is named `nodes` and holds the template and at most 100 ids |
| `Elements.CloneBatchGroup` | Sources/TrailerQL/BatchGroup.swift:18-24 | a batch clone keeps id and name and asks for the one root id only |
| `Elements.FragmentIdentityIsTheName` | Sources/TrailerQL/Fragment.swift:77-83 | equal fragments hash alike; two fragments on the same type are equal; adding an element keeps a fragment equal to itself |
| `Cost.NodeCost` | Sources/TrailerQL/Element.swift:8 | the cost of an element, by its kind: a field nothing, the others as below; its properties are stated by `Cost.FieldCostsNothing`, `Cost.CostNonNegative` and `Cost.SumCostAppend` |
| `Cost.FragmentCost` | Sources/TrailerQL/Fragment.swift:11-13 | a fragment costs the sum of its elements' costs; additivity is `Cost.SumCostAppend` and `Cost.AddingElementCost` |
| `Cost.GroupCost` | Sources/TrailerQL/Group.swift:48-60 | a group pays once per requested row plus its children's cost per row; stated by `Cost.CostIncreasesWithCount`, `Cost.MaxIsFirstHundred` and `Cost.ExampleCostAndLimit` |
| `Cost.BatchCost` | Sources/TrailerQL/BatchGroup.swift:38-41 | a batch group pays one row plus the template's cost for each id; stated by `Queries.BatchQueryCost` |
| `Cost.FieldCostsNothing` | Sources/TrailerQL/Field.swift:8 | a field costs 0 |
| `Cost.SumCostAppend` | Sources/TrailerQL/Fragment.swift:11-13 | the summed cost of children is additive over concatenation |
| `Cost.AddingElementCost` | Sources/TrailerQL/Fragment.swift:60-64 | adding an element adds exactly that element's cost to the fragment |
| `Cost.CostNonNegative` | Sources/TrailerQL/Group.swift:48-60 | with non-negative paging counts no element has negative cost |
| `Cost.GroupCostNonNegative` | Sources/TrailerQL/Group.swift:48-60 | the same for a group |
| `Cost.SumCostNonNegative` | Sources/TrailerQL/Fragment.swift:11-13 | the same for a list of children |
| `Cost.CostIncreasesWithCount` | Sources/TrailerQL/Group.swift:57-58 | asking for more rows with `first` or `last` costs strictly more |
| `Cost.MaxIsFirstHundred` | Sources/TrailerQL/Group.swift:54-58 | `max` paging costs the same as `first: 100` |
| `Cost.FloorDiv` | Sources/TrailerQL/Group.swift:67 | the quotient rounded down, for either sign of the divisor |
| `Cost.RecommendedLimit` | Sources/TrailerQL/Group.swift:62-69 | the limit lies between 1 and 100, and is 100 for a free template |
| `Cost.RecommendedLimitFitsBudget` | Sources/TrailerQL/Group.swift:62-69 | when one row fits the budget, the recommended number of rows fits it too |
| `Cost.RecommendedLimitIsLargest` | Sources/TrailerQL/Group.swift:62-69 | below the cap, one more row would exceed the budget |
| `Cost.TooSmallBudgetAsksForOneRow` | Sources/TrailerQL/Group.swift:68 | a budget below the cost of one row still gives a limit of 1 |
| `Cost.ExampleCostAndLimit` | Sources/TrailerQL/Group.swift:48-69 | `first(count: 2)` over one field costs 2, and a budget of 10 gives a limit of 5 |
| `Render.QueryText` | Sources/TrailerQL/Element.swift:6 | the text of an element, by its kind; stated by `Render.FieldRendersName`, `Render.RenderGroup` and the worked examples |
| `Render.FragmentSpread` | Sources/TrailerQL/Fragment.swift:15-17 | a fragment is used by spreading its name; shown by `TextExamples.FragmentExampleText` |
| `Render.Declaration` | Sources/TrailerQL/Fragment.swift:34-36 | a fragment's declaration names it and its type and lists its elements' texts after `__typename`; shown by `TextExamples.FragmentExampleText` |
| `Render.GroupQueryText` | Sources/TrailerQL/Group.swift:75-131 | the header with its arguments, then the shape of the paging mode around `__typename` and the children's texts; the source's imperative form is `Render.RenderGroup`, and `Render.CursorArgument` and `RenderExample.ExampleSchemaText` state its properties |
| `Render.BatchQueryText` | Sources/TrailerQL/BatchGroup.swift:43-45 | the `nodes(ids:)` selection over the quoted ids and the template's children; stated by `Render.BatchTextIgnoresHeaders` and `TextExamples.BatchExampleText` |
| `Render.BatchTextIgnoresHeaders` | Sources/TrailerQL/BatchGroup.swift:43-45 | a batch group's text depends only on its ids and its template's children, never on its own id or name, or on the template's header, paging, parameters or cursor |
| `Render.FieldRendersName` | Sources/TrailerQL/Field.swift:6 | a field renders as its name |
| `Render.PagingBrackets` | Sources/TrailerQL/Group.swift:79-104 | the switch over the paging mode yields the paging arguments in order and the render shape |
| `Render.AppendParams` | Sources/TrailerQL/Group.swift:106-112 | the parameter loop appends one argument per parameter, in order, quoting strings that do not start with `[` or `{` |
| `Render.RenderGroup` | Sources/TrailerQL/Group.swift:75-131 | the imperative `queryText` equals the header and shape rendering of the group |
| `Render.CursorArgument` | Sources/TrailerQL/Group.swift:87-104 | an `after:` argument appears exactly when the paging mode sends cursors and a cursor is set; the argument list is empty exactly without paging and parameters |
| `RenderExample.ExampleSchemaText` | Tests/TrailerQLTests/TrailerQLTests.swift:29-51 | the test's schema renders as the text the test expects inside the outer braces |
| `RenderExample.ExampleHasNoFragments` | Tests/TrailerQLTests/TrailerQLTests.swift:29-40 | the test's schema holds no fragment |
| `RenderExample.ExampleQueryText` | Sources/TrailerQL/Query.swift:65-67 | the test's full request text: no declarations, the schema in braces, then the rate-limit selection |
| `TextExamples.BatchExampleText` | Sources/TrailerQL/BatchGroup.swift:43-45 | a batch over the ids `A` and `B` renders them quoted and comma-separated, followed by the template's field names only |
| `TextExamples.IssuesDeclareTheFragment` | Sources/TrailerQL/Query.swift:60-63 | a group that spreads one fragment declares exactly that fragment |
| `TextExamples.FragmentExampleText` | Sources/TrailerQL/Query.swift:60-67 | the request opens with the fragment's declaration, and the group spreads the fragment by name |
| `FragmentLists.ChildFragmentsAppend` | Sources/TrailerQL/Group.swift:134-140 | the fragment list of a child list is additive over concatenation |
| `FragmentLists.AppendChildFragments` | Sources/TrailerQL/Fragment.swift:40-42 | the append loop extends the list by every child's fragments, in child order |
| `FragmentLists.CollectGroupFragments` | Sources/TrailerQL/Group.swift:134-140 | a group lists its children's fragments, in order |
| `FragmentLists.CollectFragmentFragments` | Sources/TrailerQL/Fragment.swift:38-44 | a fragment lists itself first, then its children's fragments |
| `FragmentLists.ListedIffOccurs` | Sources/TrailerQL/Fragment.swift:38-44 | a fragment is listed exactly when it occurs in the tree; a field lists nothing |
| `FragmentLists.ChildListedIffOccurs` | Sources/TrailerQL/Group.swift:134-140 | the same for a list of children |
| `Shells.AsShell` | Sources/TrailerQL/Element.swift:10 | a shell carries the id of the element it was cut from, an element with the target's id becomes the target, and the shell of a scannable element is scannable for a scannable target |
| `Shells.Shells` | Sources/TrailerQL/Group.swift:41 | pruning children never yields more children |
| `Shells.FirstNamed` | Sources/TrailerQL/Fragment.swift:28 | finds a child with the name exactly when one exists, and it is the first such child |
| `Shells.FieldShell` | Sources/TrailerQL/Field.swift:14-20 | a field's shell is the target when the ids match and nothing otherwise; stated by `Shells.AsShell` and `Shells.AbsentIdHasNoShell` |
| `Shells.FragmentShell` | Sources/TrailerQL/Fragment.swift:19-32 | the kept child shells and the fragment's own `id` field; stated by `Shells.FragmentShellCarriesIdField`, `Shells.PresentIdHasShell` and `Shells.ShellReachesTarget` |
| `Shells.GroupShell` | Sources/TrailerQL/Group.swift:36-46 | a cursor-less clone around the kept child shells; stated by `Shells.AbsentIdHasNoGroupShell`, `Shells.GroupShellReachesTarget` and `Shells.GroupShellOfChildClone` |
| `Shells.BatchShell` | Sources/TrailerQL/BatchGroup.swift:26-36 | a one-id clone around the template's group shell, only with a root id; stated by `Shells.BatchShellNeedsRootId` and `Shells.BatchRootHasShell` |
| `Shells.ShellsAppend` | Sources/TrailerQL/Group.swift:41 | pruning keeps the children's order and is additive over concatenation |
| `Shells.ShellsOfOne` | Sources/TrailerQL/Group.swift:41-45 | a single child contributes its own shell, or nothing |
| `Shells.AbsentIdHasNoShell` | Sources/TrailerQL/Field.swift:14-20 | an element in which the target's id does not occur has no shell |
| `Shells.AbsentIdHasNoGroupShell` | Sources/TrailerQL/Group.swift:36-46 | the same for a group |
| `Shells.AbsentIdHasNoShells` | Sources/TrailerQL/Fragment.swift:24-27 | the same for a list of children |
| `Shells.PresentIdHasShell` | Sources/TrailerQL/Group.swift:36-46 | in a tree without batch groups, a shell exists once the target's id occurs |
| `Shells.PresentIdHasShells` | Sources/TrailerQL/Fragment.swift:24-27 | the same for a list of children |
| `Shells.ShellReachesTarget` | Sources/TrailerQL/Fragment.swift:19-32 | the target occurs in every shell |
| `Shells.GroupShellReachesTarget` | Sources/TrailerQL/Group.swift:36-46 | the same for a group shell |
| `Shells.ShellsReachTarget` | Sources/TrailerQL/Group.swift:41-45 | the first kept child shell reaches the target |
| `Shells.GroupShellOfChildClone` | Sources/TrailerQL/Group.swift:173-174 | for a cursor-bearing clone of its only child, a group's shell is the group around that clone, with no cursor of its own |
| `Shells.FragmentShellCarriesIdField` | Sources/TrailerQL/Fragment.swift:28-31 | a fragment's shell ends with the fragment's own `id` field when it has one |
| `Shells.BatchShellNeedsRootId` | Sources/TrailerQL/BatchGroup.swift:26-36 | without a root id a batch group has no shell; with one, it has a shell exactly when some child of the template keeps one, and that shell asks for the one id, around the template's pruned children |
| `Shells.BatchRootHasShell` | Sources/TrailerQL/BatchGroup.swift:31-33 | a batch root whose batch-free template contains the target's id has a shell once a root id is given |
| `Queries.FromQuery` | Sources/TrailerQL/Query.swift:28-34 | the copy has the new root and everything else of the original |
| `Queries.RootQueryText` | Sources/TrailerQL/Query.swift:52-58 | below a parent, the root is asked for inside `node(id:) { ... on Type { } }`; shown by `ScanExample.NextPageText` and, without a parent, by `RenderExample.ExampleQueryText` |
| `Queries.FragmentQueryText` | Sources/TrailerQL/Query.swift:60-63 | the declarations of the distinct fragments, space-separated; stated by `Queries.DeclaresEachFragmentOnce` and `TextExamples.FragmentExampleText` |
| `Queries.QueryRequestText` | Sources/TrailerQL/Query.swift:65-67 | the declarations, then the root in braces with the rate-limit selection; stated by `Queries.NoFragmentsNoDeclarations`, `RenderExample.ExampleQueryText` and `TextExamples.FragmentExampleText` |
| `Queries.DistinctByName` | Sources/TrailerQL/Query.swift:61 | de-duplication keeps exactly the names not yet seen, each one once, and keeps only fragments of the input |
| `Queries.DeclaresEachFragmentOnce` | Sources/TrailerQL/Query.swift:60-63 | every fragment name in the tree is declared, and each is declared once; every declared fragment occurs in the tree |
| `Queries.NoFragmentsNoDeclarations` | Sources/TrailerQL/Query.swift:65-67 | without fragments the request is the root text in braces followed by the rate-limit selection |
| `Queries.Chunks` | Sources/TrailerQL/Query.swift:42-48 | every chunk holds between 1 and `batchLimit` ids; there are no chunks exactly for an empty list |
| `Queries.ChunksConcatenate` | Sources/TrailerQL/Query.swift:42-48 | the chunks, concatenated, give back the id list |
| `Queries.ChunkCount` | Sources/TrailerQL/Query.swift:42-48 | the number of chunks is the smallest that holds the list |
| `Queries.BatchLimit` | Sources/TrailerQL/Query.swift:39 | the batch limit lies between 1 and 100 |
| `Queries.Batching` | Sources/TrailerQL/Query.swift:36-50 | one query per chunk, in order; each has the name and callback given, no parent, and a `nodes` batch group over its chunk and the shared template |
| `Queries.BatchesCoverTheList` | Sources/TrailerQL/Query.swift:36-50 | the batch queries ask for every id exactly once, in order, in as few queries as the limit allows |
| `Queries.BatchQueries` | Sources/TrailerQL/Query.swift:42-48 | the loop cuts the list into chunks of the limit, in order, and query `i` takes batch group id `firstId + i` |
| `Queries.BatchQueryCost` | Sources/TrailerQL/Query.swift:73-75 | the cost of a batch query is one row plus the fields' cost for each id of its chunk |
| `ScanSpec.GroupScan` | Sources/TrailerQL/Group.swift:194-212 | a group reads a list of edges, a plain list or a single object; it keeps the scan invariant by `ScanSpec.GroupScanOk`, and `Scanner.ScanGroup` is its imperative form |
| `ScanSpec.EdgesScan` | Sources/TrailerQL/Group.swift:164-182 | the edges' rows, then at most one next-page query; stated by `ScanSpec.EdgesScanOk`, `ScanSpec.NextPageContinues` and `ScanExample.NewNodeAsksForNextPage` |
| `ScanSpec.RowScan` | Sources/TrailerQL/Group.swift:142-162 | one row: its node, when it is one, then its children; stated by `ScanSpec.RowScanOk` and `ScanSpec.RowDeliversItsNodeFirst` |
| `ScanSpec.FragmentScan` | Sources/TrailerQL/Fragment.swift:66-75 | the fragment's scannable elements read their own keys; stated by `ScanSpec.FragmentScanOk`, and `Scanner.ScanFragment` is its imperative form |
| `ScanSpec.BatchScan` | Sources/TrailerQL/BatchGroup.swift:51-57 | every object item is scanned with the template; stated by `ScanSpec.BatchScanOk`, and `Scanner.ScanBatch` is its imperative form |
| `ScanSpec.Continuation` | Sources/TrailerQL/Group.swift:170-178 | a page asks for at most one follow-up query, and that query continues the scanned one |
| `ScanSpec.ElementScanOk` | Sources/TrailerQL/Scanning.swift:4 | every scan delivers nodes parents-first, built from their payloads, only when there is a callback, and appends only continuations of the query |
| `ScanSpec.GroupScanOk` | Sources/TrailerQL/Group.swift:194-212 | the same for a group's scan |
| `ScanSpec.EdgesScanOk` | Sources/TrailerQL/Group.swift:164-182 | the same for a page of edges |
| `ScanSpec.RowsScanOk` | Sources/TrailerQL/Group.swift:184-192 | the same for a row list |
| `ScanSpec.RowScanOk` | Sources/TrailerQL/Group.swift:142-162 | the same for one row |
| `ScanSpec.ChildrenScanOk` | Sources/TrailerQL/Group.swift:154-161 | the same for a row's children |
| `ScanSpec.ChildScanOk` | Sources/TrailerQL/Group.swift:155-160 | the same for one child |
| `ScanSpec.FragmentScanOk` | Sources/TrailerQL/Fragment.swift:66-75 | the same for a fragment |
| `ScanSpec.FragmentChildrenScanOk` | Sources/TrailerQL/Fragment.swift:70-74 | the same for a fragment's elements |
| `ScanSpec.BatchScanOk` | Sources/TrailerQL/BatchGroup.swift:51-57 | the same for a batch group |
| `ScanSpec.BatchRowsScanOk` | Sources/TrailerQL/BatchGroup.swift:54-56 | the same for a batch group's items |
| `ScanSpec.AbortedPrefixStable` | Sources/TrailerQL/Group.swift:184-192 | after `alreadyParsed` the remaining rows change nothing |
| `ScanSpec.AlreadyParsedStopsAtRefusedNode` | Sources/TrailerQL/Group.swift:164-169 | a row list stops only at a node the callback refused, and that node is the last one delivered |
| `ScanSpec.RowDeliversItsNodeFirst` | Sources/TrailerQL/Group.swift:142-162 | a node row is delivered before its children, which are scanned below it; a refused node ends the row; a non-node row is unwrapped with the same parent |
| `ScanSpec.WrongShapesAreIgnored` | Sources/TrailerQL/Group.swift:194-208 | a payload of the wrong shape produces nothing |
| `ScanSpec.NextPageContinues` | Sources/TrailerQL/Group.swift:164-182 | a page with a next page, below a parent and not stopped, appends the root's shell for the cursor-bearing clone; otherwise it appends nothing |
| `Scanner.ScanElement` | Sources/TrailerQL/Scanning.swift:4 | the scan leaves exactly the deliveries and queries of its specification appended to the log |
| `Scanner.ScanGroup` | Sources/TrailerQL/Group.swift:194-212 | the same for a group, ignoring `alreadyParsed` from a single row |
| `Scanner.ScanEdges` | Sources/TrailerQL/Group.swift:164-182 | the same for a page of edges, with at most one appended next-page query |
| `Scanner.ScanList` | Sources/TrailerQL/Group.swift:184-192 | the same for a plain list |
| `Scanner.ScanRows` | Sources/TrailerQL/Group.swift:166-168 | the row loop stops at the first `alreadyParsed` and reports it |
| `Scanner.ScanNode` | Sources/TrailerQL/Group.swift:142-162 | delivers the row's node, then scans the children below it |
| `Scanner.ScanChildren` | Sources/TrailerQL/Group.swift:154-161 | the children are scanned in order and their deliveries and queries appended one after another |
| `Scanner.ScanChild` | Sources/TrailerQL/Group.swift:155-160 | a fragment gets the whole row, another scannable child its own key when the row has it, and anything else is skipped |
| `Scanner.ScanFragment` | Sources/TrailerQL/Fragment.swift:66-75 | the same for a fragment; data that is not an object is ignored |
| `Scanner.ScanFragmentChildren` | Sources/TrailerQL/Fragment.swift:70-74 | the fragment's elements are scanned in order, each appending its own part |
| `Scanner.ScanFragmentChild` | Sources/TrailerQL/Fragment.swift:71-73 | a scannable element reads its own key when the object has it; anything else is skipped |
| `Scanner.ScanBatch` | Sources/TrailerQL/BatchGroup.swift:51-57 | data that is not an array is ignored; otherwise the items are scanned |
| `Scanner.ScanBatchItems` | Sources/TrailerQL/BatchGroup.swift:54-56 | the items are scanned in order, each appending its own part |
| `Scanner.ScanBatchItem` | Sources/TrailerQL/BatchGroup.swift:55 | an object item is scanned with the template as a group; any other item is skipped |
| `Responses.TopData` | Sources/TrailerQL/Query.swift:78-83 | the root's entry in `data`, or in `data.node` below a parent; stated by `Responses.EnvelopeRejected` |
| `Responses.EnvelopeRejected` | Sources/TrailerQL/Query.swift:78-83 | the envelope is rejected exactly when one of the four guard conditions fails |
| `Responses.ProcessResponse` | Sources/TrailerQL/Query.swift:77-101 | a rejected envelope gives no queries when allowed and an `apiError` with the log prefix otherwise; an accepted one gives exactly the scan's follow-up queries, all continuations of the query; `alreadyParsed` never comes out |
| `ScanExample.NewNodeAsksForNextPage` | Sources/TrailerQL/Group.swift:164-182 | a page with a new node and a next page delivers the node and asks for the page after its cursor |
| `ScanExample.KnownNodeEndsThePaging` | Sources/TrailerQL/Group.swift:179-181 | an already-parsed node ends the paging: there is no follow-up query |
| `ScanExample.NextPageGroupText` | Sources/TrailerQL/Group.swift:75-131 | the next-page group asks for `first: 10` after the cursor `c1`, in the paged-list shape |
| `ScanExample.NextPageText` | Sources/TrailerQL/Query.swift:52-58 | the next-page query asks for the owner's node by its id and type, with the group inside |

## Notes on the model

- **The shared `Field.id` instance.** `Field.id` is one shared value, so its id is the same everywhere it is used. `RenderExample` uses one field constant in both groups.
- **`Query.batching` (`Query.swift:39`).** The call `template.recommendedLimit` passes no budget. `Queries.Batching` takes the budget as a `maximumCost` parameter. It also takes the fresh ids of the template and of the batch groups as a `nextId` parameter.
- **The test's expected text (`TrailerQLTests.swift:46-51`).** The test builds its query with a `checkRate:` argument, and that initialiser is not the one in `Query.swift`. The test expects text without the rate-limit selection. `Query.swift:65-67` always adds it, and the model follows that code. `ExampleSchemaText` proves the schema part of the test's text. `ExampleQueryText` proves the full request with the selection.
- **The shell of a group (`Group.swift:36-46`).** Unlike a fragment's shell, it does not add the group's `id` field back. The model follows the code.
- **The relationship of scanned nodes.** Nodes made during a scan get no relationship. The scan's call at `Group.swift:145` passes none.
- **The delivered-nodes log.** It exists only in the model. It records, in order, the calls of the per-node callback.

## Left out

- Concurrency: `async`, `NodeActor` and the actor isolation of the callback are not modelled. The scan is sequential.
- Logging (`TQL.log` and the `DLog` comments) is not modelled: it only prints.
- UUID generation is not modelled. Ids are natural numbers passed in by the caller.
- `Lista`/`List` are modelled as immutable sequences. Their sharing is not modelled, except for the shared `extraQueries` list, which is the `Scanner.ScanLog` field that the scan only appends to.
- Swift's `Int` arithmetic traps on overflow. The model's integers are unbounded, so it does not model the traps in `100 + fieldCost * 100` and `count + fieldCost * count` (`Group.swift:55-58`) or in `count + count * templateGroup.nodeCost` (`BatchGroup.swift:40`). `Cost.GroupCost` and `Cost.BatchCost` return the exact value where Swift would crash.
- `Cost.RecommendedLimit`: `Int(estimatedBatchSize)` (`Group.swift:68`) traps when the quotient does not fit in an `Int`. For example, a budget of `Int.max` over a cost of 1 crashes in Swift, while the model returns 100.
- Swift compares `String` values by canonical equivalence. The model compares code-point sequences, and this applies to fragment names, the `id` field-name lookup and JSON keys.
- `Cost.FloorDiv`: the model divides integers. It does not model the `Float` rounding of `Group.swift:63-67`, which loses precision for very large costs.
- `Queries.DistinctByName`: `Set(rootElement.fragments)` has no defined order, so the model keeps the first fragment of each name in list order. Which fragment of a duplicated name is declared, and in what order the declarations come, are unspecified in the source.
- The `ElementsBuilder` result builder is not modelled. Protocol dispatch becomes a `match` on the element kind.
- Dynamic casts of `Any` are modelled by the `Json` datatype. Only arrays count as sequences of objects, and numbers and null are never inspected.
- `Strings.Lowercased` lowercases ASCII letters only. Unicode case mapping is not modelled.
- Errors thrown by the callback other than `alreadyParsed` are not modelled. The oracle can only answer "new" or "already parsed".
- The `queryPageComplete` and `queryComplete` values of `ParseOutput` are declared in `Nodes` but never used: the engine's code never emits them.
- The `flags` field of `Node` is always 0: the engine never writes it.
- `Package.swift`, the test support code and the tests themselves are not modelled. Only the test's query text is used, as a worked example.
