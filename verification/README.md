# Fraise, verified

A Dafny model of Fraise, an in-memory memory-graph database: facts filed under topics and
entities, found again by text, by vector and by the anchors they share. The model covers
the structures the database is built from and the promises it makes about them.

- **B-tree** (`BTreeShape`, `BTreeOps`, `BTreeDelete`, `BTrees`): the mutable tree with its
  splits, borrows and merges, over nodes on the heap. Each node method is proved against a
  function on tree values, and the functions against a sorted list.
- **Text index** (`PostingLists`, `Dictionaries`, `TextIndexes`, `SearchSpec`, `SearchPass`,
  `Documents`): chunked posting lists with tombstones, filed by term in the B-tree; dense
  document numbers and compaction; the shared pass that answers several filtered, windowed
  searches in one walk; and the naive search over the stored texts that it must agree with.
- **Graph** (`GraphModel`, `GraphCaches`, `GraphStore`, `GraphWindow`, `Traversals`): the two
  mirrored adjacency maps, the two derived caches and what invalidates them, and both
  traversals.
- **Search** (`Scoring`, `AnchorRound`, `Pooling`, `Ranking`, `Searches`): the three scorers,
  the anchors that transmit, the pooling of hub members into groups, the ranking of the hits,
  and the whole round from the seeds to the hits.
- **Scheduler** (`Scheduler`): Submit, workers, lane writers and Stop as steps of a state
  machine, over every interleaving.
- **FQL** (`Fql`, `FqlGrammar`, `FqlPrint`, `FqlReread`, `FqlRoundTrip`, `FqlTheorem`,
  `FqlLexer`, `FqlParser`): scanner and parser as classes proved against a grammar, and the
  printer against both.
- **Ranked containers** (`HeapOrder`, `Heaps`, `TopKs`): the keyed max-heap and the bounded
  selection.
- **Vector index** (`RPSpec`, `RPRanking`, `RPTrees`, `VectorReading`, `VectorIndexes`): the
  random-projection trees, their deferred-probe walk, and the forest with its compaction
  debt.
- **Plan cache** (`LruCaches`, `Queries`, `Engines`): the LRU cache, the hash material of a
  query, and planning through the cache under any hash function.

Code that updates fields is a class whose methods state the whole new contents; the
mathematics is in functions and lemmas beside it. Scores, masses and coordinates are reals.
Clocks, random rows, projections, the hash function, the tokenizer, the relevance model and
the Unicode tables are parameters.

`dafny verify dfyconfig.toml` checks the project.

## Model

| member | source | states |
|---|---|---|
| BTrees.BTree.Insert | internal/containers/trees/btree.go:117-130 | the stored values become the old ones with the new value at its sorted place; it reports failure exactly when the rank was taken; a root in shape stays in shape (node bounds and equal leaf depth) |
| BTrees.BTree.Delete | internal/containers/trees/btree.go:185-194 | a stored value is removed and nothing else, and the root is in shape afterwards; an absent one changes no contents; the program stops exactly when the root holds no separator over one minimal child |
| BTrees.BTree.Find | internal/containers/trees/btree.go:100-113 | finds exactly the stored value of that rank, if there is one |
| BTrees.BTree.Values | internal/containers/trees/btree.go:313-329 | the in-order walk over the heap nodes lists every stored value, ascending |
| BTreeOps.InsertRootAdds | internal/containers/trees/btree.go:117-158 | insertion at the root adds exactly the value in order to the tree's contents, and is refused exactly when its rank is taken |
| BTreeOps.InsertRootFits | internal/containers/trees/btree.go:117-130 | insertion at the root, split first when it is full, keeps every node within its bounds and all leaves at one depth, and leaves no empty root where there were values |
| BTreeOps.InsertAdds | internal/containers/trees/btree.go:134-158 | insertion below a node that is not full adds exactly its value in order |
| BTreeOps.InsertFits | internal/containers/trees/btree.go:134-158 | insertion below a node that is not full keeps node bounds and leaf depth, and never shrinks the starting node |
| BTreeDelete.DeleteFits | internal/containers/trees/btree.go:198-310 | descending with fill (borrow or merge) keeps node bounds and leaf depth, and costs the starting node at most one value |
| BTreeDelete.DeleteDels | internal/containers/trees/btree.go:198-310 | descending removes exactly the value of the rank asked for, through predecessor, successor and merge |
| BTreeDelete.DeleteRootMeans | internal/containers/trees/btree.go:185-194 | over any root earlier failed deletions may leave: when it stops, what it removes, and exactly when a failed deletion puts the root out of shape |
| BTreeDelete.AbsentDeletesPanic | internal/containers/trees/btree.go:185-194 | a legal tree of seven values that three deletions of values it never held bring to a stop |
| Dictionaries.RankOrders | internal/index/btree.go:109-113 | the rank the dictionary's tree sorts by is the lexicographic order of terms, and no two terms share one |
| Dictionaries.Dictionary.Find | internal/index/btree.go:641-650 | finds a term's posting list exactly when there is one |
| Dictionaries.Dictionary.Insert | internal/index/btree.go:641-650 | files a list under its term, and refuses exactly a term that has one |
| Dictionaries.Dictionary.Delete | internal/index/btree.go:591-597 | every deletion the index makes finds its list, so the tree never comes to the shape that stops one; that list alone goes |
| Dictionaries.Dictionary.Values | internal/index/btree.go:591-597 | every list, each once, in the order of the terms |
| PostingLists.PostingList.Sight | internal/index/btree.go:627-666 | one more sighting of a key's term: its count grows by one, every other entry keeps count and number, chunks stay sorted and within 128 entries |
| PostingLists.PostingList.Tombstone | internal/index/btree.go:673-689 | the key's count becomes zero and its entry stays; every other entry is untouched |
| PostingLists.PostingList.Find | internal/index/btree.go:695-710 | the two binary searches land where the key is, or where inserting keeps the order |
| PostingLists.PostingList.Insert | internal/index/btree.go:716-729 | puts the entry where Find said and splits a chunk that outgrew its bound |
| PostingLists.PostingList.Compact | internal/index/btree.go:583-611 | keeps exactly the live entries in order, renumbered, in sorted non-empty chunks |
| TextIndexes.TextIndex.Index | internal/index/btree.go:627-666 | stores the text, retiring any it replaces, and keeps the invariant: the B-tree files exactly the terms' lists, every recorded frequency is the term's count in the stored text, numbers and keys are inverse, the lengths sum to the total |
| TextIndexes.TextIndex.Delete | internal/index/btree.go:188-196 | the document goes and nothing else, under the same invariant |
| TextIndexes.TextIndex.Flush | internal/index/btree.go:583-611 | compaction changes no frequency, leaves no tombstone and no number of a dead document |
| TextIndexes.TextIndex.LiveIsDocumentFrequency | internal/index/btree.go:627-689 | a term's live count is the number of stored documents that contain it |
| TextIndexes.TextIndex.DebtIsBounded | internal/index/btree.go:616-622 | entries and numbers are at most twice the live documents, and automatic compaction has rebuilt no more documents than were removed or replaced |
| SearchSpec.ScatteredIsGathered | internal/index/btree.go:447-511 | what the postings' documents lend an accepted document is what it gathers from itself and its accepted neighbours, and it is reached exactly when it matches, under a symmetric window |
| SearchPass.Pass.Accumulate | internal/index/btree.go:447-511 | one walk of a posting list scores the term in every reading as each would alone |
| TextIndexes.TextIndex.Search | internal/index/btree.go:219-261 | for any window, symmetric or not: one answer per filter, each the k best accepted documents some document lends a term to, scored term by term from the stored texts themselves; none when the index is empty |
| TextIndexes.TextIndex.WindowGathers | internal/index/btree.go:447-511 | with a symmetric window every frequency a search scores with is the document's own count and gamma of each accepted neighbour's |
| Documents.AnswersAlike | internal/index/btree.go:219-261 | an answer over an index that reflects the texts is the answer over the texts |
| Documents.AnswerIsUnique | internal/index/index.go:58-78 | the answer over the texts is one sequence: it depends on the texts and the one filter, not on how or with which other filters it was computed |
| GraphWindow.WindowIsSymmetric | internal/graph/in_memory.go:446-473 | a window served by a sound graph's neighbour lists, under any injective hash, is symmetric |
| GraphModel.StoredSound | internal/graph/in_memory.go:234-274 | storing a node keeps the rows transposes without empty rows that hold exactly the stored edges under their own keys |
| GraphModel.StoredUnsound | internal/graph/in_memory.go:234-274 | storing any other node, an edge without its endpoints or under a key another pair holds, breaks the rows: with StoredSound an if-and-only-if |
| GraphModel.SharedMaterial | internal/graph/relationship.go:80-132 | a pair of values shares its edge key with another pair exactly when one of them contains a NUL |
| GraphStore.Graph.StoreNode | internal/graph/in_memory.go:234-274 | the store becomes the old one with the node whatever the node; the rows stay sound and both caches equal to their recomputation exactly when the node's endpoints and key fit |
| GraphStore.Graph.Delete | internal/graph/in_memory.go:303-342 | deleting a vertex removes it and exactly its incident edges, deleting an edge removes its node and both entries, and the caches stay right |
| GraphStore.Graph.Size | internal/graph/in_memory.go:405-411 | the summed row sizes are the number of relationship nodes |
| GraphStore.Graph.Remember | internal/query/stream.go:139-186 | the store becomes exactly the old one with the fact, and with the edge of each entity and topic whose key is free, after its anchor; caches still right |
| GraphStore.FiledExactly | internal/query/stream.go:71-81 | after a write the fact is filed under an anchor it names exactly when, before it, the edge's key was free or held by that very pair |
| GraphStore.RememberedRest | internal/query/stream.go:139-186 | a write stores the fact with the new time and touches no other stored node and no edge of another fact |
| GraphStore.OpenWithoutNul | internal/query/stream.go:71-81 | a fact and an anchor without a NUL always find their edge's key free or their own |
| GraphStore.LostToAnchor | internal/query/stream.go:71-81 | two writes into an empty graph, after which the second fact is stored and not filed under the one topic it names |
| GraphStore.Graph.SequenceOf | internal/graph/in_memory.go:480-501 | an anchor's members in write order, each once, and cached |
| GraphStore.Graph.Contiguous | internal/graph/in_memory.go:446-473 | exactly the facts next to the given one in time under an anchor both share, each once, in key order, whether cached or not |
| GraphCaches.NeighboursSymmetric | internal/graph/in_memory.go:446-473 | a fact neighbours another exactly when the other neighbours it |
| GraphCaches.StoreVertexFreshIff | internal/graph/in_memory.go:510-534 | storing a vertex keeps the caches right exactly when no list still cached is of a fact whose edge to the vertex was stored first |
| GraphCaches.StoreVertexFresh | internal/graph/in_memory.go:234-274 | with endpoints stored before edges, storing a vertex always keeps the caches right |
| GraphCaches.StoreEdgeFresh | internal/graph/in_memory.go:234-274 | dropping around an edge's source is enough to keep the caches right when the edge is stored |
| GraphCaches.DeleteVertexFresh | internal/graph/in_memory.go:303-342 | dropping around a vertex is enough when it is deleted with its edges |
| GraphCaches.AnchorStoredLast | internal/graph/in_memory.go:525-534 | an anchor stored after its edges leaves a cached neighbour list that is wrong |
| Traversals.BreadthFirst | internal/graph/bfs.go:74-126 | visits exactly what the held sources reach, each once, in non-decreasing depth, at its shortest distance and with a parent one step closer; fails exactly when no source is held |
| Traversals.OneStep | internal/graph/excess.go:79-129 | visits exactly what lies one step from a held source across the anchor boundary, in key order, each with every source that reached it once however often the pair is joined; fails exactly when no source is held |
| Scoring.ScoreScales | internal/graph/scoring/excess.go:89-120 | scaling every mass and the background scales every relevance alike |
| Scoring.HubSilence | internal/graph/scoring/excess.go:89-120 | the score is never below the candidate's own mass, and equals it exactly when no anchor holds more than that mass and, unless the query named it, its fair share |
| Scoring.WeighedIsListed | internal/graph/scoring/information.go:106-151 | for each of the three scorers, weighing a group by its size binds the same scorer as listing its members one by one |
| AnchorRound.TransmittersAreFew | internal/graph/in_memory.go:1029-1058 | unnamed transmitters hold less than half the touched degree at depth 1 and never all of it at depth 2 |
| AnchorRound.DepthOneWithinTwo | internal/graph/in_memory.go:1029-1058 | what transmits at depth 1 transmits at depth 2 |
| Pooling.PoolMembers | internal/graph/in_memory.go:1062-1130 | groups are disjoint from each other and from what is listed, sorted by key, and hold exactly the members one anchor alone reaches and nothing else observed |
| Ranking.PoolingInvisible | internal/graph/in_memory.go:541-629 | under every scorer, pooled or listed one by one, a recall has the same hits in the same order with the same scores and contributions |
| Ranking.PoolAndRank | internal/graph/in_memory.go:541-629 | the pooling loop and the ranking after it answer as if every member were listed, under every scorer |
| Searches.FindNeighbours | internal/graph/in_memory.go:981-1133 | with either traversal: the masses fixed at the seeds, the anchors heard at depth 1, those that transmit, the walk from them and the pooling give a background, a pool and groups that stand for the outcome of some run of the walks |
| Searches.AcrossReads | internal/graph/in_memory.go:981-1133 | with the facts-and-anchors traversal that outcome is read off the graph: who hears what from whom needs no walk |
| Searches.ReadsOnce | internal/graph/in_memory.go:981-1133 | the graph and the seeds give one such outcome, whatever order a walk takes |
| Searches.Search | internal/graph/in_memory.go:541-629 | from the gathered seeds to the hits, under every scorer: what ranking every candidate of such an outcome gives, each listed one by one |
| Searches.OneAnswer | internal/graph/in_memory.go:541-629 | with the facts-and-anchors traversal a recall has one answer, whatever the order of the walks, of the candidates, or what is pooled |
| Scheduler.AcceptedRunsOnce | pkg/scheduler/scheduler.go:125-277 | in every interleaving a stream runs at most once, never if refused, and exactly once and to the end if accepted, once a Stop has returned |
| Scheduler.LanesRunInOrder | pkg/scheduler/scheduler.go:166-246 | the writes run on a lane are always a prefix of those it accepted, and all of them once a Stop has returned |
| Scheduler.WritesRunAlone | internal/query/stream.go:292-307 | while a write holds a graph nobody else does |
| Scheduler.QuitClosedOnce | pkg/scheduler/scheduler.go:125-161 | quit is never closed twice, and Submit reports shutdown only once it is closed |
| Scheduler.AnswersAreFinal | pkg/scheduler/scheduler.go:204-246 | an answer given by Submit never changes, and no stream that has not passed the shutdown check is accepted after quit closes |
| Scheduler.StopNeverSticks | pkg/scheduler/scheduler.go:125-193 | while a Stop is under way some step already begun can be taken |
| Scheduler.StopReturns | pkg/scheduler/scheduler.go:125-193 | with no new call every step leaves fewer to take, and when none is left every Stop has returned: Stop returns within a bounded number of steps |
| FqlTheorem.RoundTrip | internal/query/parser/ast.go:403-491 | what a parsed command prints parses again exactly when its top and depth carry no sign, and then means the same: selector, terms, anchors, top, depth, bounds and vector parameter |
| FqlTheorem.QuotedMinus | internal/query/parser/parser.go:750-779 | a quoted negative number parses, and what it prints does not |
| FqlParser.ParseQuery | internal/query/parser/parser.go:79-116 | the two-token parser over the lexer computes the grammar: same command, or none |
| FqlParser.Parser.Next | internal/query/parser/parser.go:122-125 | the window moves one token along the tokens of the text |
| FqlLexer.Lexer.Next | internal/query/lexer/lexer.go:99-171 | the next token and the rest of the text are what the scanner's definition gives, and end of line at the end |
| FqlRoundTrip.ParsedGood | internal/query/parser/parser.go:453-960 | every parsed command is one the printer can spell: values not empty, keys folded, numbers in range |
| Heaps.Heap.Push | internal/containers/heap.go:96-108 | the item is stored unless its key holds a higher priority; max-heap order and the key-to-slot map are kept |
| Heaps.Heap.Remove | internal/containers/heap.go:135-166 | exactly the key's item goes |
| Heaps.Heap.Pop | internal/containers/heap.go:179-196 | an item of the highest priority is returned and removed |
| TopKs.TopK.Offer | internal/containers/topk.go:58-74 | what is kept and what was dropped are together all that was offered, and nothing dropped beats anything kept |
| TopKs.TopK.Drain | internal/containers/topk.go:78-95 | all offers sorted by score descending then key ascending, cut to k |
| TopKs.BestPermutes | internal/containers/topk.go:58-95 | the best k do not depend on the order of the offers |
| RPSpec.InsertedSound | internal/containers/trees/rptree.go:192-246 | inserting adds the one point, keeps every split's points on their sides and every leaf within its size |
| RPSpec.GatheredPartitions | internal/containers/trees/rptree.go:305-360 | the probe walk gathers accepted points of the tree, none more often than stored, until the budget is met or none is left |
| RPTrees.RPTree.Insert | internal/containers/trees/rptree.go:176-188 | adds the point to the tree, or refuses one of another dimension |
| RPTrees.RPTree.Nearest | internal/containers/trees/rptree.go:293-408 | the k nearest distinct keys of what the walk gathers, nearest first, and of all accepted points when there are at most k times overfetch |
| VectorIndexes.VectorIndex.Insert | internal/index/rptree.go:127-157 | the live vectors become the old ones with the new; every tree holds every live vector; stored copies stay within the factor; an unchanged vector changes nothing |
| VectorIndexes.VectorIndex.Delete | internal/index/rptree.go:202-208 | the vector leaves the live ones, under the same invariant |
| VectorIndexes.VectorIndex.RebuildsArePaid | internal/index/rptree.go:162-172 | with a factor of two or more, the live vectors rebuilt by all automatic flushes are at most the updates and deletes made |
| VectorIndexes.VectorIndex.Search | internal/index/rptree.go:213-305 | one reading per filter: all accepted live vectors for no budget, else the ranking, by current distance, of the live keys among every tree's hits |
| VectorIndexes.VectorIndex.ReadingExact | internal/index/rptree.go:243-305 | probed in full over reliable copies, a reading is the k nearest accepted live vectors |
| VectorIndexes.VectorIndex.RebuiltReliable | internal/index/rptree.go:326-347 | right after a rebuild the copies are reliable for every filter and k |
| VectorReading.ExactIff | internal/index/rptree.go:243-305 | for a tree probed in full, the copies are reliable exactly when every distance and every fall of ties gives the k nearest live vectors |
| VectorIndexes.StaleMisses | internal/index/rptree.go:243-305 | a run of inserts and an update after which a search misses the nearer live vector |
| VectorIndexes.FactorOneRebuildsMore | internal/index/rptree.go:162-172 | at a factor of one, a run whose rebuilds outnumber its updates and deletes |
| LruCaches.LRUCache.Get | internal/cache/lru_cache.go:58-70 | the value stored, which moves to the front of the recency order; a miss changes nothing |
| LruCaches.LRUCache.Put | internal/cache/lru_cache.go:74-96 | the entry at the front, the others in their order, and beyond the capacity the last one gone |
| LruCaches.LRUCache.Resize | internal/cache/lru_cache.go:140-174 | keeps the most recently used entries that fit and counts the rest; refuses a capacity that is not positive |
| Queries.EqualAsks | internal/query/recall.go:107-116 | equality is an equivalence, and equal queries ask the same graph for the same in the same window at every moment |
| Queries.OptimisedEqual | internal/query/optimisation/dedupe.go:35-62 | equal queries are rewritten to equal queries, and rewriting twice is rewriting once |
| Queries.RecallsPeel | internal/query/recall.go:76-101 | under any hash function, recalls with one hash material have the same graph, keywords, entities, topics, top and depth |
| Queries.RemembersPeel | internal/query/remember.go:75-88 | under any hash function, remembers with one hash material have the same graph, value, entities and topics |
| Queries.MaterialIff | internal/query/query.go:91-97 | hash material is shared exactly by identical queries, given a hash that tells the two queries' bounds and vectors apart; a recall and a remember never share it |
| Queries.EqualShareIff | internal/query/recall.go:107-116 | equal queries share material exactly when their bounds are in the same zones and their zeros carry the same signs |
| Queries.ZonesApart | internal/containers/time.go:86-102 | two recalls since one instant, in two zones, are equal and do not share material |
| Queries.SignsApart | internal/containers/vector.go:62-106 | two recalls by the vector zero and minus zero are equal and do not share material |
| Queries.SomeTelling | internal/query/recall.go:76-101 | for any two queries some hash tells theirs apart, so the conditions above can be met |
| Queries.HashOf | internal/query/recall.go:76-101 | the builder writes the material, field by field |
| Engines.Engine.Plan | pkg/engine/engine.go:114-131 | for any hash function, collisions included, what is run equals what the pipeline makes of the query itself and asks the same at every moment; what is cached stays as HitsIff says |
| Engines.HitsIff | pkg/engine/engine.go:114-131 | after any run of plans a query is answered from the cache exactly when its key is among the last used ones and the last query planned under it is equal |

## Findings

Properties the code does not have on every input, each with a run that shows it and the
exact condition under which it holds.

- **A printed command that does not parse.** `parseIntField` reads a quoted number with its
  sign (internal/query/parser/parser.go:750-779), and the printer drops the quotes
  (internal/query/parser/ast.go:453-491). `FqlTheorem.QuotedMinus` is such a query.
  `FqlTheorem.RoundTrip` holds if and only if top and depth are not negative.
- **Deleting absent values can stop the program.** A failed deletion returns before an empty
  root is collapsed (internal/containers/trees/btree.go:185-194), and the next one indexes
  the child before the first. `BTreeDelete.AbsentDeletesPanic` does it in three calls.
  `BTreeDelete.DeleteRootMeans`: a deletion stops exactly on a root without separators over
  one minimal child, and a failed one puts the root out of shape exactly when it holds one
  separator over two minimal children. The text index deletes stored values only, so its
  dictionary never comes to that shape (`Dictionaries.Dictionary.Delete`).
- **A fact lost to a NUL.** An edge's key joins the two values around a NUL
  (internal/graph/relationship.go:80), and a taken key is skipped
  (internal/query/stream.go:71-81). `GraphStore.LostToAnchor` loses a fact's only topic in
  two writes. `GraphStore.FiledExactly`: a write files the fact under an anchor if and only
  if the edge's key was free before it or held by that very pair. Without a NUL it always is
  (`OpenWithoutNul`), and `GraphModel.SharedMaterial`: another pair shares the key if and
  only if one of the values contains a NUL.
- **An anchor stored after its edges leaves a stale neighbour list.** There is no sequence
  yet to drop the list by (internal/graph/in_memory.go:525-534):
  `GraphCaches.AnchorStoredLast`. `GraphCaches.StoreVertexFreshIff`: storing a vertex keeps
  the caches right if and only if no list still cached is of a fact whose edge to it came
  first. Writes store endpoints first, and then it always does (`StoreVertexFresh`).
- **A stale copy can hide a nearer vector.** Hits are taken by the distance of the stored
  copy and only then re-ranked by the live vector (internal/index/rptree.go:243-305).
  `VectorIndexes.StaleMisses` runs into it with two inserts and an update.
  `VectorReading.ExactIff`: a full probe is exact for every distance if and only if the
  accepted copies are reliable: no key that is gone among them, unless they name at most k
  keys or nothing accepted is live; and a live key with a stale copy only where at most k keys
  could come before its current vector or every live vector equals it.
- **Rebuilding more than was changed.** At a flush factor of one an update in an index of two
  rebuilds both (internal/index/rptree.go:162-172): `VectorIndexes.FactorOneRebuildsMore`.
  With a factor of at least two, the only other ones a configuration gives, the bound always
  holds (`RebuildsArePaid`).
- **Equal queries under two keys.** Equality compares the instants of bounds
  (internal/containers/time.go:98-102) and the values of coordinates
  (internal/containers/vector.go:62-72); the hash material spells out the zone and the sign
  of a zero. `Queries.ZonesApart` and `Queries.SignsApart` are such queries; each is planned
  on its own. `Queries.EqualShareIff`: equal queries share material if and only if their
  bounds are in the same zones and their zeros carry the same signs.

## Left out

- HTTP server, MCP bridge, SDK, configuration and logging: input, output and plumbing.
- Integers are unbounded: the 32-bit document numbers, the clamped ranks, counts and degrees, and overflow of lengths and times are not modelled.
- Floating point: scores, masses and coordinates are reals, so rounding, NaN and infinities are not modelled (a vector's zero has a sign where a query is hashed and compared); square roots, logarithms and decay are parameters.
- Hash functions: node keys are assumed free of collisions, the plan cache's hash is arbitrary.
- Tokenizing, stemming, stop words and Unicode classes: parameters, with the laws `Fql.Lawful` lists for the character tables.
- Dates and durations: parsing and rendering them is a parameter.
- Random rows, projections and distances: arbitrary, so nothing is said about how often an approximate search is exact.
- Locks inside the LRU cache, the graph's cache mutex and Go's slice aliasing: the classes are sequential; only the scheduler has interleavings.
- Scheduler: restarting it after Stop, context cancellation beyond a refused Submit, and panics inside a stream.
- GraphStore.Graph.Put: a node is stored under its own key, as every caller does.
- Searches.Search: it starts from the gathered seeds; with the breadth-first traversal the order of the second walk is any that walk may take.
- GraphStore.Graph.Delete: the text and vector indexes it also updates are modelled on their own.
- FqlParser.ParseQuery: error messages, warnings and source positions of errors are not part of the result.
- VectorIndexes.VectorIndex.Search: nothing is promised of an approximate reading beyond the ranking of the hits pooled.
- Engines.Engine.Plan: the stream built around the query to run, with its per-request state; neither kind of query has a planning error.
- Strings are sequences of characters; where the program counts bytes (`Queries.Listed`) each character stands for one.
- Sorting is modelled by insertion; an unstable sort is only used where keys are distinct.
- Seed union, anchor-only recalls, range queries over the trees and statistics: they would add easy members.
- `TimeFilter`, which nothing parses to.
