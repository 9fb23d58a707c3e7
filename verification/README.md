# The fingerprint stack, modelled and proved

This project models the parts of the fingerprint stack whose correctness is hard to see from the
code, and proves what they are for.

* **The BOZORTH3 matcher** (`Xyt`, `Intra`, `Inter`, `Matcher`, `Pipeline`). Two prints go through three
  stages: a sorted table of minutia pairs per print, a table of compatible pairs of pairs, and a large
  in-place search that grows one-to-one pairings, records conflicts, steps through their alternatives with
  a mixed-radix odometer, forms clusters, and looks for the heaviest set of compatible clusters. The class
  `Matcher.Bz` runs that search on the same work arrays as the source, `sc` to `rf`. Each of its methods
  is tied to a function on values (`Paths`, `Odometer`, `Rotation`, `Clusters`, `Seeds`), and the laws are
  proved about those: invariants of every step, termination of every loop, clean arrays at every seed, and
  a score that is exactly the maximum over all sets of pairwise compatible clusters, or the one other way
  the last loop can end: outside its work arrays (`CliqueOverrun`; `Stars`, `StarClusters`,
  `StarSearch`, `StarPrints` and `StarScore` carry minutiae through all three stages to it).
  What all this means is proved apart from how it is computed: which rows a path takes (`Reach`), where pairs,
  alternatives and clusters come from (`Formed`, `Visits`), what the mean and the gates decide (`Mean`, `Gates`),
  and so what a score counts (`Meaning`).
* **Invariances of the whole pipeline** (`Recast`, `Translation`, `Permutation`): the course of the search
  reads no coordinate; when a move of a print, and when another order of its minutiae, cannot move its score.
* **The Julian-day codec** (`Date`): era arithmetic with truncating division against a calendar that counts
  days one by one, in both directions, and the exact range of dates the wire can hold.
* **The handle and worker protocol** (`Streaming`, `Reader`): every interleaving of worker and caller
  steps delivers every progress report once and in order. `Streaming` is the protocol as a state machine;
  `Reader` is its two loops, the polling closure and the job loop.
* **Enrolment over a shared store** (`Enrollment`, `VirtualReader`, `EnrollRuns`): poll by poll, by several
  handles, with futures dropped at any poll; and one enrolment from its first poll to its last.

How the pieces fit: `Seqs` and `StableSort` are vocabulary; `Cliques` and `CliqueSearch` are the weighted
clique problem and its depth-first search; `PathFacts`, `Lookup`, `OdometerFacts`, `ClusterTables`,
`ScoreFacts` and `SeedSteps` hold the laws the class needs; `QueueBounds` says when a queue cannot overflow.

Conventions. Coordinates, angles and counts are integers; where the source asks for wrap-around
(`wrapping_add`, `wrapping_sub`) it is written out as `Wrap32`, and where it divides, as `TruncDiv`. The
angle of an edge (`atan`) and of a centroid vector (`vector_angle`) are functions given as arguments; of the
first only its range, -90 to 90, is ever used; of the second its range, -180 to 180, and that only to say what
the gates decide. A queue overflow is an outcome of its own instead of a score of 4000.

Where code and comments disagree the code is followed. The comment that a table of np rows yields at most
np / 3 clusters (cluster.rs:101-102) is wrong: alternatives multiply, rows only add up. The final loop
copies the chain of every candidate it descends to into `rp`, and compares with the entry behind it
(cluster.rs:747-766). `Overrun` says of the cluster graph alone when that leaves the array: a root still
worth searching has a clique whose last cluster has a further candidate behind it and a chain longer than
the array, or exactly as long and used up first. `FinalLoop` proves that this is when the outcome is
`OutOfRange`, and that otherwise the score is the maximum; a root's own chain may be of any length. So
the promise of lib.rs:130 that no input panics fails: `StarsLeaveArrays` has, for every m from 5 to 10,
14 minutiae against 2m + 10 that end there. A star is a centre (X, 200) with arms to (X + 26, 297),
(X + 32, 80) and (X + 112, 200), all of one direction. The probe has stars at X = 0, 400 and 800 with
directions 0, 60 and 300, and the pair (1200, 200), (1325, 200), whose long edge stage 2 leaves out; the
gallery has the same stars, the first two arms of the third m times over. Every length and angle is far from
the bounds it is compared with, so single precision decides nothing here. What a caller can check is that a
table of 1998 rows or more stays inside (`LongArraysAreKept`), as does a graph with no more clusters than
the arrays have entries (`FewVerticesStay`). The two guards `(j + 1) > QQ_SIZE` and `qh > QQ_SIZE`
(cluster.rs:298, 334, 441) can never hold, since `ExploreQueue` proves the queue within its bound; they are
not in the methods. The number of conflict groups can reach 11, one more than `WWIM`, as one conflict may
open two; the invariants say 11.

## Model

| member | source | states |
|---|---|---|
| Matcher.Bz.FinalLoop | crates/fprint-bozorth3/src/cluster.rs:725-820 | terminates; leaves the work arrays exactly when `Overrun` holds of the cluster graph and their length, and otherwise returns exactly the maximum total weight over all cliques, with a clique of that weight at the front of `rk` |
| Matcher.Bz.SearchRoot | crates/fprint-bozorth3/src/cluster.rs:735-817 | leaves the work arrays exactly when some clique of the root overruns them; otherwise no clique whose first cluster is the root outweighs the score afterwards |
| Matcher.Bz.StepDown | crates/fprint-bozorth3/src/cluster.rs:746-783 | descending keeps every heavier clique pending and every overrunning one ahead and spends part of the bounded effort, or has met a clique of the root that overruns the arrays |
| Matcher.Bz.StepUp | crates/fprint-bozorth3/src/cluster.rs:784-816 | valuing a leaf and moving up leaves every clique of the root either weighed against the score or still pending |
| Matcher.Bz.Intersect | crates/fprint-bozorth3/src/cluster.rs:752-782 | the two-pointer walk writes exactly the common elements, in order, into the next column and touches no other column; it reads past `rp` exactly when the chain fills it, ends before the list does and its last element is not in the list |
| Matcher.Bz.Record | crates/fprint-bozorth3/src/cluster.rs:793-806 | `rk` then starts with the leaf clique |
| Cliques.ChainBoundsItsCliques | crates/fprint-bozorth3/src/cluster.rs:730-734 | no clique rooted at a cluster outweighs that cluster's whole chain, so skipping roots by `gct` loses no optimum |
| CliqueSearch.LeafCovers | crates/fprint-bozorth3/src/cluster.rs:784-792 | with at most one candidate left at the cursor, the leaf is a clique and at least as heavy as everything pending at the top |
| CliqueSearch.DescendKeepsPending | crates/fprint-bozorth3/src/cluster.rs:746-783 | a clique still to be found stays to be found when the search descends |
| CliqueSearch.DescendKeepsSettled | crates/fprint-bozorth3/src/cluster.rs:746-783 | every clique of the root is either weighed already or still pending, across a step down |
| CliqueSearch.LeafSettles | crates/fprint-bozorth3/src/cluster.rs:784-816 | the same across a valued leaf and a step up; when the stack empties nothing is pending |
| CliqueSearch.DescendShrinks | crates/fprint-bozorth3/src/cluster.rs:745-783 | a step down shrinks the bound on the work left |
| CliqueSearch.PopShrinks | crates/fprint-bozorth3/src/cluster.rs:807-816 | a step up shrinks the bound on the work left |
| CliqueOverrun.CandidateOverruns | crates/fprint-bozorth3/src/cluster.rs:746-766 | whether a descent leaves the arrays, as the copy and the walk would find out, is a property of the graph |
| CliqueOverrun.DescendIsComplete | crates/fprint-bozorth3/src/cluster.rs:751-782 | every level lists everything its heads have in common, so the walk sees the candidates the graph has |
| CliqueOverrun.DescendKeepsGuard | crates/fprint-bozorth3/src/cluster.rs:746-783 | a step down past a candidate that stays inside leaves every clique that would overrun still ahead |
| CliqueOverrun.LeafKeepsGuard | crates/fprint-bozorth3/src/cluster.rs:784-816 | so does a step up; when the root is left no clique of it overruns |
| CliqueOverrun.EnteredIffHeavier | crates/fprint-bozorth3/src/cluster.rs:733-734 | a root is searched exactly when its whole chain outweighs every clique of the roots before it |
| CliqueOverrun.ShortCandidatesStay | crates/fprint-bozorth3/src/cluster.rs:735-751 | only chains of clusters compatible with an earlier one have to fit the arrays; a root's own may be longer |
| Matcher.MatchScore | crates/fprint-bozorth3/src/cluster.rs:50-69 | the answer for a sorted table: zero for small prints, otherwise the answer of the whole search, which is one of overflow, out of range or the score; a score counts at most the table's rows |
| Matcher.Bz.Run | crates/fprint-bozorth3/src/cluster.rs:248-494 | the answer is an overflow exactly when the search's queue overflows, out of range exactly when the clusters' graph overruns the work arrays, and otherwise the largest edge total of pairwise compatible clusters, on either exit |
| Matcher.Bz.ScoreClusters | crates/fprint-bozorth3/src/cluster.rs:490-493 | the early return and the final loop compute the same thing: the score of the clusters formed, or out of range exactly when their graph overruns the arrays |
| Matcher.Bz.constructor | crates/fprint-bozorth3/src/cluster.rs:100-127 | arrays of the sizes the search relies on, all clear |
| Matcher.OneAnswer | crates/fprint-bozorth3/src/cluster.rs:248-494 | the search's outcome determines the verdict: overflow, out of range and each score exclude one another |
| Matcher.AnswerIsBounded | crates/fprint-bozorth3/src/cluster.rs:50-69 | no score exceeds the number of compatible edge pairs |
| CliqueOverrun.FewVerticesStay | crates/fprint-bozorth3/src/cluster.rs:735-766 | a graph with no more clusters than the arrays have entries never leaves them |
| CliqueOverrun.FullCopyOverruns | crates/fprint-bozorth3/src/cluster.rs:752-766 | a graph whose longest candidate chain just fits the arrays and that leaves them all the same |
| Seeds.SeedFormsFew | crates/fprint-bozorth3/src/cluster.rs:423-472 | a round forms one cluster at most, so a seed ends with at most 1999 of them, or stops the search with exactly 2000 |
| Seeds.SweepFormsFew | crates/fprint-bozorth3/src/cluster.rs:253-473 | so does the search over all seeds |
| Matcher.LongArraysAreKept | crates/fprint-bozorth3/src/cluster.rs:100-110 | with work arrays of 2000 entries or more, as for any table of 1998 rows or more, the answer is never out of range |
| StarScore.StarsLeaveArrays | crates/fprint-bozorth3/src/lib.rs:152-167 | for every m from 5 to 10, 14 and 2m + 10 minutiae with canonical angles, on which the answer of all three stages is out of range, whatever the angles of edges and vectors are |
| StarScore.StarsGiveTable | crates/fprint-bozorth3/src/lib.rs:159-164 | stages 1 and 2 make of those prints exactly the table of 2m + 7 rows: two plain stars and one with m alternatives on two arms, in the order in which the stable sort leaves them |
| StarScore.PairsTieAlike | crates/fprint-bozorth3/src/inter.rs:97 | the pairs that tie in the sort key come from one arm's row of the probe, and in the order of the gallery's table |
| StarPrints.WebListsEdges | crates/fprint-bozorth3/src/intra.rs:28-98 | a print's table is sorted and lists every edge between spots of a star once, and nothing else |
| StarPrints.ArmTies | crates/fprint-bozorth3/src/intra.rs:98 | in it the rows equal to an arm's edge in length and angles are the edges to that arm's minutiae, in their order |
| StarPrints.SpokePairs | crates/fprint-bozorth3/src/inter.rs:37-66 | whatever the edges' angles are, an arm's edge pairs with exactly the rows that equal it in length and both relative angles |
| StarSearch.StarTableLeavesArrays | crates/fprint-bozorth3/src/cluster.rs:248-766 | on that table, for m from 5 to 70, stage 3 leaves its arrays wherever both prints have the centres in the same places |
| StarSearch.StarLoop | crates/fprint-bozorth3/src/cluster.rs:269-468 | on a star seed every pair of alternatives from the current one on yields a cluster of its own |
| StarSearch.TurnStar | crates/fprint-bozorth3/src/cluster.rs:672-722 | with only the centre paired a turn of the odometer lands on the very next pair of alternatives |
| StarSearch.UnitStar | crates/fprint-bozorth3/src/cluster.rs:253-287 | a star without alternatives becomes one cluster, and the sweep goes on behind its three rows |
| Stars.SweepStarAgain | crates/fprint-bozorth3/src/cluster.rs:275-287 | sifting a star whose arms are set takes exactly the row of each arm's partner and opens no group |
| StarClusters.HubsOverrun | crates/fprint-bozorth3/src/cluster.rs:746-751 | two clusters compatible with each other and with n later ones overrun arrays of up to n entries |
| QueueBounds.SmallTablesFit | crates/fprint-bozorth3/src/cluster.rs:151-172 | a table whose rows and endpoints number less than 3999 never overflows the queue |
| ScoreFacts.EarlyExitIsExact | crates/fprint-bozorth3/src/cluster.rs:490-493 | with every cluster at least `MSTR` and the heaviest chain below `MMSTR`, the heaviest chain is already the heaviest clique |
| ScoreFacts.LightGraphsStayInside | crates/fprint-bozorth3/src/cluster.rs:490-493 | below `MMSTR` no graph overruns any array, so the early return hides no such outcome |
| ScoreFacts.CliqueIsShort | crates/fprint-bozorth3/src/cluster.rs:725-806 | a clique has at most a third as many clusters as the table has rows, so `y`, `cp` and `rk` always have room |
| ScoreFacts.CliquesAreCompatibleSets | crates/fprint-bozorth3/src/cluster.rs:573-664 | cliques of the chains are exactly the ascending lists of pairwise compatible clusters |
| ScoreFacts.CliqueCountsItsEdges | crates/fprint-bozorth3/src/cluster.rs:649-664 | the clusters of a clique share no edge, so its weight is the number of its distinct edges |
| ScoreFacts.ScoreWithinTable | crates/fprint-bozorth3/src/cluster.rs:649-664 | no clique weighs more than the table has rows |
| ScoreFacts.ScoreIsUnique | crates/fprint-bozorth3/src/cluster.rs:490-493 | two scores of the same clusters are equal |
| Meaning.ClusterIsPlacement | crates/fprint-bozorth3/src/cluster.rs:382-571 | a cluster that comes from a path is three or more distinct rows whose far ends are paired one-to-one, within 22 degrees of its rotation, with the truncated means of the near ends as centroids and exactly its rows' endpoints listed |
| Meaning.ScoreIsLargest | crates/fprint-bozorth3/src/cluster.rs:725-820 | a number is the score of clusters exactly when it is the largest number of distinct rows in clusters that agree pairwise |
| Meaning.ScoreMeans | crates/fprint-bozorth3/src/lib.rs:152-167 | on any two canonical prints of ten minutiae or more: the answer is the score n exactly when the search stays inside its queue and arrays and n is that largest number over its clusters, each of which places one print on the other |
| Clusters.ChainsAreChains | crates/fprint-bozorth3/src/cluster.rs:657-664 | a chain starts with its cluster, ascends, and holds a later cluster exactly when the two are compatible |
| ClusterTables.MergeDescribes | crates/fprint-bozorth3/src/cluster.rs:657-664 | merging one more pair keeps `gct` the weight of `ctp` and `ctp` the chain so far |
| ClusterTables.PushDescribes | crates/fprint-bozorth3/src/cluster.rs:576-583 | a new cluster enters all tables with itself as its chain |
| Matcher.Bz.BuildCluster | crates/fprint-bozorth3/src/cluster.rs:498-666 | cross-checking the new cluster against every earlier one leaves tables that describe all clusters, and the running best the heaviest chain |
| Matcher.Bz.FormCluster | crates/fprint-bozorth3/src/cluster.rs:513-575 | the accumulating pass computes the cluster of the path: mean rotation, truncated centroids, sorted endpoint sets |
| Matcher.Bz.Passes | crates/fprint-bozorth3/src/cluster.rs:585-656 | the three gates and the two walks decide compatibility, which is agreement as `Gates.CompatibleIsAgreement` has it |
| Gates.CompatibleIsAgreement | crates/fprint-bozorth3/src/cluster.rs:585-656 | two clusters pass the gates exactly when their rotations are within 11 degrees, the squared distances of their centroids within a tenth of their sum, the turn of the vector between the centroids within 11 degrees of the middle of the rotations, and no endpoint of either print is in both |
| Gates.MeanIsMiddle | crates/fprint-bozorth3/src/cluster.rs:609-641 | the mean of two rotations is the angle half-way between them on the shorter arc, a half degree going away from zero |
| Matcher.Bz.SortedSetsIntersect | crates/fprint-bozorth3/src/cluster.rs:848-858 | true exactly when the two ascending lists share an element |
| Clusters.EndsAreEndpoints | crates/fprint-bozorth3/src/cluster.rs:542-552 | the endpoint list is ascending and its members are exactly the endpoints of the cluster's edges |
| Clusters.GatherSnoc | crates/fprint-bozorth3/src/cluster.rs:513-553 | one edge's contribution to all sums and both endpoint sets |
| Rotation.MeanIsFolded | crates/fprint-bozorth3/src/cluster.rs:555-571 | the mean of folded angles is a folded angle |
| Rotation.MeanOfTwoIsMidway | crates/fprint-bozorth3/src/cluster.rs:609-641 | the mean of two directions lies midway between them on the shorter arc, to within rounding |
| Clusters.SpacingIsSquared | crates/fprint-bozorth3/src/cluster.rs:598-605 | the linear spacing test is the squared one |
| Rotation.KeptIsCircular | crates/fprint-bozorth3/src/cluster.rs:412-424 | the prune keeps exactly the edges within 11 degrees of the mean, around the circle |
| Rotation.KeptIsSublist | crates/fprint-bozorth3/src/cluster.rs:412-424 | pruning drops edges and reorders or repeats none |
| Mean.MeanIs | crates/fprint-bozorth3/src/cluster.rs:384-411 | the mean of any folded angles: their average, or that with the negative ones a full turn further on exactly when there are both kinds and their averages are more than a half turn apart |
| Mean.MeanIsAverage | crates/fprint-bozorth3/src/cluster.rs:384-411 | the mean of angles on an arc of less than a half turn lies on the arc, wherever on the circle, at the average of their offsets along it, to within rounding |
| Mean.MeanStaysBetween | crates/fprint-bozorth3/src/cluster.rs:384-411 | the mean of angles between two numbers at most 180 apart is between them |
| Mean.TightPathIsKept | crates/fprint-bozorth3/src/cluster.rs:382-424 | a path whose rotations are within 11 degrees of one another loses no edge to the prune |
| Mean.TightPathClusters | crates/fprint-bozorth3/src/cluster.rs:382-438 | such a path of three edges or more becomes a cluster of all its edges |
| Mean.ShortPathIsKept | crates/fprint-bozorth3/src/cluster.rs:382-384 | fewer than three edges are not pruned |
| Consts.BandIsCircular | crates/fprint-bozorth3/src/cluster.rs:414-418 | on folded angles the squared band rejects exactly circular distance above 11 |
| Matcher.Bz.SiftEdge | crates/fprint-bozorth3/src/cluster.rs:135-245 | the in-place sift changes the arrays exactly as `Sift` changes the value state, or reports the same overflow |
| Paths.SiftKeeps | crates/fprint-bozorth3/src/cluster.rs:135-245 | every case keeps the pairing one-to-one, the groups filed and duplicate-free (at most 11), the queue, and the path of distinct stamped edges; pairs and alternatives are only added |
| Paths.PairKeepsInverse | crates/fprint-bozorth3/src/cluster.rs:174-175 | pairing two free endpoints keeps the halves inverse |
| Paths.NoteKeepsGroups | crates/fprint-bozorth3/src/cluster.rs:192-243 | noting an alternative keeps group numbers and endpoints in one-to-one correspondence and lists duplicate-free |
| Paths.ConflictOpensTwo | crates/fprint-bozorth3/src/cluster.rs:189-243 | a conflict opens one group for each end that is paired elsewhere and has none yet, so two at most |
| Matcher.Bz.NoteAlternative | crates/fprint-bozorth3/src/cluster.rs:192-216 | opening or widening a group in the arrays is `Note` on values |
| Matcher.Bz.SiftRun | crates/fprint-bozorth3/src/cluster.rs:275-287 | sifts exactly the run of rows that start as the first one does, in order |
| Matcher.Bz.SiftEnding | crates/fprint-bozorth3/src/cluster.rs:292-320 | sifts exactly the later rows that end at the queued pair and share no start with the seed, in order |
| Matcher.Bz.SiftStarting | crates/fprint-bozorth3/src/cluster.rs:322-378 | sifts exactly the later rows that start at the queued pair, each once and in table order |
| Lookup.FindStart | crates/fprint-bozorth3/src/cluster.rs:322-361 | the binary search and walk-back find the first later row with the key if there is one, and otherwise there is none |
| Lookup.RunFromHead | crates/fprint-bozorth3/src/cluster.rs:322-378 | in an ordered table the rows with a key are one contiguous run from the first of them |
| Lookup.EndingRowsAreExact | crates/fprint-bozorth3/src/cluster.rs:292-320 | the linear scan takes each row that ends at the pair once, in order, and no other |
| Lookup.StartingRowsAreExact | crates/fprint-bozorth3/src/cluster.rs:322-378 | the keyed look-up takes each row that starts at the pair once, in order, and no other |
| Matcher.Bz.ExploreQueue | crates/fprint-bozorth3/src/cluster.rs:289-380 | the breadth-first loop terminates, within the queue's bound, and expands the queue exactly as `Explore` does |
| Matcher.Bz.GrowPath | crates/fprint-bozorth3/src/cluster.rs:270-380 | the whole path, grown in place, is `Grow` on values |
| PathFacts.GrowKeeps | crates/fprint-bozorth3/src/cluster.rs:270-380 | over a path the pairing only grows; each edge taken has its far pair in it, and each edge past the seed's run both |
| PathFacts.PathIsOneToOne | crates/fprint-bozorth3/src/cluster.rs:289-380 | the edges reached by expansion realise one injective map from probe to gallery endpoints |
| PathFacts.SiftAllRealises | crates/fprint-bozorth3/src/cluster.rs:149-186 | sifting any list of rows keeps every edge of the path realised by the pairing |
| Reach.GrowIsBreadthFirst | crates/fprint-bozorth3/src/cluster.rs:269-380 | growing a path is sifting, in breadth-first order, exactly the rows it meets: those that start like the seed, then for each pair queued the later rows that end there and share neither start with the seed, then those that start there |
| Reach.MetRowsAreDone | crates/fprint-bozorth3/src/cluster.rs:135-243 | a row met anywhere has an end paired when the path is done; carries the path's stamp if its ends are paired with each other; and if they are not, is on file as an alternative, unless ten groups are open |
| Reach.PathIsMetAndClosed | crates/fprint-bozorth3/src/cluster.rs:269-380 | with a stamp not used before, the path is exactly the rows met whose two ends have come to be paired with each other |
| Reach.SiftQueuesWhen | crates/fprint-bozorth3/src/cluster.rs:149-191 | when sifting queues an endpoint and with which mark, when it overflows at 4000, and that with ten groups open a conflict changes nothing |
| Reach.ConflictFiles | crates/fprint-bozorth3/src/cluster.rs:188-243 | a conflict files the row's pair with each of its ends that is paired elsewhere |
| Formed.GrowSuggests | crates/fprint-bozorth3/src/cluster.rs:269-380 | a path pairs, and files as alternatives, only ends that some row of the table joins |
| Formed.RoundKeepsSelections | crates/fprint-bozorth3/src/cluster.rs:192-243 | in every round each open group has its selected alternative in the pairing |
| Formed.SweepIsSound | crates/fprint-bozorth3/src/cluster.rs:253-488 | over the whole search pairs and alternatives are those of rows, and every cluster is what the prune leaves of a grown path |
| Matcher.Bz.SettlePath | crates/fprint-bozorth3/src/cluster.rs:382-438 | pruning, rolling back or forming a cluster in place is `Settle` on values |
| Matcher.Bz.PruneEdges | crates/fprint-bozorth3/src/cluster.rs:411-424 | compacting in place leaves exactly the edges kept, in order |
| Matcher.Bz.RollBack | crates/fprint-bozorth3/src/cluster.rs:427-432 | stamps of the path's edges go back to what they were, or to -1; others stay |
| Matcher.Bz.SumRotations | crates/fprint-bozorth3/src/cluster.rs:384-395 | the sums and counts of negative and other rotations |
| Seeds.SettleKeeps | crates/fprint-bozorth3/src/cluster.rs:382-438 | settling touches only stamps and clusters; every new cluster has at least three distinct edges of the table |
| Seeds.PrunedEdgesKeepTheirStamp | crates/fprint-bozorth3/src/cluster.rs:412-433 | an edge dropped by the prune keeps the path's stamp even if what is left is rolled back |
| Matcher.Bz.TearDown | crates/fprint-bozorth3/src/cluster.rs:440-458 | unpairing queue and applied endpoints in place is `Teardown` on values |
| Seeds.TeardownKeeps | crates/fprint-bozorth3/src/cluster.rs:440-458 | after teardown the pairing is still one-to-one, only the seed can be paired, and no queue mark is left |
| Seeds.TearAndTurnKeeps | crates/fprint-bozorth3/src/cluster.rs:440-468 | teardown and odometer hand the next round a state to start from; the selections moved on |
| Matcher.Bz.TurnOdometer | crates/fprint-bozorth3/src/cluster.rs:672-722 | the nested count-and-apply loop terminates and computes `Turn`; `rr` then lists the probe endpoints applied |
| Matcher.Bz.ApplySelections | crates/fprint-bozorth3/src/cluster.rs:679-707 | adds selections from the last group down and stops at the first that clashes, exactly as `Apply` |
| Matcher.Bz.UndoSelections | crates/fprint-bozorth3/src/cluster.rs:708-716 | removes exactly the pairs of the endpoints just applied |
| OdometerFacts.TurnKeeps | crates/fprint-bozorth3/src/cluster.rs:672-722 | every attempt keeps the halves inverse; on success all selections are in the pairing and nothing else is new, on failure no pair is new; selections strictly advance |
| OdometerFacts.TurnSkipsOnlyMisfits | crates/fprint-bozorth3/src/cluster.rs:672-722 | every combination a turn passes over contradicts the pairing it started from |
| OdometerFacts.UndoRestricts | crates/fprint-bozorth3/src/cluster.rs:708-716 | an undone attempt leaves no pair that was not there before |
| OdometerFacts.ApplySelects | crates/fprint-bozorth3/src/cluster.rs:679-707 | the selections applied are all in the pairing |
| OdometerFacts.FittingApplies | crates/fprint-bozorth3/src/cluster.rs:679-707 | a combination that fits is never refused |
| Odometer.BeforeRanks | crates/fprint-bozorth3/src/cluster.rs:672-722 | lexicographically later selections have a strictly smaller rank, the termination measure |
| Odometer.CountingUp | crates/fprint-bozorth3/src/cluster.rs:672-678 | counting steps to the next combination in lexicographic order, or has none left |
| Seeds.RoundKeeps | crates/fprint-bozorth3/src/cluster.rs:269-468 | every round keeps the seed loop's invariant, only adds clusters, and lowers the rank although groups and alternatives were added while it ran |
| Seeds.WideningKeepsRank | crates/fprint-bozorth3/src/cluster.rs:189-243 | new groups and alternatives never raise the rank |
| Seeds.SeedLeavesClean | crates/fprint-bozorth3/src/cluster.rs:259-487 | a seed that runs its course leaves pairing, group numbers and marks as clean as it found them |
| Seeds.CleanupCleans | crates/fprint-bozorth3/src/cluster.rs:474-487 | the per-seed cleanup clears what the rounds left, whether or not a teardown has unpaired the seed itself |
| Seeds.PlantIsReady | crates/fprint-bozorth3/src/cluster.rs:259-267 | a seed pairs its own endpoints in clean arrays |
| Seeds.SweepKeepsClusters | crates/fprint-bozorth3/src/cluster.rs:253-488 | over all seeds clusters are only added, each well formed, and a finished sweep ends clean |
| Visits.RoundStamps | crates/fprint-bozorth3/src/cluster.rs:423-438 | one round's path, what the prune leaves of it, and the stamp of every row afterwards; the path's number is used up exactly when a cluster is formed |
| Visits.EveryRowIsVisited | crates/fprint-bozorth3/src/cluster.rs:253-260 | a search that comes to its end has had every row but the last on some path |
| Matcher.Bz.RunSeed | crates/fprint-bozorth3/src/cluster.rs:259-487 | the seed's rounds terminate in place with the outcome of `SeedLoop`; a finished seed leaves the arrays clean for the next |
| Matcher.Bz.Round | crates/fprint-bozorth3/src/cluster.rs:269-468 | one round in place is one round on values |
| Matcher.Bz.CleanUp | crates/fprint-bozorth3/src/cluster.rs:474-487 | in place, the cleanup on values |
| Matcher.Bz.SweepSeeds | crates/fprint-bozorth3/src/cluster.rs:253-488 | the outer loop in place is `Sweep`: rows already stamped are skipped, the 2000th cluster ends it |
| Xyt.Prepare | crates/fprint-bozorth3/src/xyt.rs:37-65 | the columns of the stably sorted, folded, capped minutiae: parallel and ascending by (x, y) |
| Xyt.FoldTheta | crates/fprint-bozorth3/src/xyt.rs:41-46 | one subtraction folds a canonical angle into (-180, 180] |
| StableSort.SortIsStable | crates/fprint-bozorth3/src/xyt.rs:50-52 | elements that tie keep their order |
| StableSort.StableSortIsUnique | crates/fprint-bozorth3/src/xyt.rs:50-52 | a sorted sequence with the same ties is the stable sort |
| Intra.Comp | crates/fprint-bozorth3/src/intra.rs:24-100 | on a sorted print without wrap-around: the stable sort of the brute-force filter over all pairs; on any print: of the rows the scan finds; on a canonical print of at most 150 minutiae a row for exactly the pairs at most 125 pixels apart that do not point opposite ways |
| Intra.BreakDropsNothing | crates/fprint-bozorth3/src/intra.rs:51-57 | on x-sorted columns the early break loses no edge |
| Intra.BreakNeedsOrder | crates/fprint-bozorth3/src/intra.rs:51-57 | an unsorted print on which it does |
| Intra.RowsNearPairs | crates/fprint-bozorth3/src/intra.rs:28-96 | the table of a sorted canonical print of at most 150 minutiae has a row for two of them if and only if they do not point opposite ways and are at most 125 pixels apart, and no two rows for a pair |
| Intra.OppositeIsHalfTurn | crates/fprint-bozorth3/src/intra.rs:33-40 | the ridges skipped are those a half turn apart |
| Intra.TableTells | crates/fprint-bozorth3/src/intra.rs:60-91 | a row tells its ends' squared distance, and under which angle to its own ridge each end sees the other, the smaller angle first, with whose it is |
| Intra.EdgesAscend | crates/fprint-bozorth3/src/intra.rs:98 | rows ascend by length, then the smaller angle, then the larger |
| Intra.CapIsBelowLimit | crates/fprint-bozorth3/src/intra.rs:93-96 | with at most 150 minutiae the table limit is never reached |
| Intra.TableHoldsEdges | crates/fprint-bozorth3/src/intra.rs:24-100 | every row is an edge of the print, and rows are sorted by (distance, beta_min, beta_max), whatever the coordinates |
| Intra.TableFits | crates/fprint-bozorth3/src/intra.rs:80-91 | on canonical angles both betas are folded and the last column tells swapped from unswapped |
| Intra.PruneLen | crates/fprint-bozorth3/src/intra.rs:106-137 | min(n, max(C + 1, 500)) for n sorted rows of which C are no longer than the pruning distance |
| Intra.PruneKeepsShort | crates/fprint-bozorth3/src/intra.rs:106-137 | the prune keeps every edge of up to 75 pixels, makes at least 500 of them as far as there are edges, and beyond 500 keeps one longer edge |
| Inter.BzMatch | crates/fprint-bozorth3/src/inter.rs:24-99 | the never-rewinding cursor and early break give the brute-force filter over all gallery rows and all probe rows but the last, cut at the limit and stably sorted |
| Inter.WalkRow | crates/fprint-bozorth3/src/inter.rs:30-92 | one probe row's walk finds all its pairs; every row the cursor has passed is too short for good |
| Inter.ShortOnesDoNotPair | crates/fprint-bozorth3/src/inter.rs:35-42 | rows before the cursor pair with nothing |
| Inter.LongOnesDoNotPair | crates/fprint-bozorth3/src/inter.rs:43-45 | behind the first row that is too long nothing pairs |
| Inter.ReachIsLinear | crates/fprint-bozorth3/src/inter.rs:35-38 | on lengths the squared test is 10 |f - s| > f + s |
| Inter.AgreementIsCircular | crates/fprint-bozorth3/src/inter.rs:48-62 | the band on relative angles is circular distance at most 11 at both ends |
| Inter.SwapFlagDecodes | crates/fprint-bozorth3/src/intra.rs:80-89 | stage 2 reads the swap flag back for what stage 1 wrote, and the edge's direction with it |
| Inter.RotationIsDifference | crates/fprint-bozorth3/src/inter.rs:64-79 | the rotation column lies in (-180, 180] and is the difference of the directions modulo 360 |
| Inter.RotationsAreFolded | crates/fprint-bozorth3/src/inter.rs:64-79 | so in every row of the table |
| Inter.TableHoldsPairs | crates/fprint-bozorth3/src/inter.rs:81-98 | every row joins a probe and a gallery row that agree, and rows are in stage 3's order |
| Inter.EndpointsFit | crates/fprint-bozorth3/src/inter.rs:81-86 | every endpoint belongs to its print, and no edge is a loop |
| Inter.TableJoinsLikeEnds | crates/fprint-bozorth3/src/inter.rs:48-88 | every row joins ends that look alike: near end to far end and far end to near end, the angle to the own ridge is the same in both prints to within 11 degrees; lengths agree, and the first column is the difference of the headings |
| Inter.LikeEdgesAreJoined | crates/fprint-bozorth3/src/inter.rs:30-92 | unless the table is full, every probe row but the last is joined with every gallery row that is like it |
| Inter.TableCountsPairs | crates/fprint-bozorth3/src/inter.rs:30-92 | the table has as many rows as there are such pairs, or 19999 |
| Inter.PairsAscend | crates/fprint-bozorth3/src/inter.rs:95-97 | rows ascend by the probe's near end, then the gallery's, then the probe's far end |
| Inter.FlippedIsNotJoined | crates/fprint-bozorth3/src/inter.rs:48-62 | two edges that look alike at both ends to within two degrees and are not joined, as their smaller angles are at different ends |
| Pipeline.MatchMinutiae | crates/fprint-bozorth3/src/lib.rs:152-168 | defined on every two lists of minutiae; the one answer of the three stages, a score at most the table limit, zero for small prints |
| Pipeline.PairsFitStage3 | crates/fprint-bozorth3/src/lib.rs:163-165 | what stage 3 demands of its table holds on any two prints |
| Pipeline.PairsJoinLikeEnds | crates/fprint-bozorth3/src/lib.rs:159-164 | every row stage 3 gets joins two edges that the prunes have kept, at ends that look alike |
| Pipeline.PrintHoldsFirst | crates/fprint-bozorth3/src/xyt.rs:37-62 | a print holds its first 150 minutiae as listed, with folded angles, by column and then by row |
| Translation.TranslationKeepsScore | crates/fprint-bozorth3/src/lib.rs:14-20 | moving either print changes nothing about the answer as long as the coordinate sums of the clusters keep their side of zero or divide evenly |
| Translation.TablesIgnoreShift | crates/fprint-bozorth3/src/intra.rs:42-50 | stage 1's table does not see where the print lies |
| Translation.GatesIgnoreMove | crates/fprint-bozorth3/src/cluster.rs:585-648 | no gate between two clusters changes when both prints are moved |
| Translation.CentroidShifts | crates/fprint-bozorth3/src/cluster.rs:573-575 | a centroid moves with its print exactly when the coordinate sum keeps its side of zero or divides evenly, whatever the signs of the coordinates; only the whole sum has to fit 32 bits |
| Translation.DivisionShifts | crates/fprint-bozorth3/src/cluster.rs:573-575 | truncating division commutes with the shift if and only if the sum carries |
| Translation.WrapSumIsWrapped | crates/fprint-bozorth3/src/cluster.rs:528-539 | wrapping at every addition is wrapping once at the end |
| Translation.ImagesCarry | crates/fprint-bozorth3/src/lib.rs:18-20 | prints with coordinates from 0 to 107379 before and after always carry their move |
| Recast.SearchRecasts | crates/fprint-bozorth3/src/cluster.rs:248-488 | the search on any other prints with the same table takes the same paths; only the clusters' averages differ |
| Permutation.OrderKeepsScore | crates/fprint-bozorth3/src/xyt.rs:10-22 | reordering minutiae, within the cap and where minutiae on one pixel have one folded angle, changes nothing about the answer |
| Permutation.PrepIgnoresOrder | crates/fprint-bozorth3/src/xyt.rs:37-65 | nor about the prepared print |
| Permutation.OrderIsImmaterialIff | crates/fprint-bozorth3/src/xyt.rs:48-52 | within the cap every order prepares the same print if and only if minutiae on one pixel have the same folded angle |
| Date.DaysFromCivilIsPlain | crates/fprint-fp3/src/date.rs:47-55 | the era arithmetic is the plain count of days, a year and a month at a time, in every year, negative ones included |
| Date.NextDayIsOneLater | crates/fprint-fp3/src/date.rs:47-55 | the day after counts one more, across month ends, leap days and year ends |
| Date.WideCivilIsInverse | crates/fprint-fp3/src/date.rs:58-70 | every day count decodes to a real date, and that date counts back to it |
| Date.CountIsReversible | crates/fprint-fp3/src/date.rs:58-70 | every real date survives the count and back |
| Date.CountRises | crates/fprint-fp3/src/date.rs:47-55 | a later date has the larger count |
| Date.EncodableExactly | crates/fprint-fp3/src/date.rs:79-85 | a real date has an encoding exactly when it lies in -5879610-06-23 ..= 5879611-07-11 |
| Date.EncodingRises | crates/fprint-fp3/src/date.rs:79-85 | encodings compare as dates do |
| Date.EncodeDecode | crates/fprint-fp3/src/date.rs:79-95 | decoding an encoding gives the date back |
| Date.DecodeEncode | crates/fprint-fp3/src/date.rs:79-95 | every 32-bit number but the sentinel decodes to a real date that encodes to it; the sentinel decodes to none |
| Date.CastsAreExact | crates/fprint-fp3/src/date.rs:66-69 | no cast loses information on a day count the wire can hold |
| Date.NoStepOverflows | crates/fprint-fp3/src/date.rs:47-55 | no intermediate value leaves 64 bits, whatever the fields hold |
| Streaming.DeliveredExactlyOnce | crates/fprint-backend-libfprint/src/device.rs:144-179 | in every interleaving the reports delivered are a prefix of those pushed, and on completion all of them, once and in order, with the worker's result or a cancellation |
| Streaming.StepKeeps | crates/fprint-backend-libfprint/src/device.rs:152-179 | every single step keeps what that rests on |
| Streaming.JobsAreSerial | crates/fprint-backend-libfprint/src/worker.rs:116-123 | no job is begun before every earlier one is answered or lost |
| Streaming.GuardFiresAtTheEnd | crates/fprint-backend-libfprint/src/device.rs:127-135 | in every interleaving an operation's cancellable has fired exactly when its future was dropped or completed; that it fires no other's is built into the model, where each operation has its own flag |
| Streaming.PollAfterReplyCompletes | crates/fprint-backend-libfprint/src/device.rs:157-176 | once the reply is there, or the worker has gone without one, one poll delivers every report left and completes |
| Streaming.FinalDrainIsNeeded | crates/fprint-backend-libfprint/src/device.rs:163-168 | a report can always land between the first drain and the reply check; only the second drain delivers it |
| Reader.Stream.Poll | crates/fprint-backend-libfprint/src/device.rs:157-177 | one poll, with the worker free to run between any two channel operations: nothing lost, everything delivered on completion, completion if the reply was there |
| Reader.Stream.Drain | crates/fprint-backend-libfprint/src/device.rs:160-162 | delivers until the channel is empty, and terminates |
| Reader.Worker.Run | crates/fprint-backend-libfprint/src/worker.rs:96-262 | serves every job up to the shutdown in order, leaves in the cell the temperature last published by a callback or for an open device, and leaves the sensor closed |
| Reader.LogIsSerial | crates/fprint-backend-libfprint/src/worker.rs:116-253 | each job's reports come together, its reply last, before anything of a later job |
| Reader.EveryJobIsAnswered | crates/fprint-backend-libfprint/src/worker.rs:116-253 | every job before the shutdown is answered exactly once |
| Reader.JobIsLogged | crates/fprint-backend-libfprint/src/worker.rs:116-253 | what is logged of a job, without a gap: each callback's report, if it is an enrolment, a verification or an identification, then the device's result |
| Reader.TemperatureIsLast | crates/fprint-backend-libfprint/src/worker.rs:116-262 | the temperature in the cell is that of the last job to leave one |
| Enrollment.CapacityHolds | crates/fprint-backend-native/src/store.rs:63-71 | however polls interleave, the store never exceeds its capacity |
| Enrollment.DroppedEnrollChangesNothing | crates/fprint-backend-native/src/device.rs:264-274 | dropped at whichever poll, an enrolment has changed nothing but its own future |
| Enrollment.PendingStoresNothing | crates/fprint-backend-native/src/device.rs:210-274 | a poll stores a print only if it returns that print, and ends the future exactly when it is not pending |
| Enrollment.PollKeepsDistinctIff | crates/fprint-backend-native/src/device.rs:210-272 | a poll breaks distinctness exactly when, before it, the future was about to store and the template was there already |
| Enrollment.StoredStayDistinct | crates/fprint-backend-native/src/device.rs:210-274 | while no two handles enrol the same template at once, stored templates stay pairwise distinct |
| Enrollment.OneHandleNeverDuplicates | crates/fprint-backend-native/src/device.rs:224-228 | one handle with the duplicate check never stores a template twice |
| Enrollment.TwoHandlesDuplicate | crates/fprint-backend-native/src/device.rs:224-272 | two handles suspended before their last capture for one template both store it, given room for two: check first, commit last |
| Enrollment.TwoHandlesReachDuplicate | crates/fprint-backend-native/src/device.rs:210-272 | from an empty store a run of moves of two handles that both check for duplicates ends with the template stored twice, for any numbers of stages |
| Enrollment.DeletedIsGone | crates/fprint-backend-native/src/store.rs:74-83 | with distinct templates a deleted one is gone |
| Enrollment.DuplicateSurvivesDelete | crates/fprint-backend-native/src/store.rs:74-83 | after a delete the template is still stored if and only if two prints carried it |
| Enrollment.PollCountsCaptures | crates/fprint-backend-native/src/device.rs:234-251 | each pending poll stands for exactly one capture, and progress counts the stages passed |
| Enrollment.EnrollTerminates | crates/fprint-backend-native/src/device.rs:234-251 | an enrolment polled on is over after at most one capture per scripted step and stage |
| Enrollment.MoveTouches | crates/fprint-backend-native/src/device.rs:190-355 | what a move can change: prints are added by a committing poll only, and go only through an open handle with the feature; the shape settles at the first opening |
| EnrollRuns.EnrolmentToItsEnd | crates/fprint-backend-native/src/device.rs:210-274 | an enrolment polled to its end: refused with the first poll on a closed handle, then for want of room, then as a duplicate; otherwise it reports each scripted capture in turn, returns the print asked for, and stores it if the reader matches on chip |
| VirtualReader.VirtualDevice.PollFuture | crates/fprint-backend-native/src/device.rs:210-274 | one poll of the resumable enrolment, on the shared store, is `PollEnroll` |
| VirtualReader.VirtualDevice.Open | crates/fprint-backend-native/src/device.rs:190-203 | opening twice is refused; the first opening settles the shape once and for all |
| VirtualReader.VirtualDevice.DropEnroll | crates/fprint-backend-native/src/device.rs:264-274 | dropping leaves the store alone |
| VirtualReader.VirtualDevice.DeletePrint | crates/fprint-backend-native/src/device.rs:344-348 | the error cases, and the first print with the template removed |
| VirtualReader.VirtualDevice.ClearStorage | crates/fprint-backend-native/src/device.rs:350-355 | the error cases, and an empty store |
| VirtualReader.PrintStore.Push | crates/fprint-backend-native/src/store.rs:64-71 | full stores refuse and stay as they are |
| VirtualReader.PrintStore.ContainsTemplate | crates/fprint-backend-native/src/store.rs:54-61 | true exactly when some stored print carries the template |
| VirtualReader.PrintStore.RemoveByTemplate | crates/fprint-backend-native/src/store.rs:74-83 | removes the first print with the template, or reports that there is none |
| VirtualReader.YieldNow.PollYield | crates/fprint-backend-native/src/yield_now.rs:31-41 | pending the first time, ready ever after |

## Left out

- Single-precision rounding: the distance band, the mean rotations and the spacing gate are computed in exact rationals.
- Values of `atan` and `vector_angle`: functions given as arguments.
- The 4000 that a queue overflow returns as a score: a separate outcome, `QueueOverflowed`.
- Matcher.Bz.FinalLoop: where the source would panic on an index the method ends with the outcome `OutOfRange`; unwinding is not modelled.
- Reach.PathIsMetAndClosed: asks for a stamp that no row carries yet. The number of a path that was rolled back is used again, and rows its prune had dropped still carry it; what is left of such rows is in `Reach.MetRowsAreDone`.
- Meaning.ClusterIsPlacement: the near ends are not claimed to be one-to-one, since a teardown can unpair the seed; rows past the seed's run are, in `PathFacts.PathIsOneToOne`.
- Inter.TableJoinsLikeEnds: canonical angles, and coordinates from -2^30 up to 2^30, whose differences do not wrap.
- Inter.LikeEdgesAreJoined: edges are compared as stage 2 does, the smaller relative angle with the smaller; two that look alike only across the half turn, where the order of the two flips, are not joined (`FlippedIsNotJoined`).
- StarScore.StarsLeaveArrays: up to 10 alternatives, where stage 1 prunes nothing; prints of more minutiae that leave the arrays are not constructed.
- Matcher.Bz.Run: the one function of the source is split into the methods for growing, settling, tearing down and turning, so its local variables travel as arguments and results.
- Matcher.Bz.NoteAlternative: the probe and gallery halves of the conflict case, which differ only in the arrays they use, are one method with a flag.
- Matcher.Bz.FormCluster: the binary-search insertion into the sorted endpoint vectors is the function `InsertSorted`, which inserts at the same place.
- The clusters' edge lists are kept as ghost state beside the tables; the source forgets them.
- 32-bit overflow of plain additions and multiplications in stage 3 (rotation sums, squared angle differences): integers are unbounded there.
- Intra.Comp: the sort itself is the specified stable sort, not an algorithm; the same holds in `Inter.BzMatch` and `Xyt.Prepare`.
- Translation.TranslationKeepsScore: the shifted coordinates themselves are not bounded to 32 bits; their sums over a cluster are.
- Permutation.OrderIsImmaterialIff: prints within the cap of 150; of longer ones the first 150 as listed are kept.
- Streaming: wakers and the scheduling of threads; the model lets every enabled step happen at any time, so it says what can be delivered, not when.
- Reader.Worker.Run: what the device does for a job is a function argument (callbacks with report and temperature, result, open or not, temperature); the foreign calls and the print conversions are not modelled.
- Enrollment: verify and identify, the scripted finger, the device names and the fixed enrolment date of a stored print.
- Date: the error value carries the date; its message text is not modelled.
- MINDTCT, the print serialisation beside the date, USB framing and the composite backend.
- The image device, whose enrolment loop is a weaker copy of the virtual device's.
- The command line, the driver kit, the repository tasks, the fuzz targets and the corpus generators.
