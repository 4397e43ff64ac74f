# Verification model of derech

derech answers batches of shortest-path requests on weighted grids: weighted A* per request, reverse-Dijkstra goal
fields shared by requests with the same goal, a transactional cache of such fields that survives irrelevant edits,
component labels, and a worker pool whose schedule must not show in the results.  This project models those layers in
Dafny and proves what they promise.  `dafny verify dfyconfig.toml` checks everything.

## How the model is laid out

- `FixedPoint`, `Grid`, `Profiles`, `Registration`: quantisation, step costs, legality of steps, profiles, and the view
  one profile has of a terrain.  Everything below is stated against legal routes of that view; `Prices` says what they
  are in the terms of terrain and weights, tile by tile, with no view at all.
- `Heuristic`, `OpenList`, `Trails`, `SearchMachine`, `SearchInvariant`, `SearchResults`, `SearchExact`, `SearchChains`,
  `SearchOnce`, `ShortSearch`, `Effort`: weighted A* as a machine on abstract states, its invariant, and what follows.
  `SearchKernel` is the imperative search over stamped arrays and a binary heap; it refines the machine.  `Emit` and
  `Solve` turn its outcome into an answer.  `Effort` bounds what a search can take, which is why unlimited budgets are.
  `Pruning`, `Expansions` and `Reports` say what the status, the closest approach and the count of an answer mean.
- `FieldMachine`, `FieldExact`, `FieldKernel`, `FieldAnswers`: goal fields, their exactness, the imperative build, and
  answers read off them.  `Totals` bounds the durations summed along either kind of path.
- `Interner`, `DirtyLog`, `TileMap`: tag words, folded tables, the edit log, and the setters of the map.
- `Labels`, `GoalSets`, `Survival`, `Invalidation`, `Reconcile`: component labels, goal sets, and why what reconciling
  keeps is what a fresh build would give.  `Reconcile.Store` is a map with everything remembered about it; each public
  operation keeps `Store.Valid()`, which is how statements about all sequences of calls are made.
- `Recency`, `FieldCache`, `Groups`, `Staging`, `Planner`, `Delivery`, `Calls`: the field cache, request grouping,
  waves, the tasks they run on a crew of workers, and the whole call.  `Promise` says what every delivered answer is
  worth to the caller, whichever way it was obtained; it rests on nearly everything else.
- `Pool`, `Schedule`: the claim and completion protocol as a state machine over single steps, and why results do not
  depend on workers or interleavings: the real methods on any worker are runs of a machine whose every schedule, over
  all waves of a batch, ends with the same answers.  `Rounds` joins the two: what the pool does is such a schedule.
- `Bottleneck`, `Detour`, `Degenerate`, `Lane`, `BudgetCut`: two promises of the documentation that the code does not
  keep in general, with the inputs that show it and the conditions under which it does.  `EarlyBlame` does the same for
  a third thing a caller might conclude, that a cap is only blamed where a cheapest way meets it.

Tag words and masks are sets of bit numbers below 64.  Hash functions are arbitrary functions.  Weights are reals; all
search arithmetic is in integers, and that it fits in the source's integer widths, durations summed along paths
included, is proved rather than assumed.

## Where code and documentation differ

- `src/profile.c:151-155` and `include/derech.h:65-67` say that the octile floors never overestimate and that epsilon 1
  is exact.  When a profile's discounts round the straight floor to 0 it is forced up to 1, and with diagonals of at
  least two straight steps the diagonal floor becomes 2 while a diagonal step may cost 1.  `Degenerate.PromiseIffHonest`
  says exactly which profiles are affected, and `Degenerate.PromiseFails` that there are some.
- `include/derech.h:547-550` calls the totals exact.  They are for every found path.  When an expansion budget ends an
  inflated search, the perceived total of the partial path may be more than its steps cost
  (`BudgetCut.OverstatedTotal`).  `BudgetCut.TotalsExactIff` says for which epsilons and budgets that can happen, and
  `Solve.EmittedPathIsLegal` gives conditions on the request under which it cannot.
- A capped search that runs dry reports BUDGET_EXCEEDED once any step it tried exceeded the cap, also one tried from a
  tile that a cheaper way reached later (`src/search.c:255-259`).  At epsilons of 257/256 and more the report may come
  although every cheapest way ends well within the cap: `EarlyBlame.BlamedTooEarly` shows it, and
  `EarlyBlame.BlamedJustlyIff` says for which epsilons it cannot happen.  `Reports.CapIsBlamed` is what always holds.
- `include/derech.h:95-97` says any terrain edit invalidates cached fields; the code, as `include/derech.h:133-140`
  says, keeps those that edits cannot affect, and the model follows the code.

## Model

| member | source | states |
|---|---|---|
| `FixedPoint.Round` | src/derech_internal.h:165-185 | Quantisation never exceeds its cap, and below the cap is off by at most half a unit |
| `FixedPoint.RoundMonotone` | src/derech_internal.h:165-185 | A dearer weight never quantises to less, also across different caps |
| `Grid.EnterCost` | src/derech_internal.h:532-543 | Entering a tile is never free and never more than 32 bits |
| `Grid.StepBack` | src/field.c:21 | The opposite direction returns to the tile it came from |
| `Grid.CornerSymmetric` | src/field.c:101-118 | A diagonal is squeezed by the same two tiles from either end, so the corner rule allows it both ways or neither |
| `Heuristic.OctileShape` | src/search.c:98-115 | The octile subtraction never underflows: the value is the straight part times hD plus the diagonal part times hD2 |
| `Heuristic.Consistent` | src/search.c:98-115 | With sound floors no legal step lowers the heuristic by more than the step costs |
| `Heuristic.Admissible` | src/search.c:98-115 | With sound floors the heuristic never exceeds the cost of any legal route to the goal |
| `OpenList.FieldOrderIsTheSame` | src/field.c:28-97 | The field's heap, which compares costs and indices only, orders its entries as the search's heap does |
| `OpenList.FirstIsUnique` | src/search.c:21-30 | Among any entries at most one is first in the order f ascending, g descending, index ascending, so what is popped depends on contents alone |
| `OpenList.FirstReads` | src/search.c:21-30 | The entry popped has the least f, among those the greatest g, among those the least index |
| `OpenList.RootIsFirst` | src/search.c:66-92 | In a heap the root is the first of all entries |
| `OpenList.Heap.Push` | src/search.c:32-64 | Adds exactly the entry to the heap's multiset and keeps heap order |
| `OpenList.Heap.Pop` | src/search.c:66-92 | Removes and returns the first entry of the multiset, and nothing else, and keeps heap order |
| `Trails.TentativeCostBounded` | src/search.c:200-276 | However often tiles were re-expanded, a finite tentative cost is at most n - 1 steps of the dearest price |
| `SearchInvariant.RelaxKeeps` | src/search.c:239-274 | One direction of an expansion keeps, for every tile: pending or accounted for in all directions but those still to come, parents legal and no dearer than recorded, closest approach right |
| `SearchInvariant.ExpandKeeps` | src/search.c:216-275 | A whole expansion keeps the search invariant |
| `SearchInvariant.SearchHolds` | src/search.c:155-282 | Every search ends in a state satisfying the invariant, and stops for one of the three reasons only when that reason holds |
| `SearchResults.ParentRouteLegal` | src/batch.c:109-155 | Parent chains are legal routes from the start and cost no more than the tentative cost they lead to |
| `SearchResults.CostsStayLow` | src/search.c:200-276 | No tentative cost reaches 2^54 on the largest map, and no candidate wraps around 64 bits |
| `SearchResults.PrioritiesFit` | src/search.c:189-196 | The inflated heuristic product and the priority stay below 2^64 |
| `SearchResults.OnRoute` | src/search.c:200-276 | Along any affordable legal route some pending tile is no dearer than the route so far, unless the whole route is accounted for |
| `SearchResults.UnreachableIsTrue` | src/search.c:276-281 | UNREACHABLE is only reported when no legal route exists at any cost |
| `SearchResults.EpsilonBound` | src/search.c:155-282 | A found cost is at most (eps_q times the cost of any affordable legal route) shifted down by 8, with re-expansion, lazy deletion and truncated priorities |
| `SearchResults.ClosestApproach` | src/search.c:229-234 | When the heap runs dry the reported tile minimises (heuristic, exact cost) lexicographically over everything reachable within the cap, and its cost is exact |
| `SearchExact.ReportedCostExact` | src/search.c:200-276 | At eps_q 256 with sound floors the parent route to any expanded tile costs exactly what is reported |
| `SearchExact.DryRouteCost` | src/search.c:276-281 | When the heap runs dry, at any epsilon, the parent route to any reached tile costs exactly its tentative cost |
| `SearchChains.FoundCostExact` | src/search.c:256-274 | At every epsilon the reported cost of a found goal is exactly the cost of the parent route that is emitted, although inner tentative costs may be out of date |
| `Effort.AmpleBudget` | src/search.c:205-232 | No search takes more than (n - 1)(k + 1) expansions on n tiles, re-expansion included, k being the largest inflated heuristic of the map; so no budget from there on ever ends one |
| `Effort.UnlimitedIsAmple` | src/batch.c:192 | With floors of at most one tick, as registration leaves them, that is below 2^50 on every map and at every epsilon: an unlimited budget, kept as 2^64 - 1, really is one |
| `Effort.FoundIffAffordable` | src/search.c:200-281 | With a budget of that size, an unlimited one included, or any other that did not end it, a search finds the goal if and only if some legal route costs at most the cap |
| `SearchOnce.ExpandsOnce` | src/search.c:205-232 | At epsilon 1 with sound floors no tile is expanded twice: a search takes fewer expansions than there are tiles, so such a budget never ends it |
| `ShortSearch.ShortIsExact` | src/search.c:219-232 | After at most three expansions the closest approach costs exactly what is reported, whatever the epsilon |
| `SearchKernel.SearchContext.Reset` | src/search.c:178-186 | After a reset no stamp equals the current generation, also when the generation counter wraps |
| `SearchKernel.SearchContext.TryStep` | src/search.c:239-274 | One step tried on the arrays is the machine's relaxation of that direction |
| `SearchKernel.SearchContext.Search` | src/search.c:155-282 | On a context with any earlier history the search reports exactly what the machine does on a blank state: status, endpoint, expansions, costs and parents; which status that is and when, `Reports` says |
| `Pruning.BlamedMeansBeyond` | src/search.c:255-259 | The cap is blamed only if some route without repeated tiles stays within it and has a legal step that exceeds it; at epsilon 1 with sound floors one that is cheapest to where it ends |
| `Pruning.BeyondMeansBlamed` | src/search.c:255-259 | A search that runs dry does blame the cap if such a route is cheapest to where it ends, at every epsilon |
| `Pruning.UncappedIsNotBlamed` | src/search.c:255-259 | Without a cap nothing is ever left out, on any map |
| `Expansions.SearchLogs` | src/search.c:219-234 | The count reported is that of the tiles expanded, all of the budget if that ended the search; the approach is the start or an expanded tile, and no expanded tile is nearer the goal |
| `Emit.ParentRouteShort` | src/batch.c:118-127 | The back-walk takes fewer steps than there are tiles |
| `Emit.CountSteps` | src/batch.c:118-127 | The first back-walk counts exactly the steps of the parent route |
| `Emit.EmitPath` | src/batch.c:109-155 | Appends exactly the steps of the legal parent route, start excluded, sums their true durations, and leaves earlier output in place; what durations are is `Prices.RouteIsWalk` |
| `Prices.RouteIsWalk` | src/derech_internal.h:511-543 | In coordinates, terrain and weights alone: the steps of a legal route each go to a neighbouring tile the unit may enter, sideways past the corner rule, and take the tile's own cost, or that times the diagonal multiplier when both row and column change; they sum to duration and cost |
| `Prices.WalkIsRoute` | src/derech_internal.h:511-543 | And every such walk is the steps of a legal route |
| `Prices.BlocksByBits` | include/derech.h:426-429 | A word blocks when it has a blocking tag, or when tags are required and it has none of them |
| `Prices.FoldNear` | src/profile.c:8-30 | A word that does not block folds to the product of its multipliers and the sum of its penalties, in 256ths to the nearest, up to the caps |
| `Prices.WeightsCompose` | include/derech.h:418-425 | Multipliers of separate tags multiply and penalties add |
| `Prices.PriceNear` | src/derech_internal.h:532-543 | The price of a step is its duration times the multiplier plus the penalty, but for the roundings, the floor of 1/256 and the cap of 32 bits |
| `Prices.DiagonalNear` | src/profile.c:137-138 | The diagonal multiplier is the caller's to the nearest 256th; by default the square root of 2, cut off |
| `Prices.NeutralCostIsDuration` | include/derech.h:412-414 | Where no tile is weighted a route costs exactly as much as it lasts |
| `Solve.SolveRequest` | src/batch.c:161-214 | Row and buffer carry exactly the answer that is a function of request and view, whatever the context went through before; what that answer says and when it has steps is in `Reports` |
| `Solve.LimitsNeverLoosen` | src/batch.c:190-195 | Quantised epsilon and cost cap never allow more than the caller asked for |
| `Solve.LimitsTight` | src/batch.c:190-195 | And never allow less by as much as one unit of quantisation |
| `Solve.FoundWithinEpsilon` | include/derech.h:62-67 | A found path is reported at no more than the caller's own epsilon times the cost of any legal route within the cap |
| `Solve.NeverCutIsNot` | src/search.c:219-225 | Limits a caller can compare beforehand under which the budget never ends a search: unlimited with registered floors, or at least the bound of Effort.AmpleBudget, or epsilon 1 with sound floors and as many expansions as tiles, less one |
| `Reports.UnreachableIff` | src/search.c:276-281 | Without a cap, a search its budget did not end says UNREACHABLE if and only if there is no legal route at all, and FOUND otherwise |
| `Reports.CapIsBlamed` | src/search.c:255-281 | With a cap, such a search that finds nothing says BUDGET_EXCEEDED only if some route within the cap has a step exceeding it, and always if one does that is cheapest to where it ends; at epsilon 1 with sound floors exactly then |
| `Reports.DryIsNearest` | include/derech.h:229-233 | A partial request whose search was neither cut nor successful is answered with a path to a tile that minimises heuristic, then exact cost, over all tiles to be had within the cap; without steps only if none beats the start |
| `Reports.SearchIsNearestSoFar` | src/search.c:229-234 | Cut short too, nothing the search expanded is nearer the goal than where the steps lead |
| `Reports.ExpansionsCounted` | src/search.c:219-226 | The expansions reported are those the search made, and all its budget if that ended it |
| `EarlyBlame.BlamedTooEarly` | src/search.c:255-281 | For every epsilon from 257/256, or the default, an honest profile, a terrain and a capped request whose search, never cut, says BUDGET_EXCEEDED although no step leads beyond the cap from a tile reached at least cost |
| `EarlyBlame.BlamedJustlyIff` | src/search.c:255-281 | For all honest profiles, terrains and limits the cap is blamed exactly when a step from some tile, reached at least cost within it, exceeds it: if and only if epsilon is below 257/256 (and not the default) |
| `Solve.EmittedPathIsLegal` | src/batch.c:109-214 | An emitted path is a legal route, ends on the goal when found, costs at most what is reported and what the cap allows; its total is exact for every found path, and for partial ones when the budget is unlimited or one no search can use up, or epsilon is 1 with sound floors, or at most three expansions are allowed |
| `Lane.LaneIsLaid` | src/derech_internal.h:511-543 | A terrain of 2048 x 2048 tiles and a plain 8-connected descriptor whose view, through registration and folding, is the winding lane with the costs the next two results need |
| `BudgetCut.OverstatedTotal` | src/batch.c:198-213 | For every budget from 4 to 2094082 and every epsilon from 257/256 to 256, or the default, a terrain and a request on it whose partial path is reported dearer than any route its steps spell |
| `BudgetCut.TotalsExactIff` | include/derech.h:547-550 | For a budget of at most 2094082, 0 meaning unlimited, totals of partial paths are exact on all maps for all honest profiles if and only if the budget is unlimited, or allows at most three expansions, or epsilon is below 257/256 (and not the default) |
| `BudgetCut.AmpleIsExact` | include/derech.h:547-550 | For every registered profile, honest or not, totals are exact on a map of w by h tiles when the budget is unlimited or at least (wh - 1)(eps_q(w + h - 2) + 1) |
| `Bottleneck.ReportedAbove` | src/search.c:200-276 | A search never reports less for its goal than a potential that only tiles beyond the highest priority of some route could undercut |
| `Degenerate.HonestIsSound` | src/profile.c:151-167 | An honest profile's floors are below the cost of every step on every terrain |
| `Degenerate.DetourBreaks` | src/profile.c:156-167 | On the maze of module Detour a profile with forced floors makes the search at epsilon 1 report more than a legal route costs, under each corner rule |
| `Degenerate.PromiseIffHonest` | src/profile.c:151-167 | The epsilon promise holds for all terrains, queries and routes if and only if the profile is 4-connected, or its diagonal multiplier is below 2, or its rounded floor is positive, or no word it may enter folds to multiplier 0 and penalty below 2/256 |
| `Degenerate.CheapIsDishonest` | src/profile.c:151-167 | A concrete valid descriptor that is none of these: one tag at multiplier 0.001, diagonals at twice the price |
| `Degenerate.PromiseFails` | include/derech.h:65-67 | So some valid descriptor, terrain, query and route break the promise |
| `FieldMachine.PullIsStep` | src/field.c:191-228 | Looking backwards from an enterable tile sees exactly the legal forward steps onto it |
| `FieldMachine.StepIsPull` | src/field.c:191-228 | Every legal forward step is seen when its target is settled |
| `FieldMachine.Field` | src/field.c:120-232 | The build terminates with an empty heap |
| `FieldExact.FieldFinished` | src/field.c:120-232 | In the finished field every step is accounted for, sources are at 0 with no direction, and every other finite tile records a legal direction |
| `FieldExact.NextRouteLeads` | src/field.c:241-341 | The recorded directions spell a legal route to a source costing exactly the distance |
| `FieldExact.FieldIsExact` | src/field.c:120-232 | A field gives each tile the least cost of a legal forward route to the goal or nearest seed and is infinite exactly where none exists, blocked tiles and blocked seeds included |
| `FieldExact.ExactIsUnique` | src/field.c:120-232 | Two exact fields for the same target have equal distances |
| `FieldExact.DistancesStayLow` | src/field.c:196-214 | No finite distance comes near 64 bits |
| `FieldKernel.GoalField.Build` | src/field.c:120-232 | The arrays end up holding the machine's field |
| `FieldAnswers.Walk` | src/field.c:283-330 | Emits exactly the steps of the route the directions spell, in fewer than n steps; in the map's terms they are a walk as `Prices.RouteIsWalk` has it |
| `FieldAnswers.Extract` | src/field.c:241-341 | Row and buffer carry exactly the answer the field determines, falling back to a search only for closest approaches |
| `FieldAnswers.FieldRefinesSearch` | include/derech.h:98-106 | For requests without partial paths, with an unlimited budget or any other that cannot or did not end the search, the field finds a path exactly when the search does, never a dearer one, and differs only by proving UNREACHABLE where the search reports BUDGET_EXCEEDED |
| `Totals.SearchTotalFits` | src/batch.c:129-154 | The summed true duration of a search's path stays below 2^54 on the largest map |
| `Totals.FieldTotalFits` | src/field.c:283-330 | So does that of a path read off a field |
| `Profiles.FoldCombo` | src/profile.c:8-30 | The bit loop computes the word's fold |
| `Profiles.IrrelevantBitsFoldAlike` | src/profile.c:134-149 | Words that agree on the relevance mask fold alike |
| `Profiles.SentinelMeansBlocked` | src/derech_internal.h:511-518 | The blocked sentinel appears exactly for words the masks block: capped real weights never collide with it |
| `Profiles.PerceivedStep` | src/derech_internal.h:532-543 | A perceived step costs between 1 and 2^32 - 1 |
| `Profiles.StepArithmeticFits` | src/derech_internal.h:520-543 | Products and sums inside a step cost fit in 64 bits |
| `Registration.Registered` | src/profile.c:131-149 | Every weighted, blocking or required bit is in the relevance mask |
| `Registration.Register` | src/profile.c:96-167 | Registration accepts exactly the valid descriptors and derives the profile they determine |
| `Registration.FloorIsLeast` | src/profile.c:145-148 | No word folds below the product of the discounts |
| `Registration.FloorIsAttained` | src/profile.c:145-148 | The word of all discounts does fold that low |
| `Registration.FloorNear` | src/profile.c:156-159 | hD is the least product of multipliers in 256ths, to the nearest, and at least 1 |
| `Registration.DiagonalFloorIsGreatest` | src/profile.c:160-167 | hD2 is the greatest number that exceeds neither twice hD nor hD times the diagonal multiplier |
| `Registration.ZeroedIsNeutral` | include/derech.h:412-414 | A descriptor left at zero prices every word at its duration, looks at no tag and moves diagonally at the square root of 2 |
| `Registration.RegisteredFloors` | src/profile.c:151-167 | The floors are clamped: hD at most hD2 at most twice hD, hD at most 256 |
| `Registration.RegisteredIsSound` | src/profile.c:151-167 | For non-degenerate profiles the floors are below the cost of every step on every terrain |
| `Interner.EmptySlotMeansNew` | src/map.c:170-186 | An empty slot met before a match proves the word was never interned |
| `Interner.InsertIndexes` | src/map.c:110-121 | Filling the first empty slot of a new word's probe path keeps every word findable |
| `Interner.TagInterner.Lookup` | src/map.c:170-186 | Probing finds exactly the interned words, for any hash function |
| `Interner.TagInterner.Intern` | src/map.c:170-217 | A known word keeps its number, a new one gets the next, a full interner refuses and stays as it is, and every profile's table still holds each word's direct fold |
| `Interner.TagInterner.Grow` | src/map.c:123-138 | A doubled table indexes the same words |
| `Interner.TagInterner.Rollback` | src/map.c:219-241 | Forgets exactly the words past the committed count; table and folds follow |
| `Interner.TagInterner.AddProfile` | src/profile.c:186-198 | The new profile's table holds the direct fold of every interned word |
| `DirtyLog.LoggedCovers` | src/map.c:699-721 | Recording a truthful edit keeps the log covering every difference since the last reconcile, overflow included |
| `DirtyLog.LogIsExact` | src/map.c:699-721 | Edits that changed something are remembered one by one, unless there are more than sixteen or one covers the map; then everything counts as changed |
| `TileMap.PassableCostRange` | src/map.c:87-93 | A passable tile costs at least one tick and at most the cap, and only passability 0 blocks |
| `TileMap.PassableCostNear` | src/map.c:87-93 | The cost is the reciprocal of the passability in 256ths, to the nearest, up to the cap |
| `TileMap.RectCheckIff` | src/map.c:755-766 | A rectangle is accepted exactly when it has tiles and all lie on the map; without tiles it is an invalid argument |
| `TileMap.PaintedRowMajor` | include/derech.h:373-374 | A payload fills its rectangle row by row |
| `TileMap.Map.TableViewIsDirect` | src/derech_internal.h:511-543 | In every reachable state table look-up and direct folding of a tile's own word give the same view: blocked tiles, costs and durations |
| `TileMap.Map.SetPassabilityRect` | src/map.c:768-808 | Changes exactly the rectangle or, on any error, nothing; the log records one edit, of this rectangle, and whether any cost changed |
| `TileMap.Map.SetTagsRect` | src/map.c:863-921 | Changes exactly the rectangle's tags, and logs exactly the bits that flipped; refuses a good rectangle exactly when the words known and those of the payload are together more than 65536 distinct ones; then terrain, log and interned words are as before |
| `TileMap.Map.PaintTags` | src/map.c:895-915 | The recorded bits are exactly those that flip in some tile |
| `GoalSets.SeedTile` | src/field.c:794-818 | Seeds the member and, for adjacent sets, exactly its in-bounds neighbours |
| `GoalSets.SeededByDistance` | include/derech.h:123-126 | A tile seeds a field exactly when it is a member or, for sets approached from beside, at most one column and one row away from one |
| `GoalSets.MatchesByBits` | src/field.c:820-829 | A word matches when it has every tag of the one mask and, unless the other is empty, some tag of that |
| `GoalSets.TallyCounts` | src/field.c:833-907 | The count kept is the number of members |
| `GoalSets.Materialize` | src/field.c:833-907 | Membership and seeds are those of the current terrain, and the epoch moves exactly if membership changed |
| `GoalSets.EpochTellsChange` | src/field.c:833-907 | The epoch moves exactly if some tile's membership differs from what its tags, or the list, say now |
| `GoalSets.EditKeepsCurrent` | src/field.c:1112-1123 | After any truthful edit a set's membership is still right, or an edit that makes a refresh due is logged |
| `Invalidation.AffectedBy` | src/field.c:1062-1090 | Scanning the grown rectangle decides exactly whether a relevant edit is sweeping or touches the field's finite region |
| `Invalidation.AffectedIff` | src/field.c:1058-1090 | Tile by tile: an edit affects a field exactly when it changed passability or a bit the profile looks at, and either the tiles in or next to it are more than a quarter of the map or one of them has a distance |
| `Invalidation.ChangeIsLogged` | src/map.c:699-721 | A tile that looks different to a profile lies under a logged edit relevant to it |
| `Invalidation.UnaffectedIsUndisturbed` | src/field.c:1058-1090 | If no logged edit affects a field, nothing in or next to its finite region has changed for its profile |
| `Survival.SameStep` | src/field.c:1058-1061 | Steps onto finite tiles are legal and priced the same before and after such edits, corner rule included |
| `Survival.UndisturbedStaysUsable` | src/field.c:1058-1061 | A finished field stays finished on the edited terrain: same distances, same walkable directions, goal still enterable |
| `Survival.UndisturbedSameField` | src/field.c:1058-1061 | A fresh build on the edited terrain goes through the same states: distances and recorded directions are equal, ties included |
| `Invalidation.SurvivorIsGood` | src/field.c:1125-1158 | A field no edit affects is, on the edited terrain, still the very field a fresh build gives, directions included |
| `Invalidation.GoodIsUsable` | src/field.c:1125-1158 | Such a field can be walked and its distances are exact |
| `Reconcile.SparedLabels` | src/field.c:1160-1175 | Labels whose class no edit touched still name the components |
| `Reconcile.RefreshKeepsGood` | src/field.c:1112-1123 | A refreshed set either has the seeds its fields were built from, or a new epoch that marks them stale |
| `Reconcile.Store.Reconcile` | src/field.c:1092-1180 | Sets refreshed exactly where due, fields dropped exactly if stale or possibly affected, labels exactly if touched; everything left is right for the current terrain and the log is empty |
| `Reconcile.Store.Doomed` | src/field.c:1125-1158 | Decides exactly whether a field must go |
| `Reconcile.SurvivesIff` | src/field.c:1125-1158 | A cached field lives through a reconcile exactly when its set has not moved on, the log is not full and no logged edit affects it in that sense |
| `Reconcile.RelabelByBits` | src/field.c:1160-1175 | Labels live through a reconcile exactly when the log is not full and no edit changed passability or flipped a bit of the class |
| `Reconcile.Store.CachedIsFresh` | src/field.c:1058-1180 | After a reconcile every cached finished field is what a fresh build on the current map gives, in distances and directions, and is exact and walkable |
| `Reconcile.Store.SetPassabilityRect` | src/map.c:768-808 | Paints exactly the rectangle or, on an error, nothing, logs just that, and keeps everything remembered right for the terrain last reconciled |
| `Reconcile.Store.SetTagsRect` | src/map.c:863-921 | The same for tags, with goal sets and interned words; refused exactly when there are too many distinct words |
| `Reconcile.Store.RegisterProfile` | src/profile.c:96-205 | A new profile leaves everything remembered as right as it was; errors change nothing |
| `Reconcile.Store.RegisterTiles` | src/field.c:935-969 | Refused exactly for bad sizes, for a tile off the map, or when every slot is taken, each without effect; otherwise exactly the listed tiles are in the new set |
| `Reconcile.Store.RegisterTags` | src/field.c:971-994 | Refused exactly when both masks are empty or, failing that, every slot is taken; otherwise membership is that of the masks now |
| `Reconcile.Store.UnregisterSet` | src/field.c:996-1023 | Forgets the set and exactly the fields built for it |
| `Labels.Flood.Fill` | src/field.c:632-703 | Labels are 0 exactly on tiles the class cannot enter, and equal exactly on tiles joined by a route of the 8-neighbour graph without corner rules |
| `Labels.ProveUnreachable` | src/batch.c:442-470 | Proves the goal unreachable exactly when the labels differ and the start has a label or touches no tile with the goal's |
| `Labels.NoMeansUnreachable` | src/batch.c:442-470 | When the labels prove it, no profile of the class has any legal route to the enterable goal: any connectivity, any corner rule, blocked start included |
| `Labels.ApartMeansCutOff` | src/batch.c:442-470 | In the graph of the class, eight neighbours and no corner rules, they prove it exactly when there is no route, from a blocked start as well |
| `Labels.LabelsOutlive` | src/field.c:1160-1175 | Labels stay right while no passability changes and no flipped bit belongs to the class |
| `Recency.TouchOrder` | src/field.c:465-481 | A fresh touch moves a field to the front of the order a commit will establish |
| `Recency.OldestFirst` | src/field.c:570-588 | Moving the field touched longest ago to the front, its touch spent, leaves that order unchanged |
| `Recency.OnlyToFront` | src/field.c:551-590 | Moving to the front commutes with forgetting other keys |
| `FieldCache.Cache.Destroy` | src/field.c:395-412 | Removes one field from list, chain and byte count, and nothing else |
| `FieldCache.Cache.MakeRoom` | src/field.c:450-463 | Evicts unpinned fields of this call from the tail, as few as needed, and never a pinned or older one |
| `FieldCache.Cache.Lookup` | src/field.c:465-481 | Hits exactly the cached keys, for any hash; pins and touches without moving |
| `FieldCache.Cache.Insert` | src/field.c:486-532 | Succeeds exactly when what may not be evicted leaves room for one field; the shell goes to the front |
| `FieldCache.Cache.EndWave` | src/field.c:535-548 | Leaves exactly the finished fields, unpinned, in order |
| `FieldCache.Cache.Trim` | src/field.c:429-448 | Leaves the longest prefix within the retention budget; pinned fields stay |
| `FieldCache.Cache.LongestKeepable` | src/field.c:429-448 | In bytes alone: what is left is the longest prefix that fits the budget and leaves working memory for one more field |
| `FieldCache.Cache.Rollback` | src/field.c:551-567 | Leaves exactly the fields the call found, as they were, in their order |
| `FieldCache.Cache.Commit` | src/field.c:551-590 | Leaves the finished fields in the order of a cache that moves to the front at every access, cut to the longest prefix that fits the budget and leaves working memory for one more field |
| `FieldCache.Cache.Retention` | src/field.c:429-437 | What is retained is exactly the budget, or all of working memory but one field, whichever is less; nothing if working memory holds no field |
| `Staging.CarriedStays` | src/batch.c:59-100 | Staged segments stay readable while buffers grow |
| `Staging.CarriedIsUnique` | src/batch.c:286-357 | A row with its buffers carries one answer only |
| `Staging.Crew.Search` | src/batch.c:161-214 | On any worker, whatever its context went through, a search stages exactly its answer in its own row and leaves every other staged answer readable, other workers' included |
| `Staging.Crew.Read` | src/field.c:241-341 | So does an extraction from a stored field |
| `Staging.Crew.Build` | src/field.c:120-232 | A build on any worker's heap returns the machine's field and disturbs nothing staged |
| `Groups.FreeMeansNew` | src/batch.c:378-392 | A free slot met before a match proves the key has no group |
| `Groups.SomeSlotFree` | src/batch.c:486-492 | With twice as many slots as requests probing always meets a free slot |
| `Groups.GroupTable.Find` | src/batch.c:378-392 | Finds the key's group or the free slot where it belongs, for any hash |
| `Groups.GroupTable.Add` | src/batch.c:610-627 | Each group's linked list holds exactly the requests that joined its key, in order, with count, first and last |
| `Planner.Planning.LookAt` | src/batch.c:514-628 | A request is settled, queued or grouped, exactly one of these |
| `Planner.SharersDecide` | src/batch.c:658-716 | A request that wishes for a field gets it exactly when it was cached, or there is room and its goal is a set or at least the threshold of requests share it; it searches exactly when there is one goal and no such field; it is refused exactly when it wants a set, not cached, and there is no room |
| `Planner.Planning.ObtainField` | src/batch.c:660-688 | A group worth a field gets one exactly if one field fits in working memory, if need be after running the wave so far |
| `Planner.Planning.RoomFor` | src/batch.c:493-507 | The task arrays never overflow: first-round tasks stay within two per request, second-round tasks within one |
| `Planner.Planning.RunWave` | src/batch.c:421-437 | Every task finds its field pinned and, if it reads it, finished; afterwards nothing is pinned and nothing unfinished is left |
| `Planner.Planning.RunTasks` | src/batch.c:394-419 | A round really searches, extracts and builds, each task on whichever worker claims it: each leaves in its row the one right answer, or in the cache the one finished field, and disturbs no other row |
| `Planner.Planning.ServeMembers` | src/batch.c:694-716 | Following the list gives every member of the group exactly one task or refusal |
| `Planner.Planning.Execute` | src/batch.c:472-728 | Over both passes and all waves every request is resolved exactly once, each in the way its fate says, every task run has left the right answer in its row, and the waves recorded read only fields that are cached or built in them |
| `Planner.Planning.NoneRefused` | src/batch.c:668-683 | If one field fits in working memory no request of any batch is ever refused for lack of it |
| `Delivery.Deliver` | src/batch.c:286-357 | The results object holds, in request order, the status settled in planning or the answer of the one task naming the request |
| `Delivery.PlanServes` | src/batch.c:394-437 | The waves a batch recorded, run by anyone, serve each request the answer that was collected |
| `Delivery.AnyScheduleServes` | include/derech.h:79-87 | On any number of workers with any histories, and under any interleaving in each round of every wave, the rows end up carrying the same answers |
| `Delivery.DeliverAny` | include/derech.h:79-87 | So the results object assembled after any such run is the one the answers determine |
| `Calls.Classify` | src/batch.c:514-596 | The first look decides as the source does, asking labels only for enterable goals of non-partial requests |
| `Calls.SettledIsRight` | src/batch.c:522-596 | A status given without a search is the one a search would report, except that UNREACHABLE may stand for BUDGET_EXCEEDED |
| `Calls.LabelsFor` | src/field.c:708-741 | Labels handed out name the components of the profile's class on the current terrain; there are none exactly if the class has none and the table of classes is full |
| `Calls.LabelsDecide` | src/batch.c:588-600 | With labels at hand a request that asks them is refused at once if and only if the class has no route to its goal, eight neighbours and no corner rules |
| `Calls.ReadableFields` | src/batch.c:539-608 | Every finished field a running call may read is good for the current terrain |
| `Calls.CommittedGood` | src/batch.c:800-815 | What a commit leaves in the cache is good for the current terrain |
| `Calls.ValidateRequests` | src/batch.c:239-283 | The first invalid request decides the error; success means every request is valid |
| `Calls.FindPaths` | src/batch.c:730-825 | An invalid request is refused without effect, the first one deciding the error; otherwise the status is exactly `Calls.Verdict`: with room for one field, delivered if and only if kept; a kept call delivers the one final answer to every request in order, by waves that serve them; any other delivers nothing; the store stays valid in every case |
| `Calls.ReplayDelivers` | include/derech.h:79-87 | Any workers, contexts, buffers and interleavings over all waves of a kept call give the same results object, offsets and steps included |
| `Calls.FinalIsDetermined` | include/derech.h:107-109 | Final answers depend on the map, sets, profiles, requests, first looks and which keys were cached, and on nothing the cached fields, contexts or buffers went through |
| `Calls.LookIsDetermined` | src/batch.c:442-596 | A first look depends on map, profile, request and whether labels were at hand, not on which labels |
| `Calls.AnswerValid` | src/batch.c:472-825 | The same for a valid batch, with the same exact status: undone, the call leaves exactly the fields and labels reconciling left, in order |
| `Calls.LookOver` | src/batch.c:514-596 | Reconciles and classifies: every wish is what the first look decides on the current terrain, and everything planning relies on is current |
| `Calls.GivenIsFinal` | src/batch.c:161-341 | What the one task of a request answered is the one answer its fate calls for on the current terrain; from a field, that of a fresh build |
| `Calls.RunBatch` | src/batch.c:730-825 | Refused for lack of memory exactly if some request is denied, else delivered if and only if kept.  Delivered: the results object is the one determined by every request's final answer, and the cache is good; not: the cache's fields are as found |
| `Calls.DeniedIffNoRoom` | src/batch.c:668-716 | A request is denied exactly when it wants a set whose field is not cached and not even one field fits in working memory |
| `Calls.RoomMeansDelivered` | src/batch.c:805-820 | If one fits, a valid batch is delivered if and only if it is kept |
| `Promise.SearchIsTruthful` | include/derech.h:62-67 | Stopped by its budget or not, a search says nothing untrue: a found path is a legal route within the cap at exactly the reported cost and duration, within the caller's epsilon under sound floors; UNREACHABLE means no route at all; a partial path is a legal route within the cap |
| `Promise.SearchIsComplete` | src/search.c:155-282 | Under limits that cannot stop it, or that did not, a search finds every goal that can be afforded |
| `Promise.UnlimitedIsNeverCut` | include/derech.h:471-473 | For every registered profile, terrain and epsilon an unlimited budget never stops a search |
| `Promise.FindsExactly` | src/batch.c:161-214 | A request whose limits cannot stop its search is answered FOUND if and only if some legal route costs at most its cap, start on the goal and blocked goal included |
| `Promise.UnlimitedFindsExactly` | include/derech.h:471-477 | So is every unlimited request for a registered profile, on every terrain and at every epsilon |
| `Promise.FieldIsRight` | src/field.c:241-341 | An extraction finds a route exactly when an affordable one to any seed exists, spells one of least cost, and says UNREACHABLE exactly when there is none |
| `Promise.GoalFieldIsRight` | src/field.c:241-341 | For one goal an extraction is truthful and complete whatever the request's budget, and a closest approach is the search's own |
| `Promise.SearchReasons` | src/search.c:155-282 | A search's status and approach have the reasons a caller may conclude from them, cut short or not |
| `Promise.FieldReasons` | src/field.c:241-341 | So have those of an extraction, whose UNREACHABLE is exact under any cap |
| `Promise.SettledAnswerIsRight` | src/batch.c:514-596 | So is a status given at once, by labels included, with the same reasons |
| `Promise.GoalDelivered` | include/derech.h:87-111 | However a single-goal request of a kept call was resolved, its answer is truthful and its status is reasoned: UNREACHABLE, BUDGET_EXCEEDED and the closest approach exactly as `Reports` has them; complete whenever its budget is unlimited or cannot stop a search, and otherwise unless it was left to its own search and its own budget stopped that |
| `Promise.SetDelivered` | src/batch.c:539-560 | Every goal-set request of a kept call gets a least-cost route to a current seed exactly when one is affordable |
| `Promise.HonestWithin` | include/derech.h:62-67 | A truthful found answer is within the caller's epsilon for every honest registered profile on every terrain |
| `Promise.CallKeepsPromise` | include/derech.h:87-111 | The results object of a kept call holds, in request order, a right answer to every request, within epsilon for every honest profile: whatever was cached, grouped, built, searched or settled by labels, after whatever sequence of earlier calls and edits; a goal that can be afforded is never missed by an unlimited request, and by others only when left to their own search and stopped by their own budget; every failure has its reason, and every approach is the closest to be had |
| `Promise.RightIsWalk` | include/derech.h:523-552 | In the map's own terms: the steps of any right answer are a walk the unit may take, the duration reported is the sum of their ticks, and a found one comes to its goal, or a seed of its set, at exactly the price reported |
| `Pool.StepKeeps` | src/pool.c:64-148 | Every step of every participant keeps the protocol invariant |
| `Pool.EachTaskOnce` | src/pool.c:64-148 | Over every run each task of each finished batch was executed exactly once and nothing else was; while the dispatcher rests nobody is active; live jobs are the current batch's |
| `Pool.AllDone` | src/pool.c:139-147 | When the dispatcher sees nobody active, all tasks of the batch are executed and counted |
| `Pool.RankFalls` | src/pool.c:64-148 | Every participant's step lowers a rank, so no schedule runs forever between dispatches |
| `Pool.SomebodyMoves` | src/pool.c:93-147 | Until the dispatching call returns some participant can move: no completion signal is lost |
| `Pool.StuckMeansReturned` | src/pool.c:116-148 | A run that can go no further has returned with every task executed once |
| `Rounds.EventKeeps` | src/pool.c:64-79 | Pool and workers keep pace: whatever the protocol does next the schedule can follow, who claims a task being free and who ends one being at it |
| `Rounds.DispatchIsRound` | src/pool.c:116-148 | When the dispatching call returns, the workers have played a complete round of the schedule, and each of its tasks was executed exactly once |
| `Rounds.DispatchAnswers` | src/pool.c:116-148 | So every request the tasks name has its task's answer and every field is built, however the pool interleaved |
| `Rounds.SomethingHappens` | src/pool.c:64-148 | Until it returns either a running task can write its next step or end, or the pool can move |
| `Rounds.PoolServes` | src/batch.c:394-437 | Over both rounds of all waves, each skipped, run by one thread or by the pool, the plan of a batch ends with rows that carry its answers |
| `Schedule.TaskAnswerIsRight` | src/batch.c:216-233 | The right answer to a task is the batch's own: the search of its request, or what the field built for its key answers |
| `Schedule.TaskAlone` | src/batch.c:216-233 | Running one task on one worker changes row and buffer as a run of single steps does |
| `Schedule.RunOn` | src/batch.c:216-233 | The real search, extraction or build on a given worker's own context, heap and buffer is such a run, whatever that worker went through |
| `Schedule.RoundIsDetermined` | src/batch.c:394-419 | For any number of workers and any interleaving of emitted steps a completed round leaves every named request with its answer, every built field as built, and all else as it was |
| `Schedule.WaveIsDetermined` | src/batch.c:421-437 | With the barrier between rounds a wave's answers depend on its tasks and starting fields alone |
| `Schedule.BatchIsDetermined` | src/batch.c:472-728 | Over all waves of a batch, on any workers and schedules, every request a task names ends up with the answer of that task, and every other row is untouched |
| `Schedule.Assemble` | src/batch.c:286-357 | The results object is the one the answers determine: rows in request order, offsets prefix sums, steps concatenated |
| `Schedule.ReadBack` | include/derech.h:519-556 | Reading the results row by row gives back every answer: its own fields, and as steps the stretch it names; stretches follow one another and are all there is |

## Left out

- BudgetCut.TotalsExactIff: for explicit budgets above 2094082 with an epsilon of 257/256 or more, equality is proved on maps small enough for the bound of `BudgetCut.AmpleIsExact`; whether some larger map fails is not decided, nor are totals of cut searches at epsilon 1 for profiles that are not honest.
- FieldAnswers.FieldRefinesSearch: compares answers for one goal under a budget that did not end the search; answers for goal sets have no search to be compared with and are covered by the exactness of fields.
- Calls.FindPaths: takes the decision to keep or undo the call as a parameter, in place of allocation failures and cancellation, which the source meets at many points; batches of 2^32 - 1 or more requests are excluded.
- Planner.Planning.RunTasks: runs a round's tasks one after another, each on any worker; that tasks interleaved step by step leave the same answers is the subject of `Schedule.RoundIsDetermined` and `Calls.ReplayDelivers`.
- Schedule.RoundIsDetermined: a worker's single steps are the steps it emits; reads and writes of the shared map and cache inside a round, which no task changes except for the field it builds, are not interleaved further.
- Promise.GoalDelivered: when an explicit budget stops a request's own search, the answer may be no path although one could be afforded; it is truthful all the same.
- Calls.LookIsDetermined: which classes have labels at hand depends on earlier calls, so replays of a whole sequence of batches are covered call by call, not as one statement.
- Pool.StepKeeps: regions under the lock and atomic operations are single steps; spurious wake-ups, the memory model and the thread shims are not modelled.
- Registration.FloorIsLeast: over reals; a product of discounts that underflows in double precision is not modelled.
- Cooperative cancellation, allocation failure and the busy flag, except as the caller's choice to undo a call.
- Whole-map setters and single-tile setters: the same writing loops as the rectangle setters.
- The label cache's byte budget and its eviction; only the limit of 16 classes and the correctness of labels are modelled.
- Whole-map read-back, result accessors, statistics, option and descriptor normalisation, ABI checks, worker budgets and scratch trimming: no property beyond their bodies.
- Float tick outputs and IEEE arithmetic.
- Chunked copying and polling inside loops: loops copy and scan one element at a time.
- Some long source functions are split over several methods here, one per loop or branch.
