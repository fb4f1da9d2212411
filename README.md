# DeepNestSharp nesting core, modelled in Dafny

DeepNestSharp nests flat parts onto sheets. It searches orderings and rotations of the parts with a genetic algorithm. Each candidate gene is placed part by part on a stack of sheets, guided by no-fit polygons (NFPs). The best nests found are kept in a ranked, bounded list. This project models the sequential bookkeeping around that search and proves what it promises:

- **Genetic algorithm** (`genes.dfy`, `procreant.dfy`). Chromosomes are objects shared between genes. Procreation builds the first gene, rejects duplicate signatures through an ancestor record, mutates by adjacent swaps and rotation rerolls, crosses parents at one cut point, and advances a generation with elitism.
- **Best nests** (`topresults.dfy`). This is the fitness-ordered list with its capacity, novelty test and eviction of the worst entry.
- **Placement** (`placement.dfy`, `partplacement.dfy`). The sheet-level worker keeps a sheet stack, a requeue and the unplaced parts, with priority passes. The part-level worker has the rotation retry, the clip cache, the candidate scores and the tie-breaking choice of position.
- **Results and run state** (`results.dfy`, `neststate.dfy`, `svgnest.dfy`, `background.dfy`). This covers the nest result sums, the run counters and averages, the response processing, the launch of each pass and one background evaluation.
- **NFP caches** (`pairmap.dfy`, `minkowski.dfy`, `dbcachekey.dfy`). This covers the pair dictionary with hit and miss counters, the pair map worker, the Minkowski selection and its cache, and the window cache key.
- **Polygon values** (`geometry.dfy`, `pointcomparer.dfy`). This covers NoFitPolygon, Sheet and RectangleSheet, plus the tolerant point comparer.
- **Simplification** (`simplify.dfy`). This covers the radial-distance and Ramer–Douglas–Peucker passes.
- **Input preparation** (`initializer.dfy`, `nestingcontext.dfy`, `nestexecution.dfy`, `sheetloadinfo.dfy`, `rawdetail.dfy`, `dxflinemerger.dfy`, `mergeline.dfy`). This covers id and source numbering, grouping, sheet layout, writing a nest back onto the parts, choosing a drawing's outline, and merging DXF line segments to a fixpoint.

Shared support lives in `wrappers.dfy` (Option and Result), `numeric.dfy` (the C# remainder, truncating division, banker's rounding and doubles with NaN) and `sorting.dfy` (stable ordering by a key).

The polygon engine is a parameter of the operations that use it: Clipper's boolean operations and Minkowski sums, the native Minkowski library, NfpHelper, SheetNfp and GeometryUtil (area, hulls, rotation, almost-equal). Random draws are inputs as well. Where the source changes objects in place the model uses classes with `modifies` frames, and where it computes values it uses functions; each method is tied by its `ensures` to a specification function about which the lemmas are proved.

Some behaviour is modelled as written although it looks unintended, and the model states it as it is:

- NestState adds nest time to the placement total and placement time to the nest total (RunState.CrossedAverages).
- In the weighted selection of parents, each band is wider than the one before it, and together the bands reach past 1 (Procreation.SecondBandDoublesFirst, Procreation.BandsOvershoot).
- A generation no larger than the carried-over tenth is filtered against the ancestor record, which already holds every elite, so with a population size below 20 the next generation is empty (Procreation.Procreant.Generate, Procreation.Procreant.Replace).

Two places where the source evidently fails its intent are listed under "## Findings", each with the written behaviour and the corrected one.

## Model

| member | source | states |
|---|---|---|
| Geometry.Blank | DeepNestLib.Core/NoFitPolygon.cs:58-61 | a new polygon has no points or holes, Id 0, Source -1, PlacementOrder -1, rotation 0 and an empty name |
| Geometry.NormaliseRotation | DeepNestLib.Core/NoFitPolygon.cs:174-185 | the stored rotation is strictly inside (-360, 360), keeps the sign of the value and differs from it by a multiple of 360 (C# remainder) |
| Geometry.NormaliseRotationIdempotent | DeepNestLib.Core/NoFitPolygon.cs:181-184 | storing an already stored rotation again changes nothing |
| Geometry.WithRotation | DeepNestLib.Core/NoFitPolygon.cs:174-185 | the Rotation setter changes only the rotation, to the normalised value |
| Geometry.NoFitPolygon.SetRotation | DeepNestLib.Core/NoFitPolygon.cs:181-184 | the polygon object's state after the setter is WithRotation of the old state |
| Geometry.NoFitPolygon.SetName | DeepNestLib.Core/NoFitPolygon.cs:81 | the Name setter changes the name and nothing else |
| Geometry.AppendPoint | DeepNestLib.Core/NoFitPolygon.cs:304-309 | one point is appended at the end, earlier points and every other field unchanged |
| Geometry.NoFitPolygon.AddPoint | DeepNestLib.Core/NoFitPolygon.cs:304-309 | the object's new state is AppendPoint of the old state |
| Geometry.NoFitPolygon.ReplacePoints | DeepNestLib.Core/NoFitPolygon.cs:368-371 | the outline becomes the given points, nothing else changes |
| Geometry.ReplaceTree | DeepNestLib.Core/NoFitPolygon.cs:374-381 | the outline and, hole by hole, the holes' outlines are taken from the replacement; it fails (index out of range) exactly when the replacement has fewer holes at some depth |
| Geometry.WidthCalculated | DeepNestLib.Core/NoFitPolygon.cs:89-123 | 0 for an empty outline, never negative, and every x lies between MinX and MaxX |
| Geometry.HeightCalculated | DeepNestLib.Core/NoFitPolygon.cs:101-140 | 0 for an empty outline, never negative, and every y lies between MinY and MaxY |
| Geometry.Area | DeepNestLib.Core/NoFitPolygon.cs:203-209 | the area is the absolute value of the engine's signed area, so never negative |
| Geometry.Shift | DeepNestLib.Core/NoFitPolygon.cs:612-634 | same point and hole counts, every point and every hole moved by (x, y) with its Exact flag kept, Id, Name, Rotation, Source, PlacementOrder and StrictAngle copied, a plain non-priority polygon |
| Geometry.ShiftTwice | DeepNestLib.Core/NoFitPolygon.cs:612-634 | two shifts compose into one shift by the summed offsets, at every depth |
| Geometry.ShiftToOrigin | DeepNestLib.Core/NoFitPolygon.cs:637-640 | the shifted outline has MinX = MinY = 0 and the same point count |
| Geometry.Slice | DeepNestLib.Core/NoFitPolygon.cs:384-395 | a blank plain polygon holding exactly points v..Length-1 with default flags and no holes; a negative v fails |
| Geometry.CloseOutline | DeepNestLib.Core/NoFitPolygon.cs:221-253 | fails only on an empty outline; otherwise the result is closed, keeps the old points as a prefix, and adds at most one point, a copy of the first; a closed outline is returned unchanged |
| Geometry.NoFitPolygon.EnsureIsClosed | DeepNestLib.Core/NoFitPolygon.cs:659-667 | the object's new state is CloseOutline of the old one and is closed; on an empty outline (where the source throws) nothing changes |
| Geometry.RectangleOutline | DeepNestLib.Core/RectangleSheet.cs:5-14 | exactly five points, (X,Y), (X,Y+h), (X+w,Y+h), (X+w,Y), and back to (X,Y) |
| Geometry.RectangleExtent | DeepNestLib.Core/RectangleSheet.cs:5-14 | a built rectangle is closed, its bounds are X..X+w and Y..Y+h, and its width and height are w and h |
| Geometry.NoFitPolygon.Build | DeepNestLib.Core/RectangleSheet.cs:5-14 | Build replaces only the outline, with RectangleOutline anchored at the sheet's X, Y |
| Geometry.NewRectangleSheet | DeepNestLib.Core/Sheet.cs:34-40 | a RectangleSheet named "rectSheet"+n whose outline is the rectangle at the origin, 3000 by 1500 by default |
| Geometry.NewArbitrarySheet | DeepNestLib.Core/Sheet.cs:42-49 | an ArbitrarySheet named "arbSheet"+n built from the input shifted to the origin |
| Geometry.CloneTree | DeepNestLib.Core/NoFitPolygon.cs:490-523 | same points with Exact flags, IsPriority, StrictAngle and Name copied, holes cloned recursively, Id and Source left at their defaults, a sheet cloned as a sheet |
| Geometry.CloneTreeIdempotent | DeepNestLib.Core/NoFitPolygon.cs:490-523 | cloning a tree clone gives the same tree |
| Geometry.CloneTreeIgnoresIdentity | DeepNestLib.Core/NoFitPolygon.cs:507-509 | a tree clone does not depend on the Id and Source of the original |
| Geometry.CloneExact | DeepNestLib.Core/NoFitPolygon.cs:437-457 | Id, Name, Rotation, Source, IsPriority, StrictAngle and exact points copied; each hole rebuilt one level deep with its Id, Source and points only |
| Geometry.Clone | DeepNestLib.Core/NoFitPolygon.cs:729-759 | Id, Name, Rotation, Source, IsPriority, StrictAngle copied, points copied with default flags, holes cloned recursively, a sheet stays a sheet |
| Geometry.CopyOf | DeepNestLib.Core/NoFitPolygon.cs:33-56 | the copy constructor (also used by the Sheet copy constructors, Sheet.cs lines 11-19) copies every field and the points, and copies holes recursively only when Included |
| Geometry.Rotate | DeepNestLib.Core/NoFitPolygon.cs:460-487 | a clone whose points are the engine-turned points and whose rotation is the setter applied to rotation + degrees; holes turned only when Included |
| Geometry.EqualsReflexive | DeepNestLib.Core/NoFitPolygon.cs:642-727 | with a reflexive point equality every polygon equals itself |
| Geometry.EqualsSymmetric | DeepNestLib.Core/NoFitPolygon.cs:642-727 | with a symmetric point equality polygon equality is symmetric |
| Geometry.ShiftByZeroEquals | DeepNestLib.Core/NoFitPolygon.cs:642-657 | equality compares only Id, Name, Rotation, Source, the points and the holes, so a shift by (0, 0) equals its original |
| PointComparer.CloseEqualsProperties | DeepNestLib.Core/SvgPointCloseEqualityComparer.cs:8-25 | the comparer is reflexive and symmetric, equal points are within 0.0001 on both axes, and a difference of exactly 0.0001 still counts as equal (inclusive bound) while 0.0002 does not |
| PointComparer.NotTransitive | DeepNestLib.Core/SvgPointCloseEqualityComparer.cs:8-25 | three points 0.0001 apart show the comparer is not transitive |
| PointComparer.GetHashCode | DeepNestLib.Core/SvgPointCloseEqualityComparer.cs:27-30 | always fails (NotImplementedException) |
| SheetLoading.SizedSheet | DeepNestLib.Core/NestProject/SheetLoadInfo.cs:38-45 | a Rectangle sheet with no path, the given width, height and quantity |
| SheetLoading.PathSheet | DeepNestLib.Core/NestProject/SheetLoadInfo.cs:47-54 | an Arbitrary sheet with the given path and quantity and zero width and height |
| SheetLoading.JsonSheet | DeepNestLib.Core/NestProject/SheetLoadInfo.cs:18-36 | Rectangle exactly when the path is null or empty (then no path and the given size); otherwise Arbitrary with the path and size 0 by 0; quantity always kept |
| SheetLoading.JsonSheetAgrees | DeepNestLib.Core/NestProject/SheetLoadInfo.cs:18-54 | the JSON constructor agrees with the sized constructor on an empty path and with the path constructor otherwise |
| SheetLoading.ConfigSheet | DeepNestLib.Core/NestProject/SheetLoadInfo.cs:12-15 | a Rectangle sheet with the configured SheetWidth, SheetHeight and SheetQuantity |
| CacheKeys.NewCacheKeyWithNfps | DeepNestLib.Core/DbCacheKey.cs:10-17 | the five-argument constructor keeps A, B and both rotations and stores the NFPs; Type is 0 |
| CacheKeys.NewCacheKey | DeepNestLib.Core/DbCacheKey.cs:19-26 | the four-argument constructor keeps A, B and both rotations and leaves Nfp null; Type is 0 |
| CacheKeys.OptionalIntText | DeepNestLib.Core/DbCacheKey.cs:44-47 | appending a nullable id writes a numeral, and writes nothing exactly when the id is null |
| CacheKeys.KeyDependsOnlyOnRoundedFields | DeepNestLib.Core/DbCacheKey.cs:40-58 | keys with equal A, B, Type and equal ×10000-rounded rotations are the same string, whatever their NFPs |
| CacheKeys.KeyInjective | DeepNestLib.Core/DbCacheKey.cs:40-58 | conversely, equal key strings imply equal A, B, Type and equal rounded rotations, so the cache never confuses two pairs |
| TopResults.EliteSurvivors | DeepNestLib.Core/TopNestResultsCollection.cs:46-52 | at least twenty and at least a tenth of the population (integer division), and equal to one of the two |
| TopResults.MaxCapacity | DeepNestLib.Core/TopNestResultsCollection.cs:54-66 | fails exactly when a fifth of the population (PopulationSize·2/10) is not positive; otherwise the larger of that fifth and EliteSurvivors |
| TopResults.CapacityAtLeastTwenty | DeepNestLib.Core/TopNestResultsCollection.cs:54-66 | a capacity, once there is one, is at least twenty |
| TopResults.SameFitnessNotNovel | DeepNestLib.Core/TopNestResultsCollection.cs:85-93 | a result with the incumbent's own fitness is never novel |
| TopResults.FarFromTopIsNovel | DeepNestLib.Core/TopNestResultsCollection.cs:87-90 | at rank 0, fitnesses more than 0.01 apart always differ after rounding to two decimals (banker's rounding), so they are novel |
| TopResults.NovelBeyondTop | DeepNestLib.Core/TopNestResultsCollection.cs:92 | beyond rank 0, novel exactly when the difference exceeds incumbent × topDiversity |
| TopResults.InsertionPoint | DeepNestLib.Core/TopNestResultsCollection.cs:128-132 | the first index whose fitness is not below the payload's: every earlier entry is strictly better |
| TopResults.TryAddFails | DeepNestLib.Core/TopNestResultsCollection.cs:136-155 | TryAdd throws exactly when MaxCapacity throws |
| TopResults.TryAddEmpty | DeepNestLib.Core/TopNestResultsCollection.cs:121-125 | into an empty list the payload is inserted at index 0 and Added is returned |
| TopResults.TryAddUnchanged | DeepNestLib.Core/TopNestResultsCollection.cs:134-147 | NotAdded (worse than every entry of a full list) and Duplicate (not novel against the entry at the insertion point) leave the list unchanged |
| TopResults.TryAddInserts | DeepNestLib.Core/TopNestResultsCollection.cs:128-158 | an Added payload sits at its insertion point, every better entry stays ahead of it, the others move back by one, and at most the worst entry is dropped |
| TopResults.OfferedAdded | DeepNestLib.Core/TopNestResultsCollection.cs:134-151 | a payload worse than every entry is appended only while Count < MaxCapacity; an added payload is inserted at its insertion point |
| TopResults.TryAddBounded | DeepNestLib.Core/TopNestResultsCollection.cs:155-158 | after TryAdd the list never exceeds MaxCapacity |
| TopResults.InsertAtPointSorted | DeepNestLib.Core/TopNestResultsCollection.cs:128-151 | inserting at the insertion point keeps an ascending list ascending |
| TopResults.TryAddSorted | DeepNestLib.Core/TopNestResultsCollection.cs:110-163 | whatever TryAdd does, an ascending list stays ascending by fitness |
| TopResults.TopNestResultsCollection.constructor | DeepNestLib.Core/TopNestResultsCollection.cs:23-28 | a new collection is empty and valid (sorted, within capacity) |
| TopResults.TopNestResultsCollection.Count | DeepNestLib.Core/TopNestResultsCollection.cs:42 | the number of results held |
| TopResults.TopNestResultsCollection.Top | DeepNestLib.Core/TopNestResultsCollection.cs:44 | nothing exactly when empty; otherwise a result no worse than any other entry |
| TopResults.TopNestResultsCollection.Clear | DeepNestLib.Core/TopNestResultsCollection.cs:95-108 | the collection becomes empty and stays valid |
| TopResults.TopNestResultsCollection.TryAdd | DeepNestLib.Core/TopNestResultsCollection.cs:110-163 | the linear scan, insert/append and eviction give exactly TryAddOutcome of the old list, and the list stays sorted and within capacity |
| Genes.Chromosome.FromPart | DeepNestLib.Core/GeneticAlgorithm/Chromosome.cs:7-10 | Chromosome(part) holds a clone of the part at the part's own rotation |
| Genes.Chromosome.FromRotation | DeepNestLib.Core/GeneticAlgorithm/Chromosome.cs:12-16 | the rotation-only constructor stores the rotation and leaves Part unset |
| Genes.Chromosome.constructor | DeepNestLib.Core/GeneticAlgorithm/Chromosome.cs:18-22 | Chromosome(part, rotation) holds a clone of the part, not the part, and the rotation as given |
| Genes.Chromosome.SetIndex | DeepNestLib.Core/GeneticAlgorithm/Chromosome.cs:30-33 | sets the held part's Id and changes nothing else |
| Genes.IndexOfChromosome | DeepNestLib.Core/GeneticAlgorithm/Gene.cs:21 | IndexOf(item) is -1 exactly when the chromosome is absent, otherwise its first position |
| Genes.Matching | DeepNestLib.Core/GeneticAlgorithm/Gene.cs:27 | the increasing list of exactly the positions whose part has the id |
| Genes.IndexOfPartId | DeepNestLib.Core/GeneticAlgorithm/Gene.cs:27 | a found position lies inside the gene |
| Genes.IndexOfPartIdMeaning | DeepNestLib.Core/GeneticAlgorithm/Gene.cs:27 | IndexOf(partId) returns the position of the unique chromosome with that part id, and fails only when no chromosome or at least two chromosomes have it |
| Genes.SignatureOf | DeepNestLib.Core/GeneticAlgorithm/Procreant.cs:90-91 | the signature lists, position by position, the part ids and the rotations of the gene |
| Genes.SwapAdjacent | DeepNestLib.Core/GeneticAlgorithm/Procreant.cs:180-185 | exchanging a chromosome with its right neighbour swaps those two positions and keeps every other |
| Genes.SwapAdjacentPermutes | DeepNestLib.Core/GeneticAlgorithm/Procreant.cs:180-185 | a neighbour swap keeps the multiset of chromosomes |
| Genes.SwapsPermute | DeepNestLib.Core/GeneticAlgorithm/Procreant.cs:177-195 | however many swaps the mutation pass makes, the gene keeps exactly its chromosomes |
| Genes.NoSwapKeepsOrder | DeepNestLib.Core/GeneticAlgorithm/Procreant.cs:177-195 | with no swap draw below the mutation threshold the order is unchanged |
| Genes.AnyHasIdMeaning | DeepNestLib.Core/GeneticAlgorithm/Procreant.cs:280 | the Any test holds exactly when some chromosome of the prefix carries the id |
| Genes.Missing | DeepNestLib.Core/GeneticAlgorithm/Procreant.cs:277-285 | the supplicant's chromosomes whose part id is not in the prefix, in the supplicant's order, are no more than the supplicant |
| Genes.CompleteGene | DeepNestLib.Core/GeneticAlgorithm/Procreant.cs:272-288 | the child is the initiant prefix followed by the missing chromosomes in the supplicant's order, in an array of the supplicant's length (null-padded); it throws exactly when they do not fit |
| Genes.Overflow | DeepNestLib.Core/GeneticAlgorithm/Procreant.cs:282 | a missing chromosome with no free slot left means the supplicant does not fit, so the index-out-of-range path is exactly the not-fitting case |
| Genes.MissingGrows | DeepNestLib.Core/GeneticAlgorithm/Procreant.cs:277-285 | a longer supplicant prefix has at least as many missing chromosomes |
| Genes.PermutationFacts | DeepNestLib.Core/GeneticAlgorithm/Procreant.cs:116-134 | a permutation of the Adam gene (part i has id i) holds parts, has no repeated chromosome, and its chromosome with id k is Adam's k-th |
| Genes.SignatureOrder | DeepNestLib.Core/GeneticAlgorithm/Procreant.cs:88 | the part ids of an ordering's signature are the positions of its chromosomes in the first gene |
| Genes.MissingIsWithout | DeepNestLib.Core/GeneticAlgorithm/Procreant.cs:280 | for permutations of Adam, "no prefix chromosome has its part id" is the same as "not in the prefix" |
| Genes.PrefixThenRest | DeepNestLib.Core/GeneticAlgorithm/Procreant.cs:272-288 | a prefix followed by the rest of another permutation is a permutation |
| Genes.CrossoverIsPermutation | DeepNestLib.Core/GeneticAlgorithm/Procreant.cs:272-288 | completing a prefix of one permutation of Adam from another never throws, fills every slot, and yields a permutation: every part id occurs exactly once |
| Procreation.NewItem | DeepNestLib.Core/GeneticAlgorithm/Procreant.cs:49 | a new member holds the gene, with fitness -1 (not evaluated) and not being processed |
| Procreation.IsPartRotationRestricted | DeepNestLib.Core/GeneticAlgorithm/Procreant.cs:215-218 | a part with its own strict angle is restricted exactly to that angle; a part without one follows the configuration's strict angle |
| Procreation.RandomRotationValues | DeepNestLib.Core/GeneticAlgorithm/Procreant.cs:199-213 | GetRandomRotation gives 0 or 180 for a part held to its previewed orientation, 90 or 270 for one held to quarter turns, and otherwise k · 360 / Rotations for a step count k that floor(draw · Rotations) can give: 0 ≤ k < Rotations and an angle in [0, 360) for a positive Rotations, Rotations ≤ k ≤ 0 and an angle in [0, 360] for a negative one |
| Procreation.UnrestrictedRotation | DeepNestLib.Core/GeneticAlgorithm/Procreant.cs:209-212 | an unrestricted part gets floor(draw · Rotations) steps of 360 / Rotations |
| Procreation.StepAngleRange | DeepNestLib.Core/GeneticAlgorithm/Procreant.cs:211 | every step count a unit draw can give is an angle in [0, 360], short of 360 when Rotations is positive |
| Procreation.FirstInBand | DeepNestLib.Core/GeneticAlgorithm/Procreant.cs:236-248 | the scan over the bands always names an individual of the list |
| Procreation.RandomWeightedIndividual | DeepNestLib.Core/GeneticAlgorithm/Procreant.cs:221-249 | the pick is the first individual whose band holds the draw strictly inside it, no earlier band holds it, and it is the first individual when no band does |
| Procreation.BandPositive | DeepNestLib.Core/GeneticAlgorithm/Procreant.cs:232-245 | every band of the weighted selection has positive width |
| Procreation.BandsAscend | DeepNestLib.Core/GeneticAlgorithm/Procreant.cs:244-245 | bands are laid out left to right: an earlier band ends where a later one starts or before |
| Procreation.BandsDisjoint | DeepNestLib.Core/GeneticAlgorithm/Procreant.cs:239-245 | a draw lies in at most one band, so the selection is well defined |
| Procreation.SecondBandDoublesFirst | DeepNestLib.Core/GeneticAlgorithm/Procreant.cs:220-245 | from two individuals on the second band is twice as wide as the first, so the weighting does not favour the front of the list the way the comment says |
| Procreation.BandUpperClosed | DeepNestLib.Core/GeneticAlgorithm/Procreant.cs:233-245 | the upper end of band i is (n + 2·i·n − i·(i − 1)) / n² in closed form |
| Procreation.BandsOvershoot | DeepNestLib.Core/GeneticAlgorithm/Procreant.cs:233-245 | from two individuals on the bands together reach past 1, so the last bands are never or only partly reachable by a draw in [0, 1) |
| Procreation.CutPointRange | DeepNestLib.Core/GeneticAlgorithm/Procreant.cs:254 | the rounded, clamped crossover point lies between 0 and the gene's length less one |
| Procreation.TakeCount | DeepNestLib.Core/GeneticAlgorithm/Procreant.cs:256-257 | Take(count) keeps count elements when 0 ≤ count ≤ length, and never more than the length |
| Procreation.CrossoverCount | DeepNestLib.Core/GeneticAlgorithm/Procreant.cs:254-257 | a child never inherits more chromosomes directly than the parent gene holds |
| Procreation.MutatedMembers | DeepNestLib.Core/GeneticAlgorithm/Procreant.cs:174-187 | the swap pass of Mutate reorders the parent's chromosomes: same multiset, no new chromosome |
| Procreation.MutatedDistinct | DeepNestLib.Core/GeneticAlgorithm/Procreant.cs:174-187 | a mutated gene of distinct, part-holding chromosomes is again distinct and part-holding |
| Procreation.SwapsSettled | DeepNestLib.Core/GeneticAlgorithm/Procreant.cs:175-187 | once the swap pass has moved past a position, that position no longer changes |
| Procreation.SwapStepKeepsFront | DeepNestLib.Core/GeneticAlgorithm/Procreant.cs:180-186 | step i of the swap pass only touches positions i and i + 1 |
| Procreation.PermutationKeepsDistinct | DeepNestLib.Core/GeneticAlgorithm/Procreant.cs:174-196 | reordering distinct chromosomes keeps them distinct |
| Procreation.Reroll | DeepNestLib.Core/GeneticAlgorithm/Procreant.cs:189-193 | the reroll gives the chromosome a random rotation when the draw is under MutationRate percent and keeps its rotation otherwise |
| Procreation.MutationPass | DeepNestLib.Core/GeneticAlgorithm/Procreant.cs:174-194 | the loop of Mutate leaves the swapped order and gives each position the rotation the reroll decided for it |
| Procreation.MutateAt | DeepNestLib.Core/GeneticAlgorithm/Procreant.cs:177-192 | one position of Mutate's loop: the order after the swap with the next position is the swap pass one step further, and the chromosome left at the position gets the rotation the reroll decides for it |
| Procreation.SigsOfAll | DeepNestLib.Core/GeneticAlgorithm/Procreant.cs:88 | each member's signature is the one built from its part ids and rotations |
| Procreation.Kept | DeepNestLib.Core/GeneticAlgorithm/Procreant.cs:72-84 | TerminateClones never keeps more members than it is given, and only positions of its input |
| Procreation.KeptMeaning | DeepNestLib.Core/GeneticAlgorithm/Procreant.cs:72-100 | TerminateClones keeps, in order, exactly the first occurrence of each signature not recorded before |
| Procreation.KeptDistinct | DeepNestLib.Core/GeneticAlgorithm/Procreant.cs:72-100 | the kept members have pairwise different signatures, none recorded before |
| Procreation.KeptFirst | DeepNestLib.Core/GeneticAlgorithm/Procreant.cs:72-100 | the first member is kept when its signature was not recorded before |
| Procreation.KeptNone | DeepNestLib.Core/GeneticAlgorithm/Procreant.cs:72-100 | nothing is kept when every signature was recorded before |
| Procreation.KeptCovers | DeepNestLib.Core/GeneticAlgorithm/Procreant.cs:72-100 | every member turned away is a clone of a recorded or a kept member |
| Procreation.PickedSigs | DeepNestLib.Core/GeneticAlgorithm/Procreant.cs:72-84 | the signatures of the kept members are the kept signatures |
| Procreation.SameGenesSameSigs | DeepNestLib.Core/GeneticAlgorithm/Procreant.cs:102-114 | renumbering members does not change their signatures |
| Procreation.Populated | DeepNestLib.Core/GeneticAlgorithm/Procreant.cs:48-56 | the first generation keeps the first gene at its head, holds no two members with one signature, and every member is an ordering of the first gene numbered by position |
| Procreation.ExpandedLength | DeepNestLib.Core/GeneticAlgorithm/Procreant.cs:116-132 | CreateAdam makes as many copies as the positive quantities add up to |
| Procreation.ExpandedAt | DeepNestLib.Core/GeneticAlgorithm/Procreant.cs:118-131 | copy j of part i sits at position (copies of the parts before i) + j and carries that position as its id and i as its source |
| Procreation.ExpandedNumbering | DeepNestLib.Core/GeneticAlgorithm/Procreant.cs:118-131 | every copy is a deep copy of some part, numbered with its position |
| Procreation.CreateAdam | DeepNestLib.Core/GeneticAlgorithm/Procreant.cs:116-152 | the first gene is the expanded copies ordered from largest to smallest absolute area, ties in part order |
| Procreation.AdamCopies | DeepNestLib.Core/GeneticAlgorithm/Procreant.cs:116-152 | the first gene holds N copies, each a deep copy of its source part with an id below N, in descending absolute area |
| Procreation.AdamIds | DeepNestLib.Core/GeneticAlgorithm/Procreant.cs:119-130 | every id 0 … N − 1 is carried by some part of the first gene |
| Procreation.BuildAdamGene | DeepNestLib.Core/GeneticAlgorithm/Procreant.cs:59-70 | one fresh chromosome per part, holding a clone of the part renumbered with its position, at the given rotation |
| Procreation.RemoveFirst | DeepNestLib.Core/GeneticAlgorithm/Procreant.cs:225-228 | List.Remove drops one element when it is present and adds none |
| Procreation.RemoveFirstCounts | DeepNestLib.Core/GeneticAlgorithm/Procreant.cs:225-228 | List.Remove takes away exactly one copy of the element |
| Procreation.Parents | DeepNestLib.Core/GeneticAlgorithm/Procreant.cs:304-305 | both parents come from the new generation, and the female is never the male when the members are distinct |
| Procreation.CrossoverFacts | DeepNestLib.Core/GeneticAlgorithm/Procreant.cs:252-288 | a crossover of two orderings of the first gene is an ordering of it again, of the same length |
| Procreation.Son | DeepNestLib.Core/GeneticAlgorithm/Procreant.cs:256 | the son, before mutation, is an ordering of the first gene |
| Procreation.Daughter | DeepNestLib.Core/GeneticAlgorithm/Procreant.cs:257 | the daughter, before mutation, is an ordering of the first gene |
| Procreation.EliteCount | DeepNestLib.Core/GeneticAlgorithm/Procreant.cs:297-298 | Generate carries over a tenth of the population size, or all members when there are fewer |
| Procreation.SortedMembers | DeepNestLib.Core/GeneticAlgorithm/Procreant.cs:293 | sorting by fitness keeps every member an ordering of the first gene |
| Procreation.Offspring | DeepNestLib.Core/GeneticAlgorithm/Procreant.cs:256-263 | a child of a crossover is a new member whose gene is an ordering of the first gene |
| Procreation.FromParts | DeepNestLib.Core/GeneticAlgorithm/Procreant.cs:38-57 | a negative PopulationSize fails with OverflowException and zero with IndexOutOfRangeException, exactly; any other size builds a valid driver holding one chromosome per copy, in CreateAdam's order, numbered by position, with a recorded and clone-free first generation |
| Procreation.FromAdam | DeepNestLib.Core/GeneticAlgorithm/Procreant.cs:38-57 | the generation array fails with OverflowException exactly for a negative PopulationSize and with IndexOutOfRangeException exactly for zero (no slot for the first gene); any other size gives a new valid driver whose first gene holds the given parts numbered by position and heads a recorded, clone-free first generation |
| Procreation.Procreant.constructor | DeepNestLib.Core/GeneticAlgorithm/Procreant.cs:38-57 | for a PopulationSize of at least 1 (FromAdam carries the sizes for which the array allocation throws): the first gene gets random rotations and heads the first generation; the other members are mutants of it; clones are turned away, every survivor is recorded and counted, and terminations count the rest |
| Procreation.Procreant.FirstGeneration | DeepNestLib.Core/GeneticAlgorithm/Procreant.cs:56 | TerminateClones on a fresh record leaves the first gene at the head, a clone-free generation numbered by position, and the record equal to its signatures |
| Procreation.Procreant.Mutants | DeepNestLib.Core/GeneticAlgorithm/Procreant.cs:48-54 | the unfiltered first generation: the first gene then one mutant per draw list, each an ordering of the first gene, with parts untouched |
| Procreation.Procreant.IsUnique | DeepNestLib.Core/GeneticAlgorithm/Procreant.cs:86-100 | unique exactly when the signature was not recorded before; the signature is recorded; terminations grow by one otherwise |
| Procreation.Procreant.TerminateClones | DeepNestLib.Core/GeneticAlgorithm/Procreant.cs:72-84 | the kept members are those Kept names, every signature is recorded, and terminations grow by the number turned away |
| Procreation.Procreant.SetPopulation | DeepNestLib.Core/GeneticAlgorithm/Procreant.cs:102-114 | the Population setter stores the members, each numbered with its position |
| Procreation.Procreant.IsCurrentGenerationFinished | DeepNestLib.Core/GeneticAlgorithm/Procreant.cs:156-170 | the generation is finished exactly when no member has fitness -1 |
| Procreation.Procreant.Mutate | DeepNestLib.Core/GeneticAlgorithm/Procreant.cs:172-197 | the child is the swapped order of the parent's chromosomes; each position's rotation is a random rotation where the reroll draw is under the threshold and the rotation it carried otherwise; parts are untouched |
| Procreation.Procreant.Mate | DeepNestLib.Core/GeneticAlgorithm/Procreant.cs:252-264 | son and daughter are the two single-point crossovers at the drawn cut, and both are orderings of the first gene |
| Procreation.Procreant.Generate | DeepNestLib.Core/GeneticAlgorithm/Procreant.cs:290-337 | the fittest tenth is carried over in fitness order; every later member of the bred generation is the mutated son or daughter of a round, bred from the members before it and admitted only under a signature that was new to the record, pairwise different from the other admitted ones, and recorded afterwards; the bred generation, renumbered, is kept when larger than the tenth, and with a population size under 20 a recorded generation is replaced by an empty one |
| Procreation.Procreant.Regenerate | DeepNestLib.Core/GeneticAlgorithm/Procreant.cs:302-336 | the bred generation starts with the carried-over members, its later members are unevaluated orderings of the first gene with the lineage Procreate states, and it replaces the old generation, renumbered, when larger than the tenth |
| Procreation.Procreant.SortByFitness | DeepNestLib.Core/GeneticAlgorithm/Procreant.cs:293 | the members become the old ones sorted ascending by fitness, and the carried-over members of a recorded small generation keep their signatures on record |
| Procreation.Procreant.Replace | DeepNestLib.Core/GeneticAlgorithm/Procreant.cs:331-336 | a new generation larger than the carried-over tenth replaces the old one as it is; a smaller one is filtered for clones first, which empties it when all its signatures were recorded |
| Procreation.Procreant.ElitesKept | DeepNestLib.Core/GeneticAlgorithm/Procreant.cs:331-336 | the carried-over members head the new generation, renumbered |
| Procreation.Procreant.CullClones | DeepNestLib.Core/GeneticAlgorithm/Procreant.cs:331-334 | the re-filter keeps orderings of the first gene and keeps nothing when every signature was on record |
| Procreation.Procreant.Procreate | DeepNestLib.Core/GeneticAlgorithm/Procreant.cs:302-329 | the loop only appends unevaluated orderings of the first gene, never past the population size, and does nothing with one member or fewer; each appended member is the mutated son or daughter of a round, bred from the members before it, and admitted under a signature that has its part ids, was new to the record the loop started from, differs from every other admitted one and is recorded at the end |
| Procreation.LineageStep | DeepNestLib.Core/GeneticAlgorithm/Procreant.cs:302-329 | one round extends the lineage: the members it adds are bred in that round and their signatures stay pairwise different, new to the starting record and recorded |
| Procreation.BredRound | DeepNestLib.Core/GeneticAlgorithm/Procreant.cs:304-323 | the members a round adds are the mutated son and the mutated daughter of that round's parents, in that order |
| Procreation.AdmittedGrow | DeepNestLib.Core/GeneticAlgorithm/Procreant.cs:312-319 | signatures a round admits because they were not yet recorded cannot repeat one admitted earlier, so the admitted signatures stay pairwise different |
| Procreation.Procreant.Breed | DeepNestLib.Core/GeneticAlgorithm/Procreant.cs:304-328 | one round checks the mutated son's signature and, when he is new and there is room for two, the mutated daughter's against the record plus his; a child is added exactly when its signature was new, every checked signature is recorded, and each clone counts a termination |
| Procreation.Procreant.Brood | DeepNestLib.Core/GeneticAlgorithm/Procreant.cs:311-323 | the son's signature is checked first and the daughter's only after a new son with room for her; each is added exactly when its signature is not yet on record, every checked signature is recorded, and terminations grow by the clones |
| Procreation.Procreant.Couple | DeepNestLib.Core/GeneticAlgorithm/Procreant.cs:304-308 | the children are the crossovers of the weighted male and of the weighted female picked from the others |
| Procreation.Procreant.Offer | DeepNestLib.Core/GeneticAlgorithm/Procreant.cs:311-312 | the mutant is the mutated order of the child; it is unique exactly when its signature was not on record, the signature is recorded either way, and a clone counts a termination |
| Placement.PlacedIdsCount | DeepNestLib.Core/Placement/PlacementWorker.cs:113 | the part Ids on the used sheets are one per placed part |
| Placement.PlacedIdsRemove | DeepNestLib.Core/Placement/PlacementWorker.cs:213 | taking a used sheet out of the placements takes exactly its parts' Ids out |
| Placement.PlacedIdsAppend | DeepNestLib.Core/Placement/PlacementWorker.cs:103 | recording a used sheet adds exactly its parts' Ids |
| Placement.Prepared | DeepNestLib.Core/Placement/PlacementWorker.cs:254-262 | PrepUnplacedParts turns every part of the gene by its own rotation, in gene order |
| Placement.PreparedIds | DeepNestLib.Core/Placement/PlacementWorker.cs:254-262 | the prepared parts carry exactly the gene's Ids, in gene order |
| Placement.FiltersSplit | DeepNestLib.Core/Placement/PlacementWorker.cs:83 | the priority filter and the non-priority filter together hold every unplaced part once |
| Placement.FiltersKinds | DeepNestLib.Core/Placement/PlacementWorker.cs:83 | each filter holds only its own kind of part |
| Placement.ProcessingOrderPermutes | DeepNestLib.Core/Placement/PlacementWorker.cs:83 | a pass offers every unplaced part once; outside a priority pass in their current order |
| Placement.PriorityFirst | DeepNestLib.Core/Placement/PlacementWorker.cs:76-83 | in a priority pass every priority part is offered before every other part |
| Placement.RemoveFirstMeaning | DeepNestLib.Core/Placement/PlacementWorker.cs:153 | List.Remove takes one copy of a present part out and leaves the list unchanged when the part is absent |
| Placement.RemoveFirstIds | DeepNestLib.Core/Placement/PlacementWorker.cs:153 | removing a placed part removes exactly one copy of its Id from the unplaced Ids |
| Placement.UsedAt | DeepNestLib.Core/Placement/PlacementWorker.cs:199-201 | a sheet reference has a used-sheet position exactly when some used sheet has that reference |
| Placement.GetSheetShape | DeepNestLib.Core/Placement/PlacementWorker.cs:189-233 | no sheet found empties the stack and leaves the placements; a new sheet comes with no placements; a used sheet is handed out only when no priority part remains; a found sheet shortens the stack |
| Placement.GetSheetRanges | DeepNestLib.Core/Placement/PlacementWorker.cs:195-226 | every sheet handed out, kept on the stack or requeued was on the stack before |
| Placement.GetSheetKeeps | DeepNestLib.Core/Placement/PlacementWorker.cs:199-216 | the placements handed back plus those still on used sheets are those that were on used sheets; the used sheets stay distinct and paired with their originals |
| Placement.PickFacts | DeepNestLib.Core/Placement/PlacementWorker.cs:189-233 | TryGetSheet loses no placed part, hands out a sheet not among the used ones, and requeues nothing when it reuses a sheet |
| Placement.RemovalKeeps | DeepNestLib.Core/Placement/PlacementWorker.cs:213 | removing a used sheet keeps the rest distinct and paired and frees its reference |
| Placement.TwoStacksMispair | DeepNestLib.Core/Placement/PlacementWorker.cs:129-146 | with the sheet and original-sheet stacks popped together but only the sheet pushed back, a priority pass followed by a pass with a priority part left throws on the empty original stack, and one with only other parts left pairs sheet 0 with sheet 1's original |
| Placement.OneStackPairs | DeepNestLib.Core/Placement/PlacementWorker.cs:189-233 | the same passes over one stack of sheet references requeue sheet 0 and hand out sheet 1, or reuse sheet 0 with its own original |
| Placement.PlacementWorker.constructor | DeepNestLib.Core/Placement/PlacementWorker.cs:41-51 | the worker keeps its sheets, originals, gene and configuration and starts with nothing stacked, unplaced or placed; the gene's Ids must be distinct |
| Placement.PlacementWorker.Initialise | DeepNestLib.Core/Placement/PlacementWorker.cs:235-262 | the sheets are stacked with the first sheet on top, the parts are the turned gene parts, nothing is placed, and the worker invariant holds |
| Placement.PlacementWorker.PrepUnplacedParts | DeepNestLib.Core/Placement/PlacementWorker.cs:254-262 | the unplaced parts are the gene's parts turned by their rotations |
| Placement.PlacementWorker.TryGetSheet | DeepNestLib.Core/Placement/PlacementWorker.cs:189-233 | on the corrected single stack of sheet-and-original pairs (see Findings): the pops, the sheet handed out, its placements, the requeue and the new placements are those GetSheet describes |
| Placement.PlacementWorker.RequeueSheets | DeepNestLib.Core/Placement/PlacementWorker.cs:129-147 | corrected (see Findings): the sheet is pushed back together with its own original after a priority pass that left parts unplaced, then every requeued sheet in order |
| Placement.PlacementWorker.AddPlacement | DeepNestLib.Core/Placement/PlacementWorker.cs:149-179 | the placed part leaves the unplaced parts, one copy of it |
| Placement.PlacementWorker.OfferPart | DeepNestLib.Core/Placement/PlacementWorker.cs:84-97 | offering a part moves Ids from the unplaced parts to the sheet's placements and never the reverse, and the parts still to be offered stay unplaced |
| Placement.PlacementWorker.FillSheet | DeepNestLib.Core/Placement/PlacementWorker.cs:82-97 | a pass over a sheet keeps the union of placed and unplaced Ids and only adds placements |
| Placement.PlacementWorker.Round | DeepNestLib.Core/Placement/PlacementWorker.cs:74-110 | one loop turn keeps the worker invariant and, when the loop goes on, either placed a part or used up a stacked sheet |
| Placement.PlacementWorker.CloseSheet | DeepNestLib.Core/Placement/PlacementWorker.cs:99-109 | after requeueing, a sheet that received parts is recorded; the loop goes on only after progress |
| Placement.PlacementWorker.RecordSheet | DeepNestLib.Core/Placement/PlacementWorker.cs:103 | the filled sheet is recorded with its own original; the used sheets stay distinct and paired, and its parts' Ids are added |
| Placement.PlacementWorker.PlaceParts | DeepNestLib.Core/Placement/PlacementWorker.cs:61-121 | on the corrected single stack of sheet-and-original pairs (see Findings): no sheets gives no result; otherwise the result holds every part of the gene exactly once, placed or unplaced, and each used sheet once with its own original |
| Placement.AllCounted | DeepNestLib.Core/Placement/PlacementWorker.cs:113 | when the Ids balance, placed plus unplaced parts count the gene's parts |
| Placement.AddedKeeps | DeepNestLib.Core/Placement/PlacementWorker.cs:103 | recording an unused sheet paired with its own original keeps the used sheets distinct and paired |
| PartPlacing.Turned | DeepNestLib/Placement/PartPlacementWorker.cs:148-151 | a retried orientation keeps the part's Id, Source and priority, advances its Rotation by the step and turns its vertices |
| PartPlacing.Orientations | DeepNestLib/Placement/PartPlacementWorker.cs:138-155 | the retry loop tries the part after 0, 1, … Rotations − 1 further steps |
| PartPlacing.OrientationsStep | DeepNestLib/Placement/PartPlacementWorker.cs:148-154 | each orientation tried is the one before it turned by one more step |
| PartPlacing.FirstFittingMeaning | DeepNestLib/Placement/PartPlacementWorker.cs:138-146 | the orientation the loop stops at fits the empty sheet and none tried before it does |
| PartPlacing.NothingFits | DeepNestLib/Placement/PartPlacementWorker.cs:158-167 | the loop runs to the end exactly when no orientation fits the empty sheet |
| PartPlacing.Translate | DeepNestLib/Placement/PartPlacementWorker.cs:549-553 | every vertex of an outer no-fit polygon is moved by the placement's offset |
| PartPlacing.Moved | DeepNestLib/Placement/PartPlacementWorker.cs:549-566 | the outline and every hole of an outer no-fit polygon move by the placement's offset |
| PartPlacing.CombineFromMeaning | DeepNestLib/Placement/PartPlacementWorker.cs:531-571 | folding the outer no-fit polygons from the start index fails exactly when one of them is missing, and otherwise keeps the cached union's paths in front |
| PartPlacing.BoundsOf | DeepNestLib/Placement/PartPlacementWorker.cs:284-295 | a bounding box has non-negative width and height and contains every point |
| PartPlacing.MergedWidth | DeepNestLib/Placement/PartPlacementWorker.cs:324-335 | the box around the placed parts' box and the shifted part's box spans from the leftmost to the rightmost edge |
| PartPlacing.MergedHeight | DeepNestLib/Placement/PartPlacementWorker.cs:324-335 | the box around both boxes spans from the lowest to the highest edge |
| PartPlacing.GravityScore | DeepNestLib/Placement/PartPlacementWorker.cs:338-341 | the Gravity score is three times the merged box's width plus its height |
| PartPlacing.ShiftVector | DeepNestLib/Placement/PartPlacementWorker.cs:312-319 | a candidate position puts the part's first vertex on the candidate point and carries the part's Id, Source and Rotation |
| PartPlacing.Candidates | DeepNestLib/Placement/PartPlacementWorker.cs:303-313 | the candidates are every vertex of the difference, visited path by path |
| PartPlacing.RunningMin | DeepNestLib/Placement/PartPlacementWorker.cs:395-403 | minx and miny keep the lower of the running minimum and the new value |
| PartPlacing.SelectStep | DeepNestLib/Placement/PartPlacementWorker.cs:303-413 | the selection over one more candidate is one more visit of the loop body |
| PartPlacing.SelectFound | DeepNestLib/Placement/PartPlacementWorker.cs:385-416 | a position is chosen exactly when there is a candidate, since the first candidate is always accepted |
| PartPlacing.SelectMinima | DeepNestLib/Placement/PartPlacementWorker.cs:385-403 | the chosen position is the last accepted candidate with its own score as minarea; minx and miny are the minima over the accepted candidates |
| PartPlacing.SelectChoosesCandidate | DeepNestLib/Placement/PartPlacementWorker.cs:385-394 | the chosen position is one of the candidates, with its own score |
| PartPlacing.StrictlyBestIsChosen | DeepNestLib/Placement/PartPlacementWorker.cs:385-394 | a candidate scoring lower than every other by more than the tolerance is chosen wherever it comes in the order |
| PartPlacing.Processed | DeepNestLib/Placement/PartPlacementWorker.cs:130 | the processed part is a copy of the input part with the same Id, Source, priority and vertices |
| PartPlacing.ProcessPlacesOnSuccess | DeepNestLib/Placement/PartPlacementWorker.cs:117-437 | a part is placed only with a Success result, as the input part (same Id and Source), and the clip cache keeps naming placements already made |
| PartPlacing.LaterPlacesOnSuccess | DeepNestLib/Placement/PartPlacementWorker.cs:196-430 | the later-part branch places only with Success and only the part it was given |
| PartPlacing.ScoredPlacesOnSuccess | DeepNestLib/Placement/PartPlacementWorker.cs:281-436 | scoring places only with Success and leaves the clip cache alone |
| PartPlacing.FirstPartOnSheet | DeepNestLib/Placement/PartPlacementWorker.cs:134-195 | on an empty sheet: no rotations dereferences a missing SheetNfp; otherwise the result is Continue exactly when no orientation fits, else the part is placed in the first orientation that fits; the cache is untouched |
| PartPlacing.FirstPlacementMeaning | DeepNestLib/Placement/PartPlacementWorker.cs:180-195 | the first part on a sheet puts its first vertex on the candidate point closest to the origin, and a part without vertices throws |
| PartPlacing.ClipCacheUpdate | DeepNestLib/Placement/PartPlacementWorker.cs:200-235 | a failed combination gives Continue with the cache untouched; otherwise the entry for the part's Source and Rotation holds the union and the index of the last placement, every other entry kept |
| PartPlacing.NoRoomLeft | DeepNestLib/Placement/PartPlacementWorker.cs:240-429 | Break comes only for a priority part without a placement; an empty difference gives Break for a priority part and Continue otherwise |
| PartPlacing.BreakOnlyForPriority | DeepNestLib/Placement/PartPlacementWorker.cs:240-429 | ProcessPart answers Break only for a priority part |
| PartPlacing.MergeLinesThrows | DeepNestLib/Placement/PartPlacementWorker.cs:365-367 | with MergeLines on, scoring the first candidate throws |
| PartPlacing.PartPlacer.constructor | DeepNestLib/Placement/PartPlacementWorker.cs:34-49 | a worker holds its sheet, configuration and starting placements and an empty clip cache |
| PartPlacing.PartPlacer.FitFirst | DeepNestLib/Placement/PartPlacementWorker.cs:138-155 | the retry loop reports a fit exactly when some orientation fits, and then returns the first such orientation with its SheetNfp |
| PartPlacing.PartPlacer.TryGetCombinedNfp | DeepNestLib/Placement/PartPlacementWorker.cs:531-585 | the combination succeeds exactly when Combined does, and yields its union |
| PartPlacing.PartPlacer.ChoosePosition | DeepNestLib/Placement/PartPlacementWorker.cs:302-414 | the selection loop's result is Select over the candidates in visiting order |
| PartPlacing.PartPlacer.AddPlacement | DeepNestLib/Placement/PartPlacementWorker.cs:455-457 | the placement made is appended to the sheet's placements |
| PartPlacing.PartPlacer.ProcessPart | DeepNestLib/Placement/PartPlacementWorker.cs:117-437 | the result, the placement made and the new clip cache are those ProcessOutcome describes; a placement is appended only with Success and carries the input part's Id |
| PartPlacing.PartPlacer.PlaceLater | DeepNestLib/Placement/PartPlacementWorker.cs:196-430 | the later-part branch does what LaterPlacement describes and appends what it places |
| PartPlacing.PartPlacer.RememberUnion | DeepNestLib/Placement/PartPlacementWorker.cs:227-235 | the cache entry for the key becomes the union with the index of the last placement; the rest is kept |
| PartPlacing.PartPlacer.ScoreAndPlace | DeepNestLib/Placement/PartPlacementWorker.cs:273-436 | the scoring stage does what Scored describes and appends what it places |
| Results.PlacedCountConcat | DeepNestLib.Core/Placement/NestResult.cs:124 | the placed count of two lists of used sheets is the sum of their counts |
| Results.PlacedCountRemove | DeepNestLib.Core/Placement/NestResult.cs:124 | taking a used sheet out lowers the placed count by exactly its placements |
| Results.TotalPartsCount | DeepNestLib.Core/Placement/NestResult.cs:124-129 | TotalPartsCount is the placed count plus the unplaced parts |
| Results.PartsPlacedPercent | DeepNestLib.Core/Placement/NestResult.cs:132 | the share placed is NaN exactly when there are no parts at all, otherwise in [0, 1], 1 exactly when nothing is unplaced and 0 exactly when nothing is placed |
| Results.FractionFacts | DeepNestLib.Core/Placement/NestResult.cs:132 | a share of a positive whole lies in [0, 1], is 1 only for the whole and 0 only for nothing |
| Results.ExactCountIsValid | DeepNestLib.Core/Placement/NestResult.cs:143 | a result accounting for exactly the gene's parts is valid exactly when its fitness is a number |
| Results.SumBy | DeepNestLib.Core/Placement/NestResult.cs:135-138 | a sum over used sheets of non-negative terms is non-negative |
| Results.SumByConcat | DeepNestLib.Core/Placement/SheetPlacementCollection.cs:27-33 | sums over used sheets add up over a concatenation |
| Results.TotalSheetsArea | DeepNestLib.Core/Placement/NestResult.cs:138 | the used sheets' total area is never negative |
| Results.AbsDouble | DeepNestLib.Core/Placement/NestResult.cs:141 | Math.Abs keeps NaN, turns either infinity into +∞ and takes the absolute value of a number |
| Results.Utilization | DeepNestLib.Core/Placement/NestResult.cs:141 | with positive sheet area the utilisation times the sheet area is the absolute parts area; with none it is NaN (no parts area) or +∞ |
| Results.MaterialUtilization | DeepNestLib.Core/Placement/NestResult.cs:141 | a nest with no used sheet has NaN utilisation; with positive sheet area the utilisation is non-negative and times the sheet area gives the absolute parts area; with zero sheet area it is NaN or +∞ |
| Results.MergedLength | DeepNestLib.Core/Placement/NestResult.cs:73 | 0 without used sheets, a lone sheet's own merged length, and never negative when no sheet's merged length is |
| Results.AbsQuotient | DeepNestLib.Core/Placement/NestResult.cs:141 | the absolute quotient times a positive divisor is the absolute dividend |
| Results.SheetsUpToBounds | DeepNestLib.Core/Placement/SheetPlacementCollection.cs:36-58 | the sheet cost is at least the summed per-sheet shares, and exactly that when no later sheet carries a priority part |
| Results.SheetPlacementCollection.constructor | DeepNestLib.Core/Placement/SheetPlacementCollection.cs:16-24 | a collection holds the given sheets with the memo at 0 |
| Results.SheetPlacementCollection.Add | DeepNestLib.Core/Placement/SheetPlacementCollection.cs:11 | adding appends the sheet and leaves the memo alone |
| Results.SheetPlacementCollection.Sheets | DeepNestLib.Core/Placement/SheetPlacementCollection.cs:36-58 | a memo of 0 is recomputed as each sheet's share plus its area when the next sheet carries a priority part; any other memo is returned unchanged, even after sheets were added |
| RunState.Score | DeepNestLib.Core/SvgNest.cs:219-226 | a nest is ranked by its fitness when the fitness is a number (a non-finite one ranks as 0, see Left out) |
| RunState.Latest | DeepNestLib.Core/NestState.cs:95 | the latest creation time is some nest's time and no nest is later |
| RunState.Average | DeepNestLib.Core/NestState.cs:46-51 | the average is 0 before the first nest, and otherwise the total over the count truncated toward zero |
| RunState.AverageOfEqualTimes | DeepNestLib.Core/NestState.cs:46-51 | n nests of t milliseconds each average t |
| RunState.NestState.constructor | DeepNestLib.Core/NestState.cs:27-31 | a new state has every counter at 0, no error and no top results, with the configured capacity |
| RunState.NestState.AverageNestTime | DeepNestLib.Core/NestState.cs:46 | AverageNestTime is the nest-time total over the nest count, 0 before the first nest |
| RunState.NestState.AveragePlacementTime | DeepNestLib.Core/NestState.cs:51 | AveragePlacementTime is the placement-time total over the nest count, 0 before the first nest |
| RunState.NestState.LastTopFoundTimestamp | DeepNestLib.Core/NestState.cs:85-98 | nothing without top results, else the latest creation time among them |
| RunState.NestState.Reset | DeepNestLib.Core/NestState.cs:126-155 | every counter, total and last time is 0, no error, no top results and no cache share; rejected and threads are kept |
| RunState.NestState.ResetTimes | DeepNestLib.Core/NestState.cs:128-134 | the nest count, both totals and both last times are 0 |
| RunState.NestState.ResetCounters | DeepNestLib.Core/NestState.cs:131-140 | generations, population, iterations and both call counters are 0 and the error flag is down |
| RunState.NestState.IncrementPopulation | DeepNestLib.Core/NestState.cs:157-161 | the population counter grows by one |
| RunState.NestState.SetLastPlacementTime | DeepNestLib.Core/NestState.cs:163-167 | the last placement time is the given time |
| RunState.NestState.SetLastNestTime | DeepNestLib.Core/NestState.cs:169-173 | the last nest time is the given time |
| RunState.NestState.IncrementNestCount | DeepNestLib.Core/NestState.cs:175-179 | the nest count grows by one |
| RunState.NestState.IncrementNestTime | DeepNestLib.Core/NestState.cs:181-185 | the background time is added to the placement-time total, as written |
| RunState.NestState.IncrementPlacementTime | DeepNestLib.Core/NestState.cs:187-191 | the placement time is added to the nest-time total, as written |
| RunState.NestState.IncrementGenerations | DeepNestLib.Core/NestState.cs:193-197 | the generation counter grows by one |
| RunState.NestState.ResetPopulation | DeepNestLib.Core/NestState.cs:199-203 | the population counter is 0 |
| RunState.NestState.IncrementThreads | DeepNestLib.Core/NestState.cs:205-209 | the thread count grows by one |
| RunState.NestState.DecrementThreads | DeepNestLib.Core/NestState.cs:211-215 | the thread count drops by one |
| RunState.NestState.IncrementIterations | DeepNestLib.Core/NestState.cs:217-221 | the iteration counter grows by one |
| RunState.NestState.IncrementDllCallCounter | DeepNestLib.Core/NestState.cs:223-227 | the native Minkowski call counter grows by one |
| RunState.NestState.IncrementClipperCallCounter | DeepNestLib.Core/NestState.cs:229-233 | the Clipper call counter grows by one |
| RunState.NestState.IncrementRejected | DeepNestLib.Core/NestState.cs:235-239 | the rejected counter grows by one |
| RunState.NestState.SetIsErrored | DeepNestLib.Core/NestState.cs:241-244 | the error flag is raised |
| RunState.NestState.SetNfpPairCachePercentCached | DeepNestLib.Core/NestState.cs:246-250 | the cache share is the given value |
| RunState.NestState.RecordNest | DeepNestLib.Core/SvgNest.cs:204-209 | per returned nest: population and nest count grow by one, the last times are set, and the crossed accumulators add the placement time to the nest-time total and the background time to the placement-time total |
| RunState.NestState.RunThread | DeepNestLib.Core/SvgNest.cs:492-518 | on the success path, a worker thread started and finished leaves the thread count as it was (a failing pass is Nesting.SvgNest.ProcessPopulation's, which leaves it one higher) |
| RunState.CrossedAverages | DeepNestLib.Core/NestState.cs:46-51 | after n equal nests from a reset, AverageNestTime reports the placement time and AveragePlacementTime the background time |
| Nesting.IndexOf | DeepNestLib.Core/SvgNest.cs:229 | the position TopNestResults.IndexOf reports is -1 exactly when the nest is absent, and otherwise the first position holding it |
| Nesting.LabelOf | DeepNestLib.Core/SvgNest.cs:226-253 | an accepted nest is labelled Elite or Top exactly when TryAdd added it, Duplicate exactly when TryAdd found a duplicate and Sub-optimal exactly when it was not added; a failing TryAdd fails |
| Nesting.IndexOfPlaced | DeepNestLib.Core/SvgNest.cs:229 | a nest inserted at position i with only better-scored entries before it is found by IndexOf at i |
| Nesting.EliteRank | DeepNestLib.Core/SvgNest.cs:226-237 | a nest is labelled Elite exactly when TryAdd added it at a position below the elite survivors count |
| Nesting.SvgNest.ResponseProcessor | DeepNestLib.Core/SvgNest.cs:194-268 | a missing nest changes nothing; otherwise the nest is counted, its member stops processing and takes the nest's fitness, an invalid or sheetless nest is counted as rejected and kept out of the top results, and any other is offered to them and labelled by the outcome; a non-finite fitness is stored and ranked as 0 (see RunState.Score under Left out) |
| Nesting.SvgNest.SetScore | DeepNestLib.Core/SvgNest.cs:214-215 | only the returned member changes: it is no longer processing and holds the nest's fitness, or 0 when that fitness is not a number (see RunState.Score under Left out) |
| Nesting.SvgNest.File | DeepNestLib.Core/SvgNest.cs:219-253 | a rejected nest raises the rejected count and leaves the top results alone; an accepted nest goes through TryAdd and is labelled by LabelOf |
| Nesting.SvgNest.Stop | DeepNestLib.Core/SvgNest.cs:188-192 | the run is marked stopped |
| Nesting.SvgNest.constructor | DeepNestLib.Core/SvgNest.cs:25-38 | a new run holds the given sheets and original sheets, is not stopped and has filed no nest |
| Nesting.SvgNest.MarkProcessing | DeepNestLib.Core/SvgNest.cs:505 | only the chosen member changes, and it is marked as processing |
| Nesting.SvgNest.Evaluate | DeepNestLib.Core/SvgNest.cs:502-514 | a pending member is evaluated with the rest of the population left as it was, and on success it is handled: no longer pending unless its nest scored as unevaluated, holding the score of a nest filed for it |
| Nesting.SvgNest.RunBackground | DeepNestLib.Core/SvgNest.cs:512-513 | a chromosome without its part fails; a returned nest carries the member's index |
| Nesting.SvgNest.ProcessPopulation | DeepNestLib.Core/SvgNest.cs:490-519 | the thread count returns to its old value after a completed pass and stays one higher after a failed one (the decrement is skipped); a stopped run changes nothing; outside the pending members of start … end − 1 the population is untouched, and on success those members are all handled |
| Nesting.SvgNest.Pass | DeepNestLib.Core/SvgNest.cs:493-516 | the loop evaluates every pending member of the range in order, leaves the others alone, and does nothing once the run is stopped |
| Nesting.PassStep | DeepNestLib.Core/SvgNest.cs:493-516 | handling one more member extends the handled range by one and leaves the rest untouched |
| Nesting.HandledKept | DeepNestLib.Core/SvgNest.cs:493-516 | a nest filed for a member stays filed as later nests are appended |
| Nesting.HandledFrom | DeepNestLib.Core/SvgNest.cs:493-516 | a nest filed after a point of the log is filed after any earlier point |
| Nesting.HandledSettles | DeepNestLib.Core/SvgNest.cs:493-516 | after a pass over a range, a member there is still pending only if its nest scored as unevaluated |
| Nesting.SettledKept | DeepNestLib.Core/SvgNest.cs:324-337 | settled members stay settled while a later slice leaves them alone and the log only grows |
| Nesting.SettledJoin | DeepNestLib.Core/SvgNest.cs:324-337 | two adjacent settled ranges form one settled range |
| Nesting.Settle | DeepNestLib.Core/SvgNest.cs:324-337 | three slices processed one after another leave the whole population settled |
| Nesting.SettledFrom | DeepNestLib.Core/SvgNest.cs:324-337 | a range settled after a point of the log is settled after any earlier point |
| Nesting.SvgNest.LaunchWorkers | DeepNestLib.Core/SvgNest.cs:274-370 | a stopped run is left as it was; otherwise a finished generation is followed by the next, any failure marks the run as errored, the thread count is unchanged by a successful pass, and after a pass that was not stopped every member is settled |
| Nesting.SvgNest.NextGenerationIfFinished | DeepNestLib.Core/SvgNest.cs:280-283 | the generation count goes up exactly when the current generation was finished, and an unfinished one is left as it was |
| Nesting.SvgNest.RunPass | DeepNestLib.Core/SvgNest.cs:285-369 | a stopped run is left as it was; a failure marks the run as errored; a successful pass that was not stopped settles every member |
| Nesting.SvgNest.ParallelPass | DeepNestLib.Core/SvgNest.cs:324-333 | all three slices run whatever the others do; the pass fails exactly when some slice failed, reporting the first failure; the thread count grows by the number of failed slices (at most three) and is back to its old value only on success; a stopped run changes nothing; a successful pass that was not stopped settles every member |
| Nesting.SliceBounds | DeepNestLib.Core/SvgNest.cs:326-328 | the slice bounds are four positions |
| Nesting.SliceBoundsOrdered | DeepNestLib.Core/SvgNest.cs:326-328 | the slice bounds start at 0, end at n and never go back |
| Nesting.SlicesPartition | DeepNestLib.Core/SvgNest.cs:326-332 | every population index lies in exactly one of the three slices |
| Nesting.SvgNest.InitialiseAnotherGeneration | DeepNestLib.Core/SvgNest.cs:459-472 | an empty new generation stops the run, a non-empty one leaves the stop flag alone, and either way the generation count goes up by one and the population counter is cleared |
| Nesting.SheetClone | DeepNestLib.Core/SvgNest.cs:294-318 | a sheet clone carries the running id, the sheet's own source, as many points and holes as the sheet, and the sheet's coordinates |
| Nesting.SheetCopies | DeepNestLib.Core/SvgNest.cs:292-320 | the copies of one sheet are as many as its quantity, numbered consecutively from the running id |
| Nesting.SvgNest.SheetClones | DeepNestLib.Core/SvgNest.cs:292-320 | the inner loop yields the sheet's and the original sheet's copies, numbered alike |
| Nesting.SvgNest.CloneSheets | DeepNestLib.Core/SvgNest.cs:285-321 | the outer loop yields the clones of every sheet item and of its original, as many as the total quantity |
| Nesting.ClonedSheetsNumbered | DeepNestLib.Core/SvgNest.cs:287-319 | the clones are numbered 0 … total quantity − 1 in order, and a sheet and its original counterpart carry the same number |
| Nesting.MakePairs | DeepNestLib.Core/Background.cs:57 | the pairs handed to the pair map are fresh, one per pair description, with the described parts, rotations and sources and no NFP yet |
| Nesting.GenePartsOf | DeepNestLib.Core/Background.cs:50 | a gene's parts and rotations are read exactly when every chromosome holds its part, in gene order |
| BackgroundRun.FirstWithSource | DeepNestLib.Core/Background.cs:111-112 | the first chromosome whose part has the given source, or none when no part has it |
| BackgroundRun.Contribution | DeepNestLib.Core/Background.cs:130-136 | a hole the part does not fit contributes no inner NFP |
| BackgroundRun.FittingHoles | DeepNestLib.Core/Background.cs:127-131 | the holes kept are among the holes and all fit the part |
| BackgroundRun.OnlyFittingHolesContribute | DeepNestLib.Core/Background.cs:127-138 | dropping the holes the part does not fit in leaves the inner NFPs unchanged |
| BackgroundRun.NoFittingHoleNoInnerNfp | DeepNestLib.Core/Background.cs:127-138 | when the part fits no hole there are no inner NFPs |
| BackgroundRun.FittingHolesAreHoles | DeepNestLib.Core/Background.cs:127-131 | every fitting hole is one of the provider's holes |
| BackgroundRun.RotatedHoles | DeepNestLib.Core/Background.cs:118-121 | the holes are the provider's holes, each turned by the pair's first rotation |
| BackgroundRun.IteratedNfp | DeepNestLib.Core/Background.cs:107-141 | a missing hole provider is a failure; the pair's outline is kept, and an NFP whose provider has no holes is unchanged |
| BackgroundRun.WindowKey | DeepNestLib.Core/Background.cs:143 | the window key names the pair's two sources and rotations and holds the pair's NFP |
| BackgroundRun.KeysForExtend | DeepNestLib.Core/Background.cs:153 | a key for the next pair extends a key list that matches the pairs |
| BackgroundRun.Background.constructor | DeepNestLib.Core/Background.cs:33-42 | a new evaluation holds the given state, caches and engine and an empty window cache |
| BackgroundRun.Background.ThenIterate | DeepNestLib.Core/Background.cs:107-154 | the pair's NFP becomes IteratedNfp of the old one, and on success one key for the pair is appended to the window cache |
| BackgroundRun.Background.InnerNfpsOf | DeepNestLib.Core/Background.cs:127-138 | the hole loop yields InnerNfps of the holes |
| BackgroundRun.Background.SyncPlaceParts | DeepNestLib.Core/Background.cs:90-105 | a gene with repeated part Ids is refused; no sheets means no nest; a nest passed on carries the individual's index and counts every part of the gene |
| BackgroundRun.Background.ThenDeepNest | DeepNestLib.Core/Background.cs:156-187 | each pair adds one key, in pair order, to the window cache, and the placed nest carries the index and counts every part of the gene |
| BackgroundRun.Background.BackgroundStart | DeepNestLib.Core/Background.cs:44-88 | with no pairs the gene is placed at once and the window cache is left alone; otherwise the pair map records its cache percentage and one key per pair is added; the NFP cache only grows |
| PairMap.NfpPairDictionary.constructor | DeepNestLib.Core/PairMap/NfpPairDictionary.cs:14-17 | a new pair cache is empty and has counted no hit and no miss |
| PairMap.NfpPairDictionary.PercentCached | DeepNestLib.Core/PairMap/NfpPairDictionary.cs:12 | the hit share is NaN before the first lookup, and otherwise the number of hits over the number of lookups, between 0 and 1, 1 exactly when there was no miss and 0 exactly when there was no hit |
| PairMap.RatioInUnit | DeepNestLib.Core/PairMap/NfpPairDictionary.cs:12 | a count over a larger positive count lies between 0 and 1, reaching the ends only at the ends |
| PairMap.NfpPairDictionary.TryGetValue | DeepNestLib.Core/PairMap/NfpPairDictionary.cs:19-32 | a lookup is a hit exactly when the key is present, gives the stored polygon, and counts as exactly one hit or one miss |
| PairMap.NfpPairDictionary.Add | DeepNestLib.Core/PairMap/NfpPairDictionary.cs:34-37 | a new key is stored with its polygon; adding a key already present fails and changes nothing |
| PairMap.AddThenLookup | DeepNestLib.Core/PairMap/NfpPairDictionary.cs:19-37 | a key just added is then found, with its polygon, as one more hit |
| PairMap.KeyOfPair | DeepNestLib.Core/PairMap/PmapWorker.cs:71-79 | the cache key holds both outlines turned by their rotations, the rotations, the sources and the largest-area pick |
| PairMap.KeyIgnoresHoles | DeepNestLib.Core/PairMap/PmapWorker.cs:71-72 | the holes of the two parts do not enter the key |
| PairMap.PmapWorker.constructor | DeepNestLib.Core/PairMap/PmapWorker.cs:22-29 | a new worker holds the given pairs, cache, service and state and has asked the service nothing |
| PairMap.PmapWorker.Process | DeepNestLib.Core/PairMap/PmapWorker.cs:69-103 | a cached pair takes the cached NFP without asking the service; otherwise the service's outer NFP is stored under the pair's key; the pair gives up its polygons and keeps the NFP; the cache only grows and counts one lookup |
| PairMap.PmapWorker.PmapDeepNest | DeepNestLib.Core/PairMap/PmapWorker.cs:31-67 | the result has one entry per pair, entry i being pair i processed; one lookup is counted per pair; the cache's hit share is published to the nest state; nothing already cached is lost |
| PairMap.SecondPairIsCached | DeepNestLib.Core/PairMap/PmapWorker.cs:77-88 | two pairs with the same polygons, rotations and sources ask the Minkowski service at most once |
| Minkowski.PathPolygon | DeepNestLib.Core/Placement/MinkowskiSum.cs:255 | an engine path becomes a plain polygon with exactly those points and no holes |
| Minkowski.Translated | DeepNestLib.Core/Placement/MinkowskiSum.cs:266-270 | every point is moved by the offset, its other fields kept |
| Minkowski.Mirrored | DeepNestLib.Core/Placement/MinkowskiSum.cs:339-345 | every point is mirrored through the origin and moved by the offset |
| Minkowski.TranslatedBack | DeepNestLib.Core/Placement/MinkowskiSum.cs:266-270 | moving by an offset and back restores the points |
| Minkowski.MirroredTwice | DeepNestLib.Core/Placement/MinkowskiSum.cs:339-345 | mirroring twice about the same point is a pure translation |
| Minkowski.Selected | DeepNestLib.Core/Placement/MinkowskiSum.cs:252-264 | the selection loop ends with no index exactly when there is no candidate, and otherwise with an index into the candidates |
| Minkowski.SelectedLargest | DeepNestLib.Core/Placement/MinkowskiSum.cs:252-264 | the Largest pick is the first candidate of maximal area |
| Minkowski.SelectedSmallest | DeepNestLib.Core/Placement/MinkowskiSum.cs:252-264 | the Smallest pick keeps the first candidate unless a positive area is smaller, and is then the first of the smallest positive areas |
| Minkowski.OuterAreas | DeepNestLib.Core/Placement/MinkowskiSum.cs:256 | the areas compared for the outer NFP are the negated signed areas |
| Minkowski.TreeAreas | DeepNestLib.Core/Placement/MinkowskiSum.cs:316 | the areas compared for the tree NFP are the absolute areas |
| Minkowski.OuterNfp | DeepNestLib.Core/Placement/MinkowskiSum.cs:243-274 | no candidate is a failure (a null selection); otherwise the picked path moved by the path's first vertex |
| Minkowski.OuterNfpOfNothing | DeepNestLib.Core/Placement/MinkowskiSum.cs:250-266 | an empty Minkowski sum has no outer NFP whatever the pick |
| Minkowski.ClosedOuterNfp | DeepNestLib.Core/Placement/MinkowskiSum.cs:236-241 | the public outer NFP is closed and fails when the private one fails |
| Minkowski.TreeNfp | DeepNestLib.Core/Placement/MinkowskiSum.cs:308-362 | an empty Minkowski sum is a failure |
| Minkowski.TreeNfpShape | DeepNestLib.Core/Placement/MinkowskiSum.cs:308-362 | the tree NFP's outline is the first path of largest absolute area, with one hole per other path unless only the biggest is wanted, all mirrored and moved by the pattern's first vertex |
| Minkowski.Others | DeepNestLib.Core/Placement/MinkowskiSum.cs:327-336 | the holes are all paths but the outline's, in order |
| Minkowski.MinkowskiSum.HolesOf | DeepNestLib.Core/Placement/MinkowskiSum.cs:325-337 | the hole loop collects every path but the outline, in order |
| Minkowski.HolePolygons | DeepNestLib.Core/Placement/MinkowskiSum.cs:347-359 | each hole is mirrored and moved like the outline |
| Minkowski.Coords | DeepNestLib.Core/Placement/MinkowskiSum.cs:66-79 | the flat coordinate list has two entries per point |
| Minkowski.KeyOf | DeepNestLib.Core/Placement/MinkowskiSum.cs:62-96 | the native key holds twice the point counts of path and pattern, the number of holes and twice each hole's point count |
| Minkowski.SameInputSameKey | DeepNestLib.Core/Placement/MinkowskiSum.cs:62-96 | the same coordinates, holes and pattern give the same key |
| Minkowski.MinkowskiSum.constructor | DeepNestLib.Core/Placement/MinkowskiSum.cs:28-32 | a new service has an empty cache and the given caching flag and state |
| Minkowski.MinkowskiSum.OuterNfpOf | DeepNestLib.Core/Placement/MinkowskiSum.cs:243-274 | the selection loop gives OuterNfp of the engine's sum |
| Minkowski.MinkowskiSum.ClipperExecuteOuterNfp | DeepNestLib.Core/Placement/MinkowskiSum.cs:236-241 | the public call gives ClosedOuterNfp |
| Minkowski.MinkowskiSum.NewMinkowskiSum | DeepNestLib.Core/Placement/MinkowskiSum.cs:284-364 | the call is counted; the hole-less variant is refused as not implemented; otherwise the closed tree NFP as a one-element array |
| Minkowski.MinkowskiSum.LargestIndex | DeepNestLib.Core/Placement/MinkowskiSum.cs:310-323 | the loop yields -1 exactly for an empty sum, and otherwise the Largest selection over the absolute areas |
| Minkowski.MinkowskiSum.TreeOf | DeepNestLib.Core/Placement/MinkowskiSum.cs:308-359 | the selection, hole and mirroring steps give TreeNfp |
| Minkowski.MinkowskiSum.DllImportExecute | DeepNestLib.Core/Placement/MinkowskiSum.cs:60-234 | a cached key gives a copy of the cached polygon without calling the library; otherwise the library is called once and counted and, when caching is on, the returned polygon is cached after cleaning (the cache shares the object cleaned in place); one polygon is returned, cleaned when asked |
| Minkowski.CachedSecondCall | DeepNestLib.Core/Placement/MinkowskiSum.cs:98-224 | with caching on and an empty cache, asking twice for the same path and pattern calls the library exactly once |
| Simplification.SqDist | DeepNestLib.Core/Simplify.cs:11-17 | the squared distance is never negative |
| Simplification.SqDistFacts | DeepNestLib.Core/Simplify.cs:11-17 | the squared distance is symmetric, zero for points at the same place and positive otherwise |
| Simplification.SegSqDist | DeepNestLib.Core/Simplify.cs:20-47 | the distance to a segment of no length is the distance to its start; beyond the end it is the distance to the end, before the start the distance to the start |
| Simplification.SegSqDistNearest | DeepNestLib.Core/Simplify.cs:20-47 | the distance to a segment is no more than the distance to either end |
| Simplification.SegMiddle | DeepNestLib.Core/Simplify.cs:36-40 | between the ends the distance is measured to the projection of the point on the segment |
| Simplification.AlongNearest | DeepNestLib.Core/Simplify.cs:29-40 | the projection is the nearest point of the line when it falls inside the segment, and otherwise the end on its side is nearer |
| Simplification.RadialKeptSelection | DeepNestLib.Core/Simplify.cs:52-69 | the radial pass keeps the first point and then positions in increasing order |
| Simplification.RadialPointsPicked | DeepNestLib.Core/Simplify.cs:52-69 | the points kept are the input points at the positions kept |
| Simplification.RadialIndices | DeepNestLib.Core/Simplify.cs:52-74 | the radial positions end at the last point and all lie inside the input |
| Simplification.RadialResultPicked | DeepNestLib.Core/Simplify.cs:52-76 | the radial result is the input at increasing positions starting at the first point |
| Simplification.RadialPrefix | DeepNestLib.Core/Simplify.cs:60-69 | later points never change what was kept among earlier ones |
| Simplification.RadialKeeps | DeepNestLib.Core/Simplify.cs:64 | an inner point is kept exactly when it is marked or farther than the tolerance from the last point kept before it |
| Simplification.KeptInside | DeepNestLib.Core/Simplify.cs:64-68 | an inner point the rule keeps is returned |
| Simplification.KeptDropped | DeepNestLib.Core/Simplify.cs:64-74 | an inner point the rule drops is not returned |
| Simplification.RadialKeepsMarked | DeepNestLib.Core/Simplify.cs:64 | every marked point survives the radial pass |
| Simplification.SimplifyRadialDist | DeepNestLib.Core/Simplify.cs:52-77 | the loop returns the radial result: the input at the radial positions |
| Simplification.FarthestFrom | DeepNestLib.Core/Simplify.cs:84-98 | the scan's best is either nothing beyond the tolerance or an inner point beyond it |
| Simplification.FarthestIsFarthest | DeepNestLib.Core/Simplify.cs:81-98 | the scan finds nothing when no inner point lies beyond the tolerance, and otherwise the first of the farthest inner points, which lies beyond it |
| Simplification.FarthestFromScanned | DeepNestLib.Core/Simplify.cs:84-98 | the scan's final state holds for the whole segment |
| Simplification.DPIndicesInside | DeepNestLib.Core/Simplify.cs:104-116 | the recursive step pushes positions strictly inside the segment, in increasing order |
| Simplification.DPPointsPicked | DeepNestLib.Core/Simplify.cs:104-116 | the points pushed are the input points at the positions pushed |
| Simplification.DPKeepsFarthest | DeepNestLib.Core/Simplify.cs:104-116 | when no inner point lies beyond the tolerance nothing is pushed, and otherwise the farthest point is pushed |
| Simplification.SimplifyDPStep | DeepNestLib.Core/Simplify.cs:79-117 | the recursion appends to what was simplified so far exactly the points of DPPoints |
| Simplification.SimplifyDouglasPeucker | DeepNestLib.Core/Simplify.cs:125-135 | an empty input fails on its missing first point; otherwise the first point, the pushed points and the last point |
| Simplification.DouglasPeuckerSelection | DeepNestLib.Core/Simplify.cs:125-135 | the Douglas–Peucker positions start at the first point, end at the last and only go up |
| Simplification.DouglasPeuckerPicked | DeepNestLib.Core/Simplify.cs:125-135 | the Douglas–Peucker result is the input at those positions |
| Simplification.SqToleranceOf | DeepNestLib.Core/Simplify.cs:150 | the squared tolerance is the tolerance squared, or 1 without a tolerance |
| Simplification.RadialSelectsEnds | DeepNestLib.Core/Simplify.cs:52-77 | the radial pass picks points of its input in order and keeps both ends |
| Simplification.DouglasPeuckerSelectsEnds | DeepNestLib.Core/Simplify.cs:125-135 | the Douglas–Peucker pass picks points of its input in order and keeps both ends |
| Simplification.SelectsEndsCompose | DeepNestLib.Core/Simplify.cs:152-160 | an ordered pick with both ends of an ordered pick with both ends is one of the original |
| Simplification.SimplifiedPolygonSelects | DeepNestLib.Core/Simplify.cs:145-170 | the simplified polygon is always an in-order pick of the input |
| Simplification.SimplifiedPolygonKeepsEnds | DeepNestLib.Core/Simplify.cs:148-160 | on more than two points the result keeps both ends and has between two and the input's number of points |
| Simplification.LongPolygonSelectsEnds | DeepNestLib.Core/Simplify.cs:148-160 | on more than two points both passes together pick from the input in order and keep both ends |
| Simplification.SimplifyPolygon | DeepNestLib.Core/Simplify.cs:145-170 | up to two points are returned unchanged; longer inputs go through each pass that is asked for, radial first |
| Initialization.SetIds | DeepNestLib.Core/SvgNestInitializer.cs:163-182 | SetPolygonIds and SetSheetIds give the element at position i the Id i and change nothing else |
| Initialization.Numbered | DeepNestLib.Core/SvgNestInitializer.cs:163-182 | after numbering every element's Id is its position, the rest of it unchanged |
| Initialization.ClonePolygons | DeepNestLib.Core/SvgNestInitializer.cs:148-158 | the clone list has the same length and order, each entry the polygon's exact clone |
| Initialization.ClonedExact | DeepNestLib.Core/SvgNestInitializer.cs:148-158 | the cloned parts are the exact clones of the parts, in order |
| Initialization.CloneHole | DeepNestLib.Core/SvgNestInitializer.cs:130-134 | a rebuilt hole keeps only its Id, Source and points with their Exact flags |
| Initialization.CloneSheet | DeepNestLib.Core/SvgNestInitializer.cs:122-136 | a sheet clone is a fresh plain sheet with the sheet's Id, Source, coordinates and Exact flags, and each hole rebuilt |
| Initialization.CloneSheetIdempotent | DeepNestLib.Core/SvgNestInitializer.cs:122-136 | cloning a sheet clone gives the same sheet again |
| Initialization.CloneSheets | DeepNestLib.Core/SvgNestInitializer.cs:117-142 | the clone list has the same length and order, each entry the sheet's clone |
| Initialization.ClonedSheets | DeepNestLib.Core/SvgNestInitializer.cs:117-142 | the cloned sheets are the clones of the sheets, in order |
| Initialization.SourceKeys | DeepNestLib.Core/SvgNestInitializer.cs:72 | every group key is the Source of some polygon |
| Initialization.SourceKeysExact | DeepNestLib.Core/SvgNestInitializer.cs:72 | the group keys are distinct and every polygon's Source is one of them |
| Initialization.SourceKeysOrdered | DeepNestLib.Core/SvgNestInitializer.cs:72 | the groups come in the order of their first members |
| Initialization.CountSource | DeepNestLib.Core/SvgNestInitializer.cs:75 | a group's size is at most the number of polygons, and zero exactly when no polygon has that Source |
| Initialization.FirstWithSource | DeepNestLib.Core/SvgNestInitializer.cs:74 | a group's first member is the earliest polygon with its Source |
| Initialization.GroupToNestItemList | DeepNestLib.Core/SvgNestInitializer.cs:58-79 | one nest item per distinct Source, in order of first appearance, holding the group's first member and the group's size |
| Initialization.GroupsDistinct | DeepNestLib.Core/SvgNestInitializer.cs:58-79 | the items' Sources are distinct and each quantity is at least one |
| Initialization.GroupsCover | DeepNestLib.Core/SvgNestInitializer.cs:58-79 | every polygon's Source has an item |
| Initialization.QuantitiesSumToCount | DeepNestLib.Core/SvgNestInitializer.cs:58-79 | the group sizes add up to the number of polygons |
| Initialization.GroupedQuantitiesSum | DeepNestLib.Core/SvgNestInitializer.cs:58-79 | grouping neither loses nor invents a polygon: the quantities add up to the input count |
| Initialization.Renumbered | DeepNestLib.Core/SvgNestInitializer.cs:42-55 | the items get Sources start, start + 1, … in list order and nothing else changes |
| Initialization.SetIncrementingSource | DeepNestLib.Core/SvgNestInitializer.cs:39-56 | one counter runs through the parts from 0, then the sheets, then the original sheets |
| Initialization.IncrementingSourcesConsecutive | DeepNestLib.Core/SvgNestInitializer.cs:39-56 | after renumbering the Sources across the three lists are exactly 0 … n − 1 in order, hence distinct |
| Initialization.BuildNestItems | DeepNestLib.Core/SvgNestInitializer.cs:9-32 | the caller's parts and sheets are numbered, and the run's items are the grouped clones with one incrementing Source across parts, sheets and original sheets |
| Initialization.GroupedPartsCarryIds | DeepNestLib.Core/SvgNestInitializer.cs:14-26 | since Ids are given before cloning and grouping, each part item carries as Id a position in the caller's list whose part has the item's Source, and these Ids increase along the items |
| Context.SheetWidths | DeepNestLib.Core/NestingContext.cs:171-181 | one width per sheet, in order |
| Context.LayoutDisjoint | DeepNestLib.Core/NestingContext.cs:164-182 | with non-negative widths each sheet ends at least one gap before any later sheet starts |
| Context.SheetsDisjoint | DeepNestLib.Core/NestingContext.cs:162-183 | the laid-out sheets start at 0 and never overlap: each ends at least 10 before any later sheet starts |
| Context.SheetWidthsIgnorePosition | DeepNestLib.Core/NestingContext.cs:162-183 | the layout depends only on the outlines, so laying out again moves nothing |
| Context.Relocated | DeepNestLib.Core/NestingContext.cs:167-170 | the first n sheets are at their layout positions with Y = 0, the others untouched |
| Context.RelocateNext | DeepNestLib.Core/NestingContext.cs:167-181 | one loop turn moves the next sheet to the running X and advances X by its width plus the gap |
| Context.WidthIgnoresPosition | DeepNestLib.Core/NestingContext.cs:173 | moving a sheet does not change its width |
| Context.MaxSource | DeepNestLib.Core/NestingContext.cs:213 | the largest Source is at least every Source and is one of them |
| Context.NextSource | DeepNestLib.Core/NestingContext.cs:209-227 | 0 for an empty list, otherwise above every Source and one more than some Source |
| Context.NextSourceAfterAdd | DeepNestLib.Core/NestingContext.cs:209-217 | adding a polygon that takes the next Source moves the next Source on by exactly one |
| Context.RectanglePart | DeepNestLib.Core/NestingContext.cs:229-241 | the new part is a fresh polygon with the given Source and the corners (0,0), (w,0), (w,h), (0,h) in that order |
| Context.RectanglePartExtent | DeepNestLib.Core/NestingContext.cs:229-241 | a rectangle part with non-negative sides is exactly w wide and h high |
| Context.FindById | DeepNestLib.Core/NestingContext.cs:141-145 | the lookup gives the first polygon with that Id, or nothing when none has it |
| Context.FindByIdSameIds | DeepNestLib.Core/NestingContext.cs:141-145 | the lookup depends only on the Ids |
| Context.Applied | DeepNestLib.Core/NestingContext.cs:147-150 | a placed part takes the sheet, the placement's position offset by the sheet's, and its index on the sheet; nothing else changes |
| Context.Cleared | DeepNestLib.Core/NestingContext.cs:126-129 | every part has its Sheet cleared and nothing else changed |
| Context.MoveUnplaced | DeepNestLib.Core/NestingContext.cs:154-159 | the parts no placement reached are at (−1000, 0), the others unchanged |
| Context.PlaceConsistent | DeepNestLib.Core/NestingContext.cs:143-151 | placing one part keeps the write-back consistent: placed exactly when it has a step, with its last step applied |
| Context.PlacePartsConsistent | DeepNestLib.Core/NestingContext.cs:143-151 | the inner loop keeps the write-back consistent |
| Context.PlaceSheetsConsistent | DeepNestLib.Core/NestingContext.cs:133-152 | the outer loop keeps the write-back consistent |
| Context.AssignedParts | DeepNestLib.Core/NestingContext.cs:121-160 | after a complete write-back every part is its old self with Sheet cleared and, if a placement named it, the sheet, offset position and index of its last placement; every other part is at (−1000, 0) with no sheet |
| Context.ConsistentIds | DeepNestLib.Core/NestingContext.cs:143-151 | the write-back never changes a part's Id |
| Context.WriteBackDoneIff | DeepNestLib.Core/NestingContext.cs:141-145 | the write-back completes exactly when every used sheet's Id is among the sheets and every placed Id among the parts; otherwise a lookup throws |
| Context.PartsDoneIff | DeepNestLib.Core/NestingContext.cs:143-151 | a sheet's part placements are written back completely exactly when every one names a part |
| Context.SheetsDoneIff | DeepNestLib.Core/NestingContext.cs:133-152 | the used sheets are written back completely exactly when every one names a sheet and its placements name parts |
| Context.PlacePartsIds | DeepNestLib.Core/NestingContext.cs:143-151 | writing back a sheet's parts keeps the Ids position by position |
| Context.PlaceSheetsIds | DeepNestLib.Core/NestingContext.cs:133-152 | writing back the used sheets keeps the Ids position by position |
| Context.PartsStuckStays | DeepNestLib.Core/NestingContext.cs:145 | once a part lookup has thrown, later placements change nothing |
| Context.SheetsStuckStays | DeepNestLib.Core/NestingContext.cs:141 | once a lookup has thrown, later sheets change nothing |
| Context.IeeeLessStrict | DeepNestLib.Core/NestingContext.cs:98 | the fitness comparison is a strict order that is false whenever a NaN takes part, and the real order on numbers |
| Context.NestingContext.constructor | DeepNestLib.Core/NestingContext.cs:22-45 | a new context has no parts, no sheets, no nest shown, no nest and is not stopped |
| Context.NestingContext.ReorderSheets | DeepNestLib.Core/NestingContext.cs:162-183 | sheet i moves to X = the sum of the widths before it, each plus the gap of 10, and Y = 0 |
| Context.NestingContext.GetNextSource | DeepNestLib.Core/NestingContext.cs:209-217 | one past the largest part Source, or 0 without parts |
| Context.NestingContext.GetNextSheetSource | DeepNestLib.Core/NestingContext.cs:219-227 | one past the largest sheet Source, or 0 without sheets |
| Context.NestingContext.AddRectanglePart | DeepNestLib.Core/NestingContext.cs:229-241 | exactly one rectangle part joins the parts, at the end |
| Context.NestingContext.AssignPlacement | DeepNestLib.Core/NestingContext.cs:121-160 | the nest becomes the one shown; the parts become Assigned of the old parts, and the call succeeds exactly when the write-back completes |
| Context.NestingContext.PlaceUsedSheets | DeepNestLib.Core/NestingContext.cs:133-152 | the outer loop yields what PlaceSheets describes, complete or stuck |
| Context.NestingContext.PlaceUsedSheet | DeepNestLib.Core/NestingContext.cs:135-151 | one used sheet is looked up and its parts written back, as one more step of PlaceSheets |
| Context.NestingContext.ClearSheets | DeepNestLib.Core/NestingContext.cs:126-129 | no part is on a sheet afterwards |
| Context.NestingContext.PlaceSheetParts | DeepNestLib.Core/NestingContext.cs:143-151 | the inner loop yields what PlaceParts describes, complete or stuck |
| Context.NestingContext.PlacePart | DeepNestLib.Core/NestingContext.cs:145-150 | the named part takes its sheet, position and order, as one more step of PlaceParts |
| Context.NestingContext.MoveUnplacedParts | DeepNestLib.Core/NestingContext.cs:154-159 | the unplaced parts go to (−1000, 0) |
| Context.NestingContext.InternalReset | DeepNestLib.Core/NestingContext.cs:309-314 | no nest is shown, the top results are empty and the counters and times are cleared |
| Context.NestingContext.Reset | DeepNestLib.Core/NestingContext.cs:298-304 | no parts, no sheets, and everything InternalReset clears |
| Context.NestingContext.StopNest | DeepNestLib.Core/NestingContext.cs:316-321 | the context is stopped, and so is its nest if it has one |
| Context.NestingContext.Launch | DeepNestLib.Core/NestingContext.cs:82-92 | a stopped context does nothing; a missing nest fails; a stopped nest stops the context |
| Context.NestingContext.NestIterate | DeepNestLib.Core/NestingContext.cs:78-119 | a stopped nest stops the context; a missing nest is an error; the best top result replaces the nest shown exactly when there is none or the top is strictly fitter; the iteration is counted on success, and any error raises the error flag without counting |
| Context.NestingContext.Count | DeepNestLib.Core/NestingContext.cs:105-113 | a completed iteration is counted; an error raises the error flag instead |
| Context.ImprovesStrictly | DeepNestLib.Core/NestingContext.cs:94-101 | the nest shown only gets strictly fitter, a NaN shown is never replaced, and any top result replaces an empty display |
| Execution.Times | DeepNestLib.Core/NestExecutionHelper.cs:77 | a counting loop runs q times for non-negative q and not at all otherwise |
| Execution.LoadedPart | DeepNestLib.Core/NestExecutionHelper.cs:74-75 | the copied part takes the entry's priority and angle setting and nothing else changes |
| Execution.PartsOf | DeepNestLib.Core/NestExecutionHelper.cs:69-86 | a failed conversion adds nothing; otherwise quantity × multiplier (or × 1) clones of the converted detail, each with the given Source and the entry's priority and angle setting |
| Execution.Included | DeepNestLib.Core/NestExecutionHelper.cs:50 | only entries marked as included, in order |
| Execution.IncludedIdempotent | DeepNestLib.Core/NestExecutionHelper.cs:50 | filtering twice is filtering once |
| Execution.IncludedOfAllIncluded | DeepNestLib.Core/NestExecutionHelper.cs:50 | a list of included entries passes the filter unchanged |
| Execution.LoadPartsIncludedOnly | DeepNestLib.Core/NestExecutionHelper.cs:50-58 | entries that are not included play no part in the loading |
| Execution.LoadPartsSources | DeepNestLib.Core/NestExecutionHelper.cs:49-58 | the loaded parts are numbered by included entry: every Source lies in 0 … included entries − 1 and Sources never decrease along the list |
| Execution.LoadPartsStuck | DeepNestLib.Core/NestExecutionHelper.cs:50-58 | once a part entry throws, later entries change nothing |
| Execution.LoadPartsNext | DeepNestLib.Core/NestExecutionHelper.cs:50-58 | one more entry adds its parts with the next Source when it is included and loads, throws when it is included and does not load, and is skipped otherwise |
| Execution.RectangleSheetValue | DeepNestLib.Core/Sheet.cs:34-40 | a rectangle sheet is named rectSheet plus its number and has the w-by-h outline from the origin |
| Execution.ArbitrarySheetValue | DeepNestLib.Core/Sheet.cs:42-49 | an arbitrary sheet is named arbSheet plus its number and has the built outline |
| Execution.RectangleSheets | DeepNestLib.Core/NestExecutionHelper.cs:39-44 | Quantity rectangle sheets, numbered on from the sheets already there, all with the entry's Source |
| Execution.ArbitrarySheets | DeepNestLib.Core/NestExecutionHelper.cs:25-30 | Quantity sheets with the loaded outline, numbered on from the sheets already there, all with the entry's Source |
| Execution.EntrySheets | DeepNestLib.Core/NestExecutionHelper.cs:18-45 | a rectangle entry always adds exactly Quantity rectangle sheets; an arbitrary entry adds at most Quantity arbitrary sheets; all take the entry's Source |
| Execution.RectangleEntry | DeepNestLib.Core/NestExecutionHelper.cs:39-44 | a rectangle entry's sheets are named after their 1-based positions and have the entry's size |
| Execution.LoadSheetsSources | DeepNestLib.Core/NestExecutionHelper.cs:16-46 | sheet Sources never decrease along the loaded sheets, and each entry's sheets have a Source above every sheet before them |
| Execution.EntrySourceFresh | DeepNestLib.Core/NestExecutionHelper.cs:18 | each entry's sheets share one Source that no earlier sheet has |
| Execution.LoadSheetsStuck | DeepNestLib.Core/NestExecutionHelper.cs:16-46 | once a sheet entry throws, later entries change nothing |
| Execution.AddToPolygons | DeepNestLib.Core/NestExecutionHelper.cs:69-86 | the clones go to the end of the parts on a successful conversion; otherwise nothing changes |
| Execution.AddToPolygonsWith | DeepNestLib.Core/NestExecutionHelper.cs:63-67 | the other overload behaves as AddToPolygons on the entry made from its arguments |
| Execution.AddEntrySheets | DeepNestLib.Core/NestExecutionHelper.cs:18-45 | one sheet entry appends EntrySheets with the next free sheet Source, and fails exactly where that throws |
| Execution.AddRectangleSheets | DeepNestLib.Core/NestExecutionHelper.cs:39-44 | the rectangle branch appends the RectangleSheets |
| Execution.AddArbitrarySheets | DeepNestLib.Core/NestExecutionHelper.cs:25-30 | the arbitrary branch appends the ArbitrarySheets built from the outline shifted to the origin |
| Execution.AddAllSheets | DeepNestLib.Core/NestExecutionHelper.cs:16-46 | the sheet loop leaves the sheets LoadSheets describes and fails exactly where LoadSheets stops |
| Execution.AddAllParts | DeepNestLib.Core/NestExecutionHelper.cs:49-58 | the part loop leaves the parts LoadParts describes and fails exactly where LoadParts stops |
| Execution.InitialiseNest | DeepNestLib.Core/NestExecutionHelper.cs:11-61 | the context is reset; the call succeeds exactly when sheets and parts all load; loaded sheets are laid out side by side and followed by the included parts; a sheet failure leaves no parts |
| DxfMerging.DecimalDifference | DeepNestLib.Core/IO/DxfLineMerger.cs:67-68 | a decimal difference is exact unless it rounds beyond decimal.MaxValue, where it throws |
| DxfMerging.BelowTolerance | DeepNestLib.Core/IO/DxfLineMerger.cs:67-68 | a difference is compared with the tolerance 0.0001, or throws when the difference overflows |
| DxfMerging.CoalignedAsWrittenThrows | DeepNestLib.Core/IO/DxfLineMerger.cs:65-69 | the written Coaligned throws exactly when a vertical line follows a line falling by at least half a unit per unit |
| DxfMerging.CoalignedAsWrittenAgrees | DeepNestLib.Core/IO/DxfLineMerger.cs:65-69 | wherever the written Coaligned does not throw, and except for a non-vertical line after a vertical one, it agrees with Coaligned |
| DxfMerging.FallingThenVerticalThrows | DeepNestLib.Core/IO/DxfLineMerger.cs:65-69 | the falling line from (0, 1) to (1, 0) followed by a vertical line makes the written Coaligned throw, while the two are not on one line |
| DxfMerging.Coincident | DeepNestLib.Core/IO/DxfLineMerger.cs:37-54 | with the corrected Coaligned, which never throws (see Findings): coincident lines are coaligned and both vertical or both not; vertical lines are coincident exactly when their Y spans overlap, other lines exactly when the second starts within the first's X span |
| DxfMerging.GetCombined | DeepNestLib.Core/IO/DxfLineMerger.cs:13-35 | combining succeeds exactly for coincident lines and otherwise throws |
| DxfMerging.CombinedVertical | DeepNestLib.Core/IO/DxfLineMerger.cs:20-28 | two vertical lines combine into one at the X of the first's lower end, from the lowest to the highest of the four ends |
| DxfMerging.CombinedSloped | DeepNestLib.Core/IO/DxfLineMerger.cs:29-34 | two other lines combine into one from the first's left end to the further right end's X, on the second's line, spanning both in X |
| DxfMerging.Combined | DeepNestLib.Core/IO/DxfLineMerger.cs:13-35 | the combination of coincident lines is what GetCombined gives |
| DxfMerging.KeyOf | DeepNestLib.Core/IO/DxfLineMerger.cs:139-143 | lines sort by slope, intercept, the lower end's Y (vertical) or X, then the lower end's Y |
| DxfMerging.InsertByKey | DeepNestLib.Core/IO/DxfLineMerger.cs:139-143 | inserting keeps every line and adds one |
| DxfMerging.InsertByKeySorted | DeepNestLib.Core/IO/DxfLineMerger.cs:139-143 | inserting into a sorted list keeps it sorted |
| DxfMerging.InsertByKeyTies | DeepNestLib.Core/IO/DxfLineMerger.cs:140-143 | an inserted line goes in front of all the lines with its own key, and the other lines with that key keep their order |
| DxfMerging.SortLines | DeepNestLib.Core/IO/DxfLineMerger.cs:139-143 | the sorted lines are a permutation of the lines, sorted by the key |
| DxfMerging.SortLinesStable | DeepNestLib.Core/IO/DxfLineMerger.cs:140-143 | the sort is stable, as LINQ's OrderBy … ThenBy is: for every key, the lines with that key come out in the order they went in |
| DxfMerging.Merged | DeepNestLib.Core/IO/DxfLineMerger.cs:144-168 | the walk never adds a line and leaves at least one of a non-empty list |
| DxfMerging.MergedNext | DeepNestLib.Core/IO/DxfLineMerger.cs:146-167 | each sorted line merges into the last line kept, replacing it by their combination, or is kept after it |
| DxfMerging.MergeLinesOf | DeepNestLib.Core/IO/DxfLineMerger.cs:126-171 | with the corrected Coaligned (see Findings): at most one line is returned as it is; more lines give at most as many, and at least one |
| DxfMerging.MergeTurn | DeepNestLib.Core/IO/DxfLineMerger.cs:148-166 | one turn of the loop either removes the next line into the previous one or moves on, and the list left to walk shrinks |
| DxfMerging.Walk | DeepNestLib.Core/IO/DxfLineMerger.cs:144-170 | the in-place loop with its step back gives the Merged lines |
| DxfMerging.MergeLineList | DeepNestLib.Core/IO/DxfLineMerger.cs:126-171 | MergeLines over lines gives MergeLinesOf |
| DxfMerging.Chain | DeepNestLib.Core/IO/DxfLineMerger.cs:178-191 | one segment from each vertex to the next |
| DxfMerging.Split | DeepNestLib.Core/IO/DxfLineMerger.cs:173-197 | a segment from each vertex to the next and, for a closed polyline, one from the last vertex back to the first; a closed polyline without vertices fails |
| DxfMerging.AsEntities | DeepNestLib.Core/IO/DxfLineMerger.cs:115-118 | lines pass as line entities, in order |
| DxfMerging.SplitLines | DeepNestLib.Core/IO/DxfLineMerger.cs:104-124 | after splitting there is no polyline left |
| DxfMerging.SplitLinesFails | DeepNestLib.Core/IO/DxfLineMerger.cs:104-124 | splitting fails exactly where a closed polyline has no vertices |
| DxfMerging.SplitLinesKeepsOthers | DeepNestLib.Core/IO/DxfLineMerger.cs:119-122 | entities that are neither lines nor polylines pass through in order |
| DxfMerging.SplitLinesIdentity | DeepNestLib.Core/IO/DxfLineMerger.cs:104-124 | a list without polylines passes unchanged |
| DxfMerging.OthersAppend | DeepNestLib.Core/IO/DxfLineMerger.cs:98 | the other entities of two lists are those of each, in order |
| DxfMerging.LinesOf | DeepNestLib.Core/IO/DxfLineMerger.cs:98-99 | the lines and the other entities together account for every entity |
| DxfMerging.DoMergeOf | DeepNestLib.Core/IO/DxfLineMerger.cs:94-102 | with the corrected Coaligned (see Findings): a pass fails exactly where splitting fails, leaves no polyline and has no more entities than the split list |
| DxfMerging.DoMergeKeepsOthers | DeepNestLib.Core/IO/DxfLineMerger.cs:94-102 | a pass keeps the other entities in order |
| DxfMerging.DoMergeShrinks | DeepNestLib.Core/IO/DxfLineMerger.cs:94-102 | a pass over entities without polylines never adds an entity |
| DxfMerging.DoMergeLines | DeepNestLib.Core/IO/DxfLineMerger.cs:94-102 | the method builds the list DoMergeOf describes |
| DxfMerging.Settle | DeepNestLib.Core/IO/DxfLineMerger.cs:85-91 | later passes leave no polyline, never add an entity and keep the other entities |
| DxfMerging.MergeEntitiesOf | DeepNestLib.Core/IO/DxfLineMerger.cs:82-92 | with the corrected Coaligned (see Findings): merging fails exactly where splitting fails, and otherwise leaves no polyline and no more entities than the split list |
| DxfMerging.MergeEntitiesKeepsOthers | DeepNestLib.Core/IO/DxfLineMerger.cs:82-92 | merging keeps the entities that are neither lines nor polylines, in order |
| DxfMerging.MergeEntitiesOfLines | DeepNestLib.Core/IO/DxfLineMerger.cs:82-92 | lines alone merge into at most as many lines, and a single line stays as it is |
| DxfMerging.MergeEntities | DeepNestLib.Core/IO/DxfLineMerger.cs:82-92 | the do-while loop gives MergeEntitiesOf |
| DxfLines.Reversed | DeepNestLib.Core/IO/MergeLine.cs:16-19 | the reversed segment swaps its ends |
| DxfLines.VerticalFacts | DeepNestLib.Core/IO/MergeLine.cs:53 | the vertical test ignores the direction, holds for ends with one X, and allows ends at most one unit of the fourth decimal place apart |
| DxfLines.Rounding | DeepNestLib.Core/IO/MergeLine.cs:53 | rounding to four places moves a value by at most half a unit of the last place |
| DxfLines.Ends | DeepNestLib.Core/IO/MergeLine.cs:55-80 | the ends in order: by Y for a vertical line and strictly by X otherwise; P1 comes first only when strictly lower, so level vertical ends start at P2 |
| DxfLines.Left | DeepNestLib.Core/IO/MergeLine.cs:25-36 | Left is the lower end |
| DxfLines.Right | DeepNestLib.Core/IO/MergeLine.cs:38-49 | Right is the upper end |
| DxfLines.EndsReversed | DeepNestLib.Core/IO/MergeLine.cs:55-80 | the order of the ends does not depend on the direction, except for a vertical segment with level ends |
| DxfLines.GradientReversed | DeepNestLib.Core/IO/MergeLine.cs:90 | the gradient does not depend on the direction |
| DxfLines.Slope | DeepNestLib.Core/IO/MergeLine.cs:82-92 | a vertical line has slope decimal.MaxValue |
| DxfLines.SlopeNearGradient | DeepNestLib.Core/IO/MergeLine.cs:82-92 | a non-vertical line's slope is its gradient to within the rounding |
| DxfLines.SlopeReversed | DeepNestLib.Core/IO/MergeLine.cs:82-92 | the slope does not depend on the direction |
| DxfLines.InterceptWithNear | DeepNestLib.Core/IO/MergeLine.cs:102 | the rounded intercept is within half a unit of the exact one |
| DxfLines.InterceptOfVertical | DeepNestLib.Core/IO/MergeLine.cs:96-99 | a vertical line's intercept is the X of either end, to within the rounding |
| DxfLines.InterceptOfSloped | DeepNestLib.Core/IO/MergeLine.cs:100-103 | another line's intercept is where the line through P1 with its slope crosses X = 0, to within the rounding |
| DxfLines.InterceptVerticalReversed | DeepNestLib.Core/IO/MergeLine.cs:96-99 | a vertical line's intercept does not depend on the direction |
| DxfLines.MergeLine.constructor | DeepNestLib.Core/IO/MergeLine.cs:16-19 | a new MergeLine wraps the line and has worked out nothing yet |
| DxfLines.MergeLine.SetLeftRight | DeepNestLib.Core/IO/MergeLine.cs:55-80 | both ends are worked out and kept |
| DxfLines.MergeLine.GetLeft | DeepNestLib.Core/IO/MergeLine.cs:25-36 | Left gives the lower end, working out both ends on first use |
| DxfLines.MergeLine.GetRight | DeepNestLib.Core/IO/MergeLine.cs:38-49 | Right gives the upper end, working out both ends on first use |
| DxfLines.MergeLine.GetSlope | DeepNestLib.Core/IO/MergeLine.cs:21 | the slope is remembered once worked out, and working it out for a non-vertical line also works out its ends |
| DxfLines.MergeLine.GetIntercept | DeepNestLib.Core/IO/MergeLine.cs:23 | the intercept is remembered once worked out, going through the slope for a non-vertical line |
| Details.ContourPolygon | DeepNestLib.Core/IO/RawDetail.cs:83-88 | one fresh polygon per contour with a new point per vertex, in order |
| Details.Contours | DeepNestLib.Core/IO/RawDetail.cs:81-89 | one polygon per contour, in the order of the contours |
| Details.FirstLargest | DeepNestLib.Core/IO/RawDetail.cs:93 | the outline is a contour of largest area, the first such |
| Details.FirstLargestUnique | DeepNestLib.Core/IO/RawDetail.cs:93 | being the first of the largest pins the position down |
| Details.Without | DeepNestLib.Core/IO/RawDetail.cs:97-105 | every polygon but the outline, in order |
| Details.OthersWithout | DeepNestLib.Core/IO/RawDetail.cs:97-105 | the loop over the contours skips exactly the outline |
| Details.ToNfpOf | DeepNestLib.Core/IO/RawDetail.cs:77-109 | nothing without contours; otherwise a polygon named after the detail with one hole per other contour |
| Details.ToNfpShape | DeepNestLib.Core/IO/RawDetail.cs:77-109 | the outline is the first contour of largest area, the holes are all the other contours in drawing order, and the rest is a fresh polygon |
| Details.ConvertOf | DeepNestLib.Core/IO/RawDetail.cs:38-54 | the conversion gives the detail with the given Source exactly when it has contours |
| Details.RawDetail.constructor | DeepNestLib.Core/IO/RawDetail.cs:9-11 | a new detail has no contours |
| Details.RawDetail.Value | DeepNestLib.Core/IO/RawDetail.cs:11-36 | the detail's value holds its contours and its name |
| Details.RawDetail.AddContour | DeepNestLib.Core/IO/RawDetail.cs:26-29 | the contour goes to the end |
| Details.RawDetail.AddRangeContour | DeepNestLib.Core/IO/RawDetail.cs:31-34 | the contours go to the end, in their order |
| Details.RawDetail.ContourNfps | DeepNestLib.Core/IO/RawDetail.cs:80-89 | one polygon per contour, each built point by point |
| Details.RawDetail.ContourNfp | DeepNestLib.Core/IO/RawDetail.cs:83-88 | a fresh polygon with the contour's points added in order |
| Details.RawDetail.ToNfp | DeepNestLib.Core/IO/RawDetail.cs:77-109 | the method gives ToNfpOf of the detail |
| Details.RawDetail.Adopt | DeepNestLib.Core/IO/RawDetail.cs:93-105 | the outline, renamed, gets every other polygon as a child, in order |
| Details.RawDetail.TryConvertToNfp | DeepNestLib.Core/IO/RawDetail.cs:38-54 | the conversion succeeds exactly when ToNfp gives a polygon, and that polygon carries the given Source |

## Left out

- Concurrency: `Parallel.For`, `Parallel.Invoke`, locks, `Interlocked` and `volatile`. The three slices of a pass, the pair map and the background evaluations run one after the other, and every counter is a plain field. As under Parallel.Invoke, a failing slice does not keep the later slices from running.
- The polygon engine is a set of parameters and is not modelled: Clipper, the native Minkowski library, NfpHelper, SheetNfp and GeometryUtil. This includes `CleanPolygon2`, offsetting (`OffsetTree`, `PolygonOffsetDeepNest`) and `ClipperToSvg`. The offset phase of building the nest items is modelled with offsetting switched off.
- Floating point: doubles are reals. NaN is modelled only where the source divides (fitness, percentages and averages). Trigonometry, hulls and areas come from the engine. The `(decimal)` casts in MergeLine's slope and intercept (MergeLine.cs lines 90, 98 and 102) throw OverflowException beyond decimal's range of about 7.9e28, which a line that is not vertical but whose ends differ in X only below the fourth decimal place can reach; DxfLines.Slope and DxfLines.Intercept return the real value there instead.
- Randomness and the clock: `Random` draws are sequences of inputs. The procreation timeout is the length of the draw sequence. Stopwatch times are parameters.
- Serialisation and I/O: JSON, export, DXF and SVG parsing. Loading a drawing in NestExecutionHelper is a `load` function parameter that gives the contours and name, or nothing.
- NestingContext: `LoadXml`, `LoadSampleData`, `AddSheet`, the asynchronous `StartNest` and `ResumeNest`. These are file loading or task scheduling around the modelled operations.
- Progress displayers and message services are left out: their calls have no effect on the modelled state.
- DeepNestGene is modelled as the sequence of chromosomes it wraps. It is a read-only view, so aliasing the list it is given changes nothing observable in the model.
- PopulationItem is not modelled from its own source: that class is not part of this model. A member is taken to be pending when it is not processing and its fitness is -1.
- The NfpPair class is not part of this model. A pair is a value with the fields PmapWorker reads and writes.
- NfpPairEqualityComparer, the comparer the pair cache is built with (NfpPairDictionary.cs lines 7 and 15), is not part of this model. PairMap.PairKey assumes that two lookups match exactly when their keys are equal as values: the same rotated outlines point by point, the same two rotations, the same two sources and the same pick. PairMap.KeyOfPair, PairMap.PmapWorker.Process, the hit counts behind PairMap.NfpPairDictionary.PercentCached and PairMap.SecondPairIsCached rest on that assumption; a comparer that matches more loosely or more strictly gives more or fewer cache hits.
- CacheKeys.RotationKey: does not model the overflow of the `(int)` cast for rotations beyond about 214748 degrees, because rotations stay within (-360, 360).
- Counters in NestState, Procreant and the caches are unbounded integers: C# `int` and `long` overflow is not modelled.
- PartPlacementWorker's MergeLines branch and `CalculateMergedLength` only throw NotImplementedException. The model records that enabling merge lines fails and computes nothing else for it.
- SvgNest.ToTree is private and never called.
- The `MergeLines(DxfFile)` wrapper only reads the entities from and writes them back to a DXF document. The entity-level merge it calls is modelled.
- DxfLines.MergeLine: the lazily computed Left, Right, Slope and Intercept are fields of one object. The model does not capture that two MergeLine wrappers of the same DXF line do not share them.
- SvgPoint.Equals, NestChromosome, PolygonSimplificationKey, ConfigSheetLoadInfo, NestItem and PolygonBounds are plain data or pass-throughs. They appear only as the fields the model reads.
- Procreation.RandomRotation: a Rotations of 0 is not modelled. The source then computes `0 * (360f / 0)`, which is NaN, and a rotation here is a real, not a float. Negative Rotations are modelled.
- Procreation.RandomRotationValues: excludes a Rotations of 0, for the NaN reason under Procreation.RandomRotation.
- Procreation.UnrestrictedRotation: excludes a Rotations of 0, as above.
- Procreation.Reroll: excludes a Rotations of 0, as above, so the NaN rotation a reroll then draws is not modelled.
- Procreation.MutationPass: excludes a Rotations of 0, as above.
- Procreation.MutateAt: excludes a Rotations of 0, as above.
- Procreation.FromParts: excludes a Rotations of 0, as above. The sizes for which the array allocation throws are modelled as failures.
- Procreation.Procreant.constructor: requires a PopulationSize of at least 1, because for other sizes the array allocation throws and no object exists. Procreation.FromAdam and Procreation.FromParts model those sizes as failures. It also excludes a Rotations of 0, as under Procreation.RandomRotation.
- RunState.Score: a non-finite fitness (±∞ or NaN) is stored and ranked as 0. The source stores the raw double (SvgNest.cs line 215) and ranks with `<`, so there +∞ ranks worst, −∞ best, and NaN compares false both ways. Fitness is a real in the rest of the model, so those orderings are not captured.
- Nesting.SvgNest.SetScore: stores RunState.Score of the nest, so a non-finite fitness is stored as 0, as above.
- Nesting.SvgNest.ResponseProcessor: ranks and stores by RunState.Score, so a non-finite fitness counts as 0, as above.
- Procreation.Procreant.SortByFitness: orders members of equal fitness stably. `Array.Sort` is unstable, so the source's order among equal fitnesses is unspecified.
- Placement.PlacementWorker.TryGetSheet: pops one stack of sheet-and-original pairs, the corrected form under Findings. It does not model the source's throw or mispairing once the two stacks drift apart.
- Placement.PlacementWorker.RequeueSheets: pushes the sheet back with its own original, the corrected form under Findings. The as-written push is Placement.TwoStackRequeue.
- Placement.PlacementWorker.PlaceParts: runs on the corrected single stack, so it does not model the mispaired or throwing runs under Findings.
- DxfMerging.Coincident: uses the corrected Coaligned. The source's Coaligned (DxfMerging.CoalignedAsWritten) throws OverflowException when a falling line precedes a vertical one, and that throw is not propagated.
- DxfMerging.MergeLinesOf: uses the corrected Coincident, so it never fails with the OverflowException the source can throw there.
- DxfMerging.DoMergeOf: uses the corrected Coincident, so it never fails with the OverflowException the source can throw there.
- DxfMerging.MergeEntitiesOf: uses the corrected Coincident, so it never fails with the OverflowException the source can throw there.

## Findings

| source | as written | input that shows it | evidently intended | confidence | as-written member | corrected member |
|---|---|---|---|---|---|---|
| DeepNestLib.Core/Placement/PlacementWorker.cs:129-146 | RequeueSheets pushes the sheet back only onto the sheet stack, while TryGetSheet pops both the sheet stack and the original-sheet stack | sheets [1, 0] with priority parts: the first pass uses sheet 0 and leaves parts, so sheet 0 is pushed back alone; the next TryGetSheet pops the original-sheet stack once too often, which throws, or pairs sheet 0 with sheet 1's original | each sheet stays paired with its own original | not executed | Placement.TwoStacksMispair | Placement.OneStackPairs |
| DeepNestLib.Core/IO/DxfLineMerger.cs:65-69 | Coaligned subtracts the slopes as decimals; a vertical line's slope is decimal.MaxValue, so the difference overflows and throws when the earlier line falls by half a unit per unit or more | the lines (0, 1)-(1, 0) and (5, 0)-(5, 1) in one drawing: after sorting, the vertical line follows the falling one and Coincident throws OverflowException | a vertical and a non-vertical line are simply not on one line | not executed | DxfMerging.FallingThenVerticalThrows | DxfMerging.Coincident |
