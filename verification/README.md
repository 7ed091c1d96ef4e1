# ironArray: a verified model

ironArray stores an N-dimensional array as chunks, each cut into blocks, both levels padded.
Almost everything the library computes walks over (chunk, block, item) triples and has to agree
with the same operation on a plain row-major array.  This project models those walks, for any
number of dimensions, and proves that they agree.  Two further pieces are modelled: the tuner
that picks compression parameters (BTune), and the expression parser.

How the model is built:

* `Layout`, `Geometry`, `Lists`, `Arith`: strides and flat indices, the two-level split of a
  coordinate, stored arrays (`Stored`: chunks of blocks of items, padding included), folds and
  row-major boxes.
* `OneShotSpec`, `OneShot`: the recursive one-shot reduction. `AxisReduce`, `MultiAxis`: one axis
  after the other, with the axes renumbered in place. `Axes`: projections on the kept axes.
* `Gemm`, `GemmB`, `Sums`: blocked matrix products, with skipping, clipping and a reused scratch buffer.
* `Repart`, `BlockIter`, `ExternalWriter`, `Eval`, `EvalBlosc`: repartition of a chunk, the block iterators
  with their deferred flush, over buffers of their own or handed in, and the two ways of evaluating an
  expression.
* `Constructor`, `ElemIter`, `ElemWriter`: building arrays item by item, the windows of the zarr proxy,
  and the element iterators.
* `Partition`, `PartitionExact`: the advice on chunk and block shapes, and exactly which shape it is.
* `BTuneSpec`, `BTune`: the tuner as functions on its state, and as the object the library updates in place.
  `BTuneRuns`, `BTuneAnyMode`, `BTuneHints`, `BTuneHcr`, `BTuneRepeat`, `BTunePhases`, `BTuneCodecs`,
  `BTuneVerdict`, `BTuneLevels`: theorems about whole runs (schedule, stopping and repeating), about the phases
  and codecs, about which measurements are accepted, and about the levels.
* `TinyExprSpec`, `TinyExpr`, `TinyExprGrammar`, `Builtins`: the parser as functions, as the object that
  advances a shared state, and its relation to the documented grammar; the built-in name table.

What the library updates in place (index buffers, output blocks, iterators, the tuner, the parser) is
imperative here too; each such method is proved against a function or a predicate on plain values, and
the theorems are about those.  Element values are an arbitrary type with an arbitrary operation
(integers in the matrix products); compressed buffers are the data they hold; slices of containers are
functions from coordinates to values; measurements and zero tests are arbitrary parameters.

The matrix products rely on zero padding in both operands (`Gemm.ZeroPadded`).  That holds of what the
per-axis reductions leave (`AxisReduce.ReduceAxis` and `MultiAxis.ReduceMulti`, with zero 0) and of
the products themselves (`Gemm.OptGemm`, `GemmB.OptGemmB`).  It need not hold elsewhere: the one-shot
reductions leave the finished initial value in the padding, so a one-shot maximum is no legal operand, and
nothing is said here about the padding that `EvalBlosc.IterBlosc` leaves.

In two places the code does less than its comments say, and the model follows the code: the level caps
"for ZSTD and BALANCED mode" and "for HCR mode" are put on the tuner's record after the compressor has got the
level (`BTuneLevels.RecordedIsCapped`, with the exact cases in `CapMissedExactly`), and the advice that should
give at least four chunks can give chunks of no items at all (`Partition.ZeroExactly`).

## Model

| member | source | states |
|---|---|---|
| Layout.ComputeStrides | src/iarray_private.h:561-569 | the loop fills in the products of the later extents |
| Layout.MultidimToUnidim | src/iarray_private.h:571-576 | with the strides of any shape, the result is the row-major index for that shape |
| Layout.UnidimToMultidim | src/iarray_private.h:578-587 | decoding by strides gives the mixed-radix digits, for any number of dimensions |
| Layout.UnidimToMultidimShape | src/iarray_private.h:589-602 | the same from the shape |
| Layout.FlattenUnflatten | src/iarray_private.h:571-602 | flat to multi to flat is the identity, and stays inside the shape |
| Layout.UnflattenFlatten | src/iarray_private.h:571-602 | multi to flat to multi is the identity inside the shape |
| Layout.FlattenInjective | src/iarray_private.h:571-576 | distinct coordinates never share a flat index |
| Layout.RunningProductIndex | src/iarray_iterator.c:163-171 | the iterators' running-product decoding agrees with decoding by strides |
| Geometry.Split | src/constructors/iarray_constructor_block.c:155-168 | every coordinate of the array is the composition of an existing chunk, block and item that lies inside block, chunk and array |
| Geometry.SplitUnique | src/constructors/iarray_constructor_block.c:47-60 | no other such triple composes to the same coordinate |
| OneShotSpec.VisitedExactlyOnce | src/reductions/iarray_reduce_oneshot.c:99-248 | for every output item the chunk, block, item recursion visits exactly the input coordinates that match on the kept axes, each once, never padding |
| OneShotSpec.BlockedIsPlain | src/reductions/iarray_reduce_oneshot.c:99-248 | so for a step whose order does not matter the result is the plain row-major reduction |
| OneShot.CheckPadding | src/reductions/iarray_reduce_oneshot.c:64-97 | an item is padding exactly when some component passes the clipped chunk |
| OneShot.ItemIter | src/reductions/iarray_reduce_oneshot.c:99-131 | the innermost recursion folds the items of its box in row-major order into the output item |
| OneShot.BlockIter | src/reductions/iarray_reduce_oneshot.c:133-188 | the recursion over blocks applies every block of its box to every output item, in order |
| OneShot.ChunkIter | src/reductions/iarray_reduce_oneshot.c:190-249 | the recursion over chunks does the same for every chunk of its box |
| OneShot.ClipChunkshape | src/reductions/iarray_reduce_oneshot.c:571-583 | what a chunk at the edge really holds |
| OneShot.BoxStop | src/reductions/iarray_reduce_oneshot.c:443-451 | the stop corner spans the whole extent on reduced axes and one index on kept axes |
| OneShot.BoxStart | src/reductions/iarray_reduce_oneshot.c:453-460 | the start corner belongs to that stop corner |
| OneShot.Prefilter | src/reductions/iarray_reduce_oneshot.c:251-500 | one output block: every item is the finished fold over what it has to visit, padding items are the finished initial value |
| OneShot.ReduceOneShot | src/reductions/iarray_reduce_oneshot.c:502-637 | the whole array: every element is the plain reduction over the reduced axes when the step's order does not matter; every slot is described, padding included |
| AxisReduce.RunsAreConsecutive | src/reductions/iarray_reduce.c:351-377 | the clipped runs along the axis start where the previous ones end and cover the axis once |
| AxisReduce.ReduceAxis | src/reductions/iarray_reduce.c:757-860 | one pass is the in-order fold along the axis for any step, commutative or not; padding of the result is zero |
| AxisReduce.AxisPrefilter | src/reductions/iarray_reduce.c:137-755 | one output block: items inside the array are the finished folds along the axis, padding items are zero |
| AxisReduce.ReduceAlong | src/reductions/iarray_reduce.c:315-456 | over all chunks and blocks along the axis the output block collects each element's fold in axis order |
| AxisReduce.ItemIsPadding | src/reductions/iarray_reduce.c:17-32 | check_padding finds exactly the items outside the clipped chunk |
| MultiAxis.CollectAxes | src/reductions/iarray_reduce.c:1371-1388 | the check accepts exactly lists of at most ndim axes none above ndim, and keeps the first occurrence of each named axis, in order |
| MultiAxis.RankAfter | src/reductions/iarray_reduce.c:1437-1441 | decrementing a later axis exactly when it lies above the reduced one keeps it at its number among the remaining axes |
| MultiAxis.Renumber | src/reductions/iarray_reduce.c:1437-1441 | the in-place loop does that for all later axes |
| MultiAxis.OneMoreAxis | src/reductions/iarray_reduce.c:1399-1442 | folding the partially reduced array along one more axis is the reduction over one more axis, for a commutative monoid |
| MultiAxis.FoldOfFinished | src/reductions/iarray_reduce.c:1399-1442 | when the finish of a pass distributes over the operation, folding finished values is finishing the fold |
| MultiAxis.OneMorePass | src/reductions/iarray_reduce.c:1399-1442 | so one more finished pass over an array that has been through some is the array after the longer list |
| MultiAxis.ReduceMulti | src/reductions/iarray_reduce.c:1331-1442 | axis by axis gives the same array as all axes at once, finished once for each axis, for every commutative monoid, every finish that distributes over it and any order of the axes, with zero in the padding; it fails exactly when the check does; a list that is empty, or names axis ndim, passes the check too and is left out |
| MultiAxis.ReducePlain | src/reductions/iarray_reduce.c:1331-1442 | without a finish it is the plain reduction over all the axes, for the same lists |
| MultiAxis.MeanOfMeans | src/reductions/iarray_reduce_oneshot.c:254-262 | means of means, each divided by its own extent, are the one-shot mean divided by all of them |
| MultiAxis.InverseTimesItems | src/reductions/iarray_reduce_oneshot.c:254-262 | the factor of the one-shot mean times the product of the reduced extents is one |
| MultiAxis.MatchingLength | src/reductions/iarray_reduce.c:1399-1442 | as many coordinates collapse onto an element as the reduced extents have items |
| MultiAxis.MeanTimesItems | src/reductions/iarray_reduce_oneshot.c:254-262 | so the one-shot mean times the number of items averaged is their plain sum |
| MultiAxis.ReduceMean | src/reductions/iarray_reduce.c:1331-1442 | MEAN axis by axis: every element times the number of items that collapse onto it is their plain sum, and it is the one-shot mean; over exact reals and axes that are not empty, for the same lists |
| Gemm.Clip | src/linalg/iarray_gemm.c:171-256 | whatever is cut off an edge block, or skipped with it, lies past the array's end |
| Gemm.GemmPrefilter | src/linalg/iarray_gemm.c:91-313 | one output block accumulates every block product along the inner axis, whichever are skipped; it fails exactly when A has more columns of chunks than B has rows of them |
| Gemm.AccIsProduct | src/linalg/iarray_gemm.c:110-303 | the sum over chunks, blocks and items of the inner axis is the plain row-times-column sum over the extent both operands have, zero on padding |
| Gemm.OptGemm | src/linalg/iarray_gemm.c:315-425 | C is the plain product and all its padding is zero, whatever zero tests and clipping skip; it succeeds exactly when ndim, chunk and block shapes match and, unless C is empty, B has a row of chunks for every column of chunks of A; the inner extents are not compared, the sum runs over the smaller one |
| Sums.SumOverAxis | src/linalg/iarray_gemm.c:124-300 | a sum over an axis splits into chunks, blocks and items without losing or repeating a term |
| GemmB.ScratchProduct.LoadChunk | src/linalg/iarray_gemm_b.c:308-320 | after the masked decompression every block that is not masked is in its place, whatever earlier chunks left behind |
| GemmB.ScratchProduct.Prefilter | src/linalg/iarray_gemm_b.c:87-189 | no masked block is read: the output block is the accumulated product; it fails exactly when A has no such chunk |
| GemmB.OptGemmB | src/linalg/iarray_gemm_b.c:191-358 | it succeeds exactly when the layout checks hold and C is empty or a chunk of C has as many rows of blocks as A has chunks; then C is the plain product with zero padding; past the checks it fails in decompression. An empty inner axis under a non-empty C is left out |
| GemmB.FailingProduct | src/linalg/iarray_gemm_b.c:114-125 | a product of two 1 x 1 matrices that passes every layout check and fails: the chunk of C has two rows of blocks |
| Repart.RepartChunk | src/iarray_expression.c:165-237 | with buffers of the right size the chunk becomes its blocks one after the other, in up to eight dimensions padded in front; otherwise nothing is written |
| Repart.RepartBlocks | src/iarray_expression.c:195-236 | the same loop for any number of dimensions |
| Repart.FillBlock | src/iarray_expression.c:201-235 | the line copies fill exactly the part of one block that lies in the chunk and leave zeros and everything else alone |
| Repart.RepartExact | src/iarray_expression.c:195-236 | each coordinate of the chunk sits at its block's start plus its offset in the block, with its value |
| Repart.SlotsNeverCollide | src/iarray_expression.c:216-232 | distinct coordinates have distinct slots |
| Repart.OtherSlotsZero | src/iarray_expression.c:174-236 | every slot that is no coordinate's holds zero |
| Repart.Recoverable | src/iarray_expression.c:165-237 | the repartition determines the chunk |
| BlockIter.InWindow | src/iarray_iterator.c:163-189 | every coordinate lies in an existing window, at an item of it |
| BlockIter.WindowInside | src/iarray_iterator.c:173-189 | every item of a window is a coordinate of the array and belongs to no other window |
| BlockIter.SizesAddUp | src/iarray_iterator.c:173-189 | the window sizes add up to the number of items of the array |
| BlockIter.EdgeFormula | src/iarray_iterator.c:397-402 | shape - eshape + block is the clipped length wherever the edge branch is taken |
| BlockIter.ReadWindow | src/iarray_iterator.c:163-189 | start and clipped shape of the window with a given number |
| BlockIter.WriteWindow | src/iarray_iterator.c:382-403 | the write iterator's formulas give the same windows |
| BlockIter.ReadIterator.Next | src/iarray_iterator.c:149-215 | call number n shows exactly window n, in either buffer layout |
| BlockIter.FlushKeeps | src/iarray_iterator.c:345-372 | storing one block disturbs no block stored before |
| BlockIter.ElementWritten | src/iarray_iterator.c:337-454 | once all blocks are stored, every element is what the caller left for it during its block's turn |
| BlockIter.TurnsDetermine | src/iarray_iterator.c:418-454 | the stored blocks determine the array |
| BlockIter.WriteIterator.Next | src/iarray_iterator.c:337-415 | the deferred flush stores the block of the turn that ends under its own number |
| BlockIter.WriteIterator.HasNext | src/iarray_iterator.c:418-454 | with a buffer of its own it reports the end exactly at the last block, stores that block first, and asking again changes nothing |
| ExternalWriter.ExternalWriter.Next | src/iarray_iterator.c:337-415 | with buffers handed in, chunks not compressed: the block of the turn that ends is stored and its buffer freed, once, before the new buffer is looked at; a buffer is refused exactly when it is too small, and after the first turn a refusal leaves nothing a second try could store |
| ExternalWriter.ExternalWriter.HasNext | src/iarray_iterator.c:418-454 | the end is reported exactly at the last block, which is stored and freed; asking again there would store and free the same memory, so it is not allowed |
| ExternalWriter.StoreAll | src/iarray_iterator.c:337-454 | a client that hands in a fresh buffer per block and stops at the first no stores the whole array, and every buffer has been freed exactly once |
| Eval.EvalChunks | src/iarray_expression.c:536-577 | moved on together, read and write iterators meet at the same windows: every block is stored with the operands' function on its own window, and the written items are the window sizes |
| Eval.IterChunk | src/iarray_expression.c:483-590 | every element is the function of the operands' elements, and the completeness check never fails |
| EvalBlosc.DirectInput | src/iarray_expression.c:422-444 | an operand stored like the output can be read block by block |
| EvalBlosc.RepartInput | src/iarray_expression.c:717-725 | an operand stored differently, sliced with padding and repartitioned, shows the same values |
| EvalBlosc.Prefilter | src/iarray_expression.c:329-480 | one block: every item inside the array is the function of the operands' values at its coordinate |
| EvalBlosc.IterBlosc | src/iarray_expression.c:593-777 | for any mix of such operands every element is the same pointwise value that ITERCHUNK gives |
| Constructor.ProducedExactlyOnce | src/constructors/iarray_constructor_block.c:153-195 | over all chunks, blocks and items every coordinate is produced once and nothing else is |
| Constructor.BlockInfo | src/constructors/iarray_constructor_block.c:47-60 | start and visible shape of a block; skipping happens only when nothing is visible |
| Constructor.ElementFn | src/constructors/iarray_constructor_element.c:15-67 | exactly the visible items get the item function of coordinate and row-major index, at their padded position; padding is untouched |
| Constructor.Construct | src/constructors/iarray_constructor_block.c:88-200 | every element of the array is the item function of its coordinate and row-major index, each evaluated once |
| Constructor.VisibleIsInside | src/constructors/iarray_constructor_block.c:47-60 | the visible items are those inside block, chunk and array |
| Constructor.ProxyWindow | src/iarray_zproxy.c:46-85 | the proxy's other formula gives the constructor's windows, and skips exactly the empty ones |
| ElemIter.NumberBound | src/iarray_iterator.c:605-691 | the numbers of the elements are below the array's size |
| ElemIter.NumberInjective | src/iarray_iterator.c:605-691 | and no two elements share one, so every coordinate comes exactly once |
| ElemIter.LocateElement | src/iarray_iterator.c:666-678 | coordinate and row-major index of the current element |
| ElemIter.ElementReader.Next | src/iarray_iterator.c:605-691 | call number n yields the element with number n in window order, its row-major index and its value |
| ElemWriter.AllSingle | src/iarray_iterator.c:784-817 | when the first window holds a single item, which is when the iterator leaves it unwritten, every window does |
| ElemWriter.OrderInjective | src/iarray_iterator.c:778-847 | every coordinate has its own turn below the array's size, in the rotated order too |
| ElemWriter.WrapWindow | src/iarray_iterator.c:799-814 | after the last window comes the first again |
| ElemWriter.ElementWriter.Next | src/iarray_iterator.c:778-847 | call number n yields the element whose turn is n; nothing written before is lost when a window is left |
| ElemWriter.ElementWriter.HasNext | src/iarray_iterator.c:850-872 | at the end everything that was written is in the array |
| ElemWriter.WriteAll | src/iarray_iterator.c:778-872 | a loop that writes each element it is handed stores the whole array |
| Partition.GetNearestPower2 | src/iarray.c:146-154 | the largest power of two that does not exceed a positive value |
| Partition.SomethingHalved | src/iarray.c:166-189 | a pass that neither fits nor falls short halves some dimension, so the endless loop ends |
| Partition.NeverEnds | src/iarray.c:166-189 | when a single item is above the maximum and not below the minimum, no pass ever ends that loop |
| Partition.BoxedMeets | src/iarray.c:158-225 | for every shape: powers of two (or one vanished dimension) no larger than the shape, a missing extent counting as one item, within the larger of maxsize and minsize - 1 bytes |
| Partition.BoxedLeavesRoom | src/iarray.c:193-213 | a partition that is not below the minimum or half of the maximum leaves a tenth of itself over on every axis longer than one item; in one dimension under btune at least four of them fit |
| PartitionExact.BoxedIsFound | src/iarray.c:158-225 | exactly which shape: the powers of two below the shape after the first number of halving turns, taken in turn over the axes, that fits or falls short; then, if it fits, the leading axes split once more up to the first that finds the partition small enough |
| PartitionExact.FoundExactly | src/iarray.c:158-225 | no other shape or checked size answers that description |
| PartitionExact.CheckedExactly | src/iarray.c:216-224 | it fails exactly when the last size that was looked at is above 2147483647 bytes, and the partition is never larger than that size |
| PartitionExact.HalvedJustEnough | src/iarray.c:166-189 | without the last halving turn the partition would pass the maximum |
| PartitionExact.SquareBox | src/iarray.c:157-189 | of two axes that start alike the earlier ends equal or one halving smaller |
| PartitionExact.DefaultExample | src/iarray.c:277-356 | with default bounds a 2048 x 1024 array of eight-byte items gets chunks of 1024 x 1024 and blocks of 128 x 128, or 256 x 256 when the ratio is favoured |
| Partition.BoxedFailsExactly | src/iarray.c:216-224 | the only failure is a partition above 2 GB |
| Partition.BoxedOptimPartition | src/iarray.c:158-225 | the in-place loops with their early exits compute the partition and the verdict that PartitionExact describes without them |
| Partition.ZeroExactly | src/iarray.c:193-213 | in one dimension with btune the advice is zero exactly for the listed shapes and limits |
| Partition.EightItemsSuffice | src/iarray.c:208-212 | a minimum of eight items keeps it positive |
| Partition.ZeroExample | src/iarray.c:208-212 | four items of eight bytes between 16 and 32 bytes are advised a chunk of zero items |
| Partition.PartitionAdvice | src/iarray.c:250-358 | defaults, then the chunk shape, then the block shape capped by the chunk's size; small limits never fail, and a success is advice that meets all of AdviceMeets |
| Partition.AdviceMeets | src/iarray.c:341-355 | whenever the loops end: shapes within the array and within the byte limits; chunks that are not below half of the maximum leave room on every axis of the array, and such blocks on every axis of the chunk; the chunk is positive except in the vanishing case of shape and limits, the block except in the same case of the advised chunk; if neither vanishes, which minima of eight items guarantee from the inputs alone, blocks divide chunks exactly |
| Partition.PositiveExactly | src/iarray.c:193-213 | an advised shape is positive except exactly in the one-dimensional vanishing case, read off shape and limits |
| Partition.AdvisableExactly | src/iarray.c:341-355 | whether the second halving loop, which starts from the advised chunk, can end is told from shape, item size and bounds alone |
| BTuneSpec.InitIsSafe | src/btune/iabtune.c:295-403 | the tuner starts in a safe state exactly when a hint, if there is one, names a level in 1..9 |
| BTuneSpec.StepIsSafe | src/btune/iabtune.c:569-703 | no measurement leads out of the safe states: level in 1..9, codec list read in bounds |
| BTuneRuns.RunIsSafe | src/btune/iabtune.c:882-1134 | so every reachable state is safe |
| BTuneRuns.StepOnSchedule | src/btune/iabtune.c:766-1038 | outside HCR one compression keeps the counters on the schedule of hard, soft and waiting phases and lowers the bound on what is left |
| BTuneRuns.ScheduledStep | src/btune/iabtune.c:766-1038 | in every mode it keeps that schedule, and one that is not accepted brings the stop nearer |
| BTuneRuns.WholeRun | src/btune/iabtune.c:766-1038 | where nothing is repeated after the last hard readapt, whatever is measured, the tuner has stopped within an explicit bound after exactly h + 1 hard readapts, s * h soft ones and w * s * h waits (w * h without softs), and stays stopped |
| BTuneRuns.EachCombinationOnce | src/btune/iabtune.c:582-604 | every (codec, filter, split) combination has exactly one position in a codec phase |
| BTuneRuns.CodecPhase | src/btune/iabtune.c:882-920 | a codec phase moves through the positions one by one and ends after the last |
| BTuneCodecs.PhaseFollowsPlan | src/btune/iabtune.c:578-604 | each compression of the phase tries the codec, filter and split of its place in the plan |
| BTuneCodecs.PhaseTriesEachOnce | src/btune/iabtune.c:578-604 | over a whole phase every listed codec is tried with every filter, split and not split, exactly once, BLOSCLZ (always split) twice with every filter, and nothing else is |
| BTuneCodecs.InitCodecsDistinct | src/btune/iabtune.c:48-87 | the codec list names no codec twice, with a hint or without |
| BTuneCodecs.OfferedExactly | src/btune/iabtune.c:48-87 | which codecs a tuner tries: those of its compression mode that are compiled in, LZ4HC only for decompression, and the hinted one; LZ4, else ZSTD, first |
| BTuneVerdict.VerdictExactly | src/btune/iabtune.c:731-750 | the verdict of every mode is one staircase: the ratio coefficient must exceed a bound that only depends on the score coefficient and grows as the score gets worse |
| BTuneVerdict.BetterInBoth | src/btune/iabtune.c:731-750 | a gain in score and ratio is accepted in every mode |
| BTuneVerdict.UpwardClosed | src/btune/iabtune.c:731-750 | more of either coefficient never turns acceptance into rejection |
| BTuneVerdict.WorseInBoth | src/btune/iabtune.c:731-750 | no gain in either is rejected in every mode |
| BTuneVerdict.StepBest | src/btune/iabtune.c:1088-1134 | after a compression the best parameters are those just tried, with their result, exactly when the measurement passes the staircase and is not special; otherwise they stay, up to the direction of the levels |
| BTuneLevels.LevelsMove | src/btune/iabtune.c:646-665 | main result for levels: k measurements that are all accepted move the level of a phase by exactly k steps in its direction, either way, and the phase ends at the first level without room for a further step |
| BTuneLevels.LevelTriedInPhase | src/btune/iabtune.c:646-665 | the level a phase hands to the compressor: one step on if that is a level, never level 9 of ZSTD |
| BTuneLevels.LevelTried | src/btune/iabtune.c:578-604 | outside those phases: the best level, or 3 for slow codecs during the first hard readapt |
| BTuneLevels.RecordedIsCapped | src/btune/iabtune.c:537-553 | the tuner records those parameters with the level capped by mode and codec |
| BTuneLevels.CapMissedExactly | src/btune/iabtune.c:537-553 | the compressor itself is not held to the cap: within a phase it runs above it exactly when the phase goes up and the next step leads there |
| BTuneLevels.CapIsMissed | src/btune/iabtune.c:537-553 | the first compression of an HCR run for decompression is run at level 8 and recorded as 6 |
| BTuneLevels.FirstMiss | src/btune/iabtune.c:983-1000 | a first rejection in a phase turns the direction round and goes on if there is room that way |
| BTuneLevels.LaterMiss | src/btune/iabtune.c:983-1000 | a later one ends the phase |
| BTuneLevels.StepsFromStart | src/btune/iabtune.c:146-165 | in every reachable state steps are two levels in hard readapts, one in the last of them and in soft readapts; the soft readapt a hinted run starts with goes by two unless one hard readapt is configured |
| BTuneLevels.FirstVerdict | src/btune/iabtune.c:45-46 | the first measurement is weighed against a score of 100 and a ratio of 1.1 |
| BTuneLevels.FirstOfHint | src/btune/iabtune.c:377-394 | a hint's codec, filter and split are tried first unless a hard readapt comes first, from the hint's level |
| BTuneLevels.FirstUnhinted | src/btune/iabtune.c:337-401 | without a hint the first codec is tried unfiltered and split, at level 9, in HCR mode at 8 or 3 |
| BTuneRuns.HspGain | src/btune/iabtune.c:731-738 | in HSP mode an accepted improvement has cratio^3 * score^5 above one, in each of its four cases |
| BTuneRuns.WinRaisesPotential | src/btune/iabtune.c:731-750 | every accepted improvement strictly raises a potential of the best result |
| BTuneRuns.RunPotential | src/btune/iabtune.c:1088-1134 | over a run the potential never falls and rises with the first acceptance |
| BTuneRuns.NeverReturns | src/btune/iabtune.c:1088-1134 | so the best result never comes back to an earlier ratio and score |
| BTuneHcr.HcrNeedNotStop | src/btune/iabtune.c:550-553 | in HCR mode, where the level is capped, there are runs of any length, with ratios that keep rising, that have not stopped; a run with n + 1 different ratios need not stop within a codec phase and n + 1 compressions |
| BTuneHcr.ValuesAreNeeded | src/btune/iabtune.c:550-553 | so the bound by the number of different values cannot be improved below one compression per value and a codec phase |
| BTuneHcr.StopsExactly | src/btune/iabtune.c:537-566 | without a hint and in repeat mode STOP the number of steps is bounded exactly when the mode is not HCR |
| BTuneAnyMode.EveryMode | src/btune/iabtune.c:766-1038 | in every mode, HCR included, with a hint or without, where nothing is repeated after the last hard readapt: a stopped tuner has exactly the counters of the schedule, and it has stopped once it has compressed a constant of the configuration more than it accepted; a hint with soft but no hard readapts is off that schedule |
| BTuneAnyMode.AcceptedBelowValues | src/btune/iabtune.c:731-750 | a run accepts no more measurements than there are different values above the best so far |
| BTuneAnyMode.FewValuesStop | src/btune/iabtune.c:731-1038 | so in every mode measurements of finitely many different values make the tuner stop, within that many compressions more |
| BTuneHints.StopsOrWaits | src/btune/iabtune.c:766-1038 | every configuration in repeat mode STOP, off the schedule or on it: with softs and waits but no hard readapt behind a hint the tuner never stops, whatever is measured; every other one has stopped, with its final counters, after a constant more than it accepted |
| BTuneHints.StopsExactlyUnlessWaiting | src/btune/iabtune.c:818-866 | some run stops exactly when the configuration is not of that kind |
| BTuneRepeat.EveryConfiguration | src/btune/iabtune.c:766-1038 | over every configuration, repeat mode, hint and run: which ones never stop is told from the configuration alone, and in the repeating modes their counters stay on the schedule for ever; every other one has stopped, with its final counters, after a constant more than it accepted |
| BTuneRepeat.HardsAreOver | src/btune/iabtune.c:790-866 | with softs to repeat after the last hard readapt there is never another hard readapt |
| BTunePhases.ReachableExactly | src/btune/iabtune.c:882-1038 | for every setting of the four switches, the phases a run can reach: shuffle sizes and block sizes exactly when switched on, MEMCPY also only in HSP mode or without block sizes, THREADS (with more than one thread) even when switched off, if shuffle sizes are on |
| BTunePhases.LibraryPhases | src/btune/iabtune.c:22-25 | under the switches of the library exactly four phases are reachable |
| BTunePhases.RunIsPhases | src/btune/iabtune.c:882-1038 | every run of the model goes through the phases of that switched machine |
| BTune.BTune.constructor | src/btune/iabtune.c:295-403 | the object starts in the initial state of the model |
| BTune.BTune.NextCparams | src/btune/iabtune.c:537-703 | the in-place choice of parameters, those recorded and those handed to the compressor, is the one whose levels BTuneLevels and whose codecs BTuneCodecs describe |
| BTune.BTune.ProcessWaiting | src/btune/iabtune.c:766-879 | the in-place choice of the next readapt is the model's |
| BTune.BTune.UpdateAux | src/btune/iabtune.c:882-1038 | the in-place state transition is the model's |
| BTune.BTune.Update | src/btune/iabtune.c:1041-1136 | the best becomes what was tried, with its result, exactly when the measurement passes the staircase of BTuneVerdict and is not special; gains in score and ratio always get there; the rest of the reaction is the model's |
| BTune.BTune.Compress | src/btune/iabtune.c:569-1136 | one chunk: the best becomes the parameters recorded for it, with its result, exactly when the measurement passes the staircase; the state stays safe |
| BTune.BTune.CompressAll | src/btune/iabtune.c:569-1136 | compressing chunk after chunk is a run of the model, so the theorems about runs hold of the object |
| BTune.TuneAll | src/btune/iabtune.c:295-1136 | in the fields of the object: the level stays in 1..9 and the codec index in bounds; in every repeat mode the state is STOP with the final counters after enough chunks, or never, as the configuration says |
| TinyExprSpec.ErrorSticks | contribs/minjugg/src/tinyexpr.c:308-511 | once the token is TOK_ERROR no parse function clears it or reads on |
| TinyExprGrammar.AcceptsGrammar | contribs/minjugg/src/tinyexpr.c:308-539 | every text of the documented grammar compiles to the tree it means: "^" to the left, a sign tighter than "^", one-argument functions over a power |
| TinyExprGrammar.AcceptsOnlyGrammar | contribs/minjugg/src/tinyexpr.c:308-539 | every text that compiles is a text of the grammar, read to its end, with its meaning |
| TinyExprGrammar.ProductsBeforeSums | contribs/minjugg/src/tinyexpr.c:471-498 | "*", "/" and "%" bind tighter than "+" and "-", to the left and to the right of them, between any operands |
| TinyExprGrammar.PowersFirst | contribs/minjugg/src/tinyexpr.c:457-498 | "^" binds tighter than all of these, on either side |
| TinyExprGrammar.CommasLast | contribs/minjugg/src/tinyexpr.c:501-511 | "," binds weaker than every operator, on either side |
| TinyExprGrammar.LeftToRight | contribs/minjugg/src/tinyexpr.c:457-498 | operators that bind alike, "^" among them, group to the left |
| TinyExprGrammar.SignsBeforePowers | contribs/minjugg/src/tinyexpr.c:437-469 | a sign binds tighter than "^" |
| TinyExprGrammar.Unambiguous | contribs/minjugg/src/tinyexpr.c:308-511 | one text has one meaning |
| TinyExprGrammar.RoundTrip | contribs/minjugg/src/tinyexpr.c:308-539 | every complete tree, printed with the parentheses the grammar requires, compiles back to itself |
| TinyExprGrammar.CompiledIsWellFormed | contribs/minjugg/src/tinyexpr.c:383-410 | a compiled tree lacks no argument, and printing and compiling it again gives the same tree |
| TinyExpr.Parser.Base | contribs/minjugg/src/tinyexpr.c:308-434 | moving the shared state leaves the tree, the position and the failures of the base level that the grammar theorems are about |
| TinyExpr.Parser.Arguments | contribs/minjugg/src/tinyexpr.c:396-404 | left early or not, the argument loop gives the arguments, the counter and the position that decide whether the call is complete |
| TinyExpr.Parser.Power | contribs/minjugg/src/tinyexpr.c:437-455 | the sign loop: negated exactly for an odd number of minus signs |
| TinyExpr.Parser.Factor | contribs/minjugg/src/tinyexpr.c:457-469 | the loop leaves the tree and position of the factor level: powers grouped to the left |
| TinyExpr.Parser.Term | contribs/minjugg/src/tinyexpr.c:471-483 | the loop over "*", "/" and "%" leaves the tree and position of the term level, which AcceptsGrammar and ProductsBeforeSums are about |
| TinyExpr.Parser.Expr | contribs/minjugg/src/tinyexpr.c:486-498 | the same for "+" and "-" |
| TinyExpr.Parser.List | contribs/minjugg/src/tinyexpr.c:501-511 | the same for the comma operator |
| TinyExpr.CompileText | contribs/minjugg/src/tinyexpr.c:514-539 | a tree exactly when the whole text has been read; it is the tree of the grammar theorems, grouped as ProductsBeforeSums, PowersFirst, CommasLast and LeftToRight say |
| Builtins.FindBuiltin | contribs/minjugg/src/tinyexpr.c:155-174 | on an alphabetical table the binary search finds an entry exactly when there is one |
| Builtins.BuiltinsAlphabetical | contribs/minjugg/src/tinyexpr.c:121-153 | the table of built-in functions is alphabetical for that comparison |

## Left out

- Integer widths: indices, sizes and counters are unbounded, so overflow of 32 and 64 bit products is not modelled.
- Floating-point rounding and NaN: elements are exact values; measurements and the 0.1 test of the advisor are exact real arithmetic.
- Blosc2, Caterva, MKL, LLVM, hwloc and files: a compressed chunk is its data, a slice reads and writes exact elements, a block product is an exact multiply-accumulate; allocation failures and I/O errors do not occur.
- Chunk and block zero tests: only what a positive answer means is used, not how the headers are decoded.
- src/linalg/iarray_gemm_a.c: mirrors iarray_gemm_b.c with A's blocks in the scratch buffer; it would repeat the same proof.
- src/linalg/iarray_gemv.c: a one-column product whose clipping relies on the same zero padding as Gemm; it would add easier members.
- The matmul iterator: plain counter arithmetic with no caller in the modelled paths.
- MultiAxis.ReduceMulti: requires at least one axis and no axis equal to the number of dimensions. The source's check lets that axis through (MultiAxis.CollectAxes says exactly what passes) and then indexes past the shape; with no axis it returns no array.
- MultiAxis.ReducePlain: the same two cases.
- MultiAxis.ReduceMean: the same two cases; and nothing is said about the mean over an empty axis, which the source divides by zero.
- VAR and STD with a correction, NaN-skipping reductions and the MKL kernels of the optimized per-axis path: the step function is a parameter. The conversion of the element type in the first pass of a per-axis reduction is not modelled.
- GemmB.OptGemmB: an empty inner axis under a C that has elements: B then has no chunk, and the source goes on with the chunk pointer it did not get.
- BlockIter.WriteIterator: containers without elements are left out, because the source divides by a zero chunk count there; the same holds for Eval.IterChunk, EvalBlosc.IterBlosc and ElemWriter.
- BlockIter.WriteIterator over compressed chunks is EvalBlosc.ChunkWriter, which keeps whole chunks instead of elements. Compressed chunks are handed over to Blosc2 together with their memory; what a second query at the end does to that memory is not modelled, in EvalBlosc.ChunkWriter or elsewhere.
- ExternalWriter covers external buffers of chunks that are not compressed. The read iterator never frees an external buffer: there only the size check and the owner differ.
- EvalBlosc.IterBlosc: the window passed to compiled functions is not modelled (its first branch clips only to the array's end), nor are operands without compression, which are read the same way; at most eight dimensions, as in the source.
- Constructor.Construct: chunk_info.shape, which subtracts itself and is not used, and the custom callbacks around chunks and blocks.
- Constructor.ProxyWindow: the handler that reads the remote slice and the copy into the padded block.
- ElemIter.ElementReader and BlockIter.ReadIterator over transposed views: the slice function stands for whatever the view reads.
- Partition.PartitionAdvice: requires that both halving loops can end, that is a single item fits the maximum or is below the minimum; otherwise the source loops forever (Partition.NeverEnds).
- BTuneRuns.WholeRun: HCR mode has no such bound (BTuneHcr.StopsExactly) and a hint may name a codec whose level is capped; both have the bound of BTuneRepeat.EveryConfiguration, which also says what the repeating modes do.
- BTuneSpec.InitIsSafe: HCR mode with neither ZSTD nor ZLIB compiled in reads an empty codec list, which is left out.
- BTune block size, shuffle size, thread and memcpy states: they are switched off, and BTunePhases proves that no run gets there; what they would do to the parameters is not modelled. Logging and timing are left out.
- Parser: numbers, names and operators arrive as tokens; user-defined functions, closures and code generation are not modelled. A user-defined function without arguments could never be called in the source.
- Random generators, metadata layers, views, storage copies, data-type dispatch, threads, examples and benchmarks.
