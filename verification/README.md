# Verified models of AHASD

AHASD simulates speculative decoding on an NPU with processing-in-memory DRAM. This project models the
algorithms and state machines inside the simulator whose correctness everything else leans on, and proves
what they keep. It verifies with Dafny 4.11: `dafny verify dfyconfig.toml`.

| module | models |
|---|---|
| `HalfSpec`, `HalfRounding`, `HalfNormalize`, `HalfNaN`, `HalfMulDiv`, `HalfAdd`, `HalfSqrt`, `HalfConvert` | binary16 arithmetic and conversions of `half.h`, against sections 3.4, 4.3.1, 5.4.1 and 5.4.2 of IEEE 754-2008 |
| `ConvMapping`, `GemmMapping`, `MappingCommon` | the tile searches for convolutions and matrix products |
| `Crossbar`, `CrossbarTiming` | the round-robin interconnect, and who is served when |
| `Routing`, `BypassAnswers`, `DramOrder`, `PimBackend`, `PimBooks`, `Ssrc`, `SsrcLedger` | the path of a memory request through a channel, the PIM overlay and the coordinator of deferred rounds |
| `Systolic`, `Scratchpad`, `Tiles`, `VectorUnit` | the core: pipelines, scoreboard, tiles and the programs they dispatch, adder tree |
| `ExactTiming`, `CoreLedger`, `TileLedger` | when exactly instructions start and finish, what a cycle moves, and which tile goes next |
| `Refinement`, `TileSafety`, `GemmProgram`, `GemmPlaces` | the core under its tiles against the core alone, which programs keep it safe, which of a matrix product's do, and where those put its pieces |
| `CoreSteps`, `TileSteps`, `AccumulatorRuns`, `Overtaking`, `BiasRun` | concrete runs of the core, each leading to a state that shows something amiss |
| `Ipoly` | the channel hash |
| `Replay`, `ReplayHistory` | draft lengths, prefix acceptance and pre-verification of the trace replay |
| `AddressMapping`, `AddressSlices`, `ClockDomain` | address decoding and clock crossing of the DRAM model |
| `Pow2s`, `Numbers`, `Options` | shared arithmetic and options |

How to read it. What the source updates in place is a class or an array here, and its methods are proved
against functions on the state (`Now()`, `State()`); what the repository relies on is proved about those
functions. Whole runs are sequences of events with arbitrary arguments; whatever lies outside (when the DRAM is full and
what it answers, what the scheduler decides, entropies and random draws) is an argument of an event, so the
results hold for all of it.

Half precision: a finite magnitude is a whole number of units of 2^-24 (`Mag`), and 0x7C00 stands for 2^16,
so that rounding into infinity is rounding to the next pattern. `NearestEven(n, d, r)` compares r with every
other pattern. Shifts and masks on naturals are `Shr` and `Low`, quotient and remainder by a power of two.

## Where the code and its comments disagree

The models follow the code.

- ONNXim/src/Hashing.cc:21 calls the hash for 16 banks IPOLY(5). Its taps are those of x^4 + x + 1, and the other
  two are those of x^5 + x^2 + 1 and x^6 + x + 1 (`Ipoly.TapsAreColumns`).
- ONNXim/src/Interconnect.cc never initialises `_rr_start`; the results hold from any start below the number of nodes.
- scripts/run_etcc_trace_replay.py:263-265 says that a rejected prefix proves that the rest cannot be committed. With length
  decay a token is likelier in a longer draft, and the rest may well be committed (`Replay.CommittableSuffixIsCut`).
- ONNXim/src/SystolicWS.cc:55 subtracts the start cycle but adds the offset it should subtract (`Systolic.BubbleOvercounts`,
  `CoreSteps.BubbleIff`).
- ONNXim/src/SSRC.h:101 overwrites the record of a request deferred twice and keeps its first reservation
  resident for good (`Ssrc.RedeferralLeaks`).
- ONNXim/src/Core.cc:84 says that an accumulating tile uses the same buffer. It does exactly when the tile in flight has the
  buffer of the tile it continues or, with none in flight, when that was half 0 (`Tiles.AccumulatorKept`; all three ways it can
  turn out are reached by the runs of `AccumulatorRuns`).
- ONNXim/src/Core.cc:182-192 hands a tile back as soon as its last instruction has finished, whatever else of it is still in
  flight. For programs that settle nothing is (`TileSafety.EveryRunIsSafe`); others can fail (`Overtaking.OvertakenTileFails`). Of
  the programs of ONNXim/src/operations/GemmWS.cc all settle (`GemmProgram.GoodIff`) but that of the first tile of a product with
  bias whose inner dimension is split: lines 118-133 load the bias, line 255 leaves the store to a later tile, and nothing waits for
  the bias (`BiasRun.BiasedTileFails`).
- ONNXim/src/Hashing.cc:34-36 claims conflict freedom for all strides 2^n. It holds exactly for those whose n bits end inside the
  hashed range (`Ipoly.AddressConflictFree`, `Ipoly.PastTheRange`).

## What is assumed of the inputs

- A load has one source address per unit of its size, and at least one; a compute instruction that allocates its destination
  announces at least one write (`Systolic.WellFormed`). Memory answers only requests that were sent.
- A tile in flight has an identity of its own, as its address is in the source (`Tiles.Fresh`).
- Nothing else is assumed of the programs of tiles, except where a result says so: that they settle (`TileSafety.Settling`),
  which can be read off a program's addresses before the tile is issued, or are issued over quiet halves (`Refinement.Calm`).
- A tile of a matrix product has a row, a column and some depth, and its operands lie below the accumulator's addresses
  (`GemmProgram.FromMapping`).
- The tile search of a convolution ends: some tile fits, or the scratchpad has a row (`ConvMapping.CanShrink`).
- The array has at least one row and one column (`Systolic.Setup`).

## Model

| member | source | states |
|---|---|---|
| `HalfMulDiv.Mul` | PIMSimulator/lib/half.h:2745-2773 | for all pairs of bit patterns the product is the exact product rounded to nearest, ties to even, under the right sign: subnormals, sticky bits, overflow to infinity and underflow included; zeros, infinities and NaN as IEEE 754-2008 asks |
| `HalfMulDiv.Div` | PIMSimulator/lib/half.h:2783-2815 | the same for the quotient, with division by zero giving a signed infinity |
| `HalfAdd.Add` | PIMSimulator/lib/half.h:2676-2720 | the same for the sum, including cancellation, alignment by any exponent difference and carry into infinity |
| `HalfAdd.Sub` | PIMSimulator/lib/half.h:2729-2736 | x - y is the correctly rounded sum of x and y with its sign flipped |
| `HalfAdd.Negate` | PIMSimulator/lib/half.h:2667 | flips the sign bit of any pattern, infinities and NaN included, and nothing else; on finite ones that is negation |
| `HalfSqrt.Sqrt` | PIMSimulator/lib/half.h:3379-3394 | the square root of every non-negative half is strictly nearer to the result than to any other pattern (a tie is impossible); -0 and the special values as the standard asks |
| `HalfSqrt.SqrtPositive` | PIMSimulator/lib/half.h:3387-3393 | normalisation, digit loop and final rounding give the pattern nearest to the root |
| `HalfSqrt.FixedSqrt` | PIMSimulator/lib/half.h:1611-1625 | for every even F and radicand below 2 in Q1.F, the digit loop returns m = floor(sqrt(r0)) and leaves r0 - m*m, where r0 is the radicand adjusted for an odd exponent |
| `HalfSqrt.RootRounds` | PIMSimulator/lib/half.h:3393 | remainder > root decides whether the root lies above the midpoint of two neighbours |
| `HalfSqrt.NearestRootIsNearest` | PIMSimulator/lib/half.h:3379-3394 | where the root is rational, the definition used for roots is rounding to nearest even |
| `HalfConvert.NarrowRounds` | PIMSimulator/lib/half.h:1028-1054 | every finite 64-bit pattern narrows to the nearest-even half of the number it denotes, keeping its sign; infinity stays infinity and NaN stays NaN |
| `HalfConvert.NarrowNormal` | PIMSimulator/lib/half.h:1040-1044 | the branch for normal results: ten fraction bits, guard bit 9, the rest sticky |
| `HalfConvert.NarrowSubnormal` | PIMSimulator/lib/half.h:1045-1050 | the branch for subnormal results: hidden bit included, shifted by the exponent |
| `HalfConvert.NarrowOverflow` | PIMSimulator/lib/half.h:1040-1041 | from 2^16 up everything rounds to infinity |
| `HalfConvert.NarrowUnderflow` | PIMSimulator/lib/half.h:1051-1053 | below half the least subnormal everything rounds to zero |
| `HalfConvert.Widen` | PIMSimulator/lib/half.h:1397-1414 | widening a finite half gives a double of exactly its value; narrowing it again gives back the half |
| `HalfConvert.WidenThenNarrow` | PIMSimulator/lib/half.h:1028-1054 | any double that equals a non-NaN half narrows to that half, so narrowing after widening is the identity |
| `HalfConvert.Int2Half` | PIMSimulator/lib/half.h:1107-1123 | every integer converts to its nearest-even half, through either normalisation loop |
| `HalfRounding.RoundMantissa` | PIMSimulator/lib/half.h:836-856 | an exact value described by mantissa, guard and sticky bit is rounded correctly by one addition to the bit pattern, whatever carries that causes up to infinity |
| `HalfRounding.Fixed2HalfRounds` | PIMSimulator/lib/half.h:905-919 | fixed2half rounds every Q1.F mantissa correctly over its whole exponent range, subnormal results included |
| `HalfMulDiv.FinishFixedRounds` | PIMSimulator/lib/half.h:2767-2771 | the overflow and underflow exits and fixed2half together round correctly for every exponent |
| `HalfMulDiv.MulNormalRounds` | PIMSimulator/lib/half.h:2763-2771 | the product of two normalised mantissas, with its spilled bit kept as sticky, rounds correctly |
| `HalfMulDiv.DivNormalRounds` | PIMSimulator/lib/half.h:2803-2813 | integer division of the shifted mantissas, with the remainder as sticky bit, rounds correctly |
| `HalfAdd.AddMagnitudesRounds` | PIMSimulator/lib/half.h:2697-2718 | adding aligned significands with three guard bits rounds the exact sum correctly |
| `HalfAdd.SubMagnitudes` | PIMSimulator/lib/half.h:2697-2718 | subtracting them, with the normalisation loop, rounds the exact difference correctly, zero exactly when the magnitudes are equal |
| `HalfAdd.AlignOperands` | PIMSimulator/lib/half.h:2697-2703 | the smaller significand, shifted right with its lost bits jammed into the last, still stands for its exact value |
| `HalfNormalize.Normalize` | PIMSimulator/lib/half.h:2759-2762 | the loop shifts a subnormal up to the hidden bit without changing the value it denotes |
| `HalfNaN.Quiet` | PIMSimulator/lib/half.h:727-732 | a NaN operand makes a NaN result |
| `HalfSpec.MagSucc` | PIMSimulator/lib/half.h:836-856 | key lemma: the successor of a bit pattern is the next representable magnitude, one unit in the last place up, across binades and into infinity |
| `HalfSpec.MagIsMantissaTimesExponent` | PIMSimulator/lib/half.h:905-919 | the reading of a pattern used here is mantissa times two to the exponent (section 3.4 of IEEE 754-2008) |
| `HalfSpec.NearestEvenUnique` | PIMSimulator/lib/half.h:836-856 | correct rounding names one pattern only, so each operation's result is determined |
| `HalfSpec.NearestInBracket` | PIMSimulator/lib/half.h:836-856 | between two neighbours the midpoint decides, and the even one takes a tie |
| `ConvMapping.CalcMapping` | ONNXim/src/Mapping.cc:393-548 | whenever the search ends at all, it succeeds exactly if the all-ones tile fits, and divides by zero otherwise; if it succeeds, its tile is what the shrunk tile (ShrunkIsFirst, ShrunkIsCut) grows to (WidenedIsLargest, GrownInPasses); it fits both row budgets with every dimension between 1 and the layer's, is maximal in every single dimension, and outer times inner covers every loop of the layer |
| `ConvMapping.NothingFits` | ONNXim/src/Mapping.cc:446-477 | if the all-ones tile does not fit, no tile does, and from any layer the shrink loop comes to the tile without a batch; that fits exactly if the scratchpad has a row at all, and without a row the loop goes on to a tile it turns into itself, and never ends |
| `ConvMapping.BatchKept` | ONNXim/src/Mapping.cc:480-548 | a batch that the shrink loop lost does not come back while the tile grows, so the outer count then divides by zero; one that it kept is not lost |
| `ConvMapping.StepDown` | ONNXim/src/Mapping.cc:447-469 | one turn of the shrink loop comes nearer to its end and does not change where it ends |
| `ConvMapping.Search` | ONNXim/src/Mapping.cc:431-530 | the three loops together, on the array they share, end in the tile that the shrunk one grows to; it fits, is maximal, and has a batch exactly if the all-ones tile fits |
| `ConvMapping.Shrink` | ONNXim/src/Mapping.cc:446-477 | the shrink loop ends, and in the tile that repeated turns (TurnIs) arrive at first that fits |
| `ConvMapping.ShrunkFits` | ONNXim/src/Mapping.cc:446-477 | that tile is inside the original one, and positive and fitting if the all-ones tile fits; if not, it is all ones but for its batch, which is gone |
| `ConvMapping.TurnIs` | ONNXim/src/Mapping.cc:447-469 | one turn takes the first of the largest unspared dimensions, a channel dimension to the greatest multiple of the array size strictly below it or 1 if there is none, and any other down by exactly one; nothing else changes |
| `ConvMapping.ReducedTo` | ONNXim/src/Mapping.cc:459-469 | the arithmetic of that step, remainders included |
| `ConvMapping.ShrunkIsFirst` | ONNXim/src/Mapping.cc:446-477 | if some tile fits, the shrunk tile is reached from the layer by such turns, each made on a tile that does not fit |
| `ConvMapping.ShrunkIsCut` | ONNXim/src/Mapping.cc:446-477 | each channel dimension of the shrunk tile is the layer's own, a multiple of the array size, or 1 |
| `ConvMapping.FitsIff` | ONNXim/src/Mapping.cc:400-446 | a tile fits exactly if twice its rows go into the scratchpad and twice its output rows, at four bytes an element, into the accumulator |
| `ConvMapping.ExtentIs` | ONNXim/src/Mapping.cc:351-391 | how many inputs along one dimension the row count takes for so many outputs, stride, kernel and downsampling included |
| `ConvMapping.SizeOkMeans` | ONNXim/src/Mapping.cc:505-530 | the size check of the last growth loop, as one inequality between bytes |
| `ConvMapping.SelectLargest` | ONNXim/src/Mapping.cc:447-457 | the scan finds the first of the largest dimensions among those not spared |
| `ConvMapping.LargestAboveOne` | ONNXim/src/Mapping.cc:447-457 | in any tile but the all-ones one the chosen dimension is above 1, so the reduction makes progress and stays positive |
| `ConvMapping.GrowColumns` | ONNXim/src/Mapping.cc:480-501 | output columns grow one at a time until one more would leave the layer or a row budget; nothing else changes |
| `ConvMapping.GrowPass` | ONNXim/src/Mapping.cc:505-530 | a pass gives every dimension its turn, keeps the tile fitting, and either grows it or finds that no dimension can grow |
| `ConvMapping.GrowAll` | ONNXim/src/Mapping.cc:504-530 | the growth loop repeats passes until one changes nothing, and then no dimension can grow by one |
| `ConvMapping.WidenedIsLargest` | ONNXim/src/Mapping.cc:479-501 | of the numbers of output columns from the shrunk tile's to the layer's, the tile fits with exactly those up to the one the column loop ends with |
| `ConvMapping.GrownInPasses` | ONNXim/src/Mapping.cc:503-530 | the last loop is a row of passes, each strictly larger than the one before, and ends with a pass that changes nothing; in a pass each dimension in turn grows by one exactly if that stays inside the layer and both row budgets and the tile as it is passes the size check |
| `ConvMapping.RowsMono` | ONNXim/src/Mapping.cc:351-391 | a larger tile never needs fewer rows of either buffer |
| `ConvMapping.RowCounts` | ONNXim/src/Mapping.cc:351-391 | the row count formula is input rows plus weight rows, or output rows, each rounded up to whole banks |
| `ConvMapping.FittingTileExists` | ONNXim/src/Mapping.cc:446-477 | some tile fits exactly when the all-ones tile does, so the search serves every layer it could |
| `ConvMapping.FitsIsDoubleBuffered` | ONNXim/README.md:188 | a tile within the row budgets takes at most half the scratchpad for inputs and weights, and half the accumulator for outputs, in bytes |
| `ConvMapping.MappingCovers` | ONNXim/src/Mapping.cc:532-547 | every loop of the layer is covered by ceil-divided outer times inner |
| `GemmMapping.GemmMapping` | ONNXim/src/Mapping.cc:52-117 | for every matrix size, core count and buffer size: the program divides by zero exactly when the configuration is infeasible; otherwise operand tiles take at most half the scratchpad, the output tile at most half the accumulator, inner sizes are positive multiples of the array size and outer times inner covers the matrix with less than one tile to spare; ChosenIsTiling says which such tile it is |
| `GemmMapping.Finish` | ONNXim/src/Mapping.cc:82-113 | the same for the second half, from the tile counts on, with both balancing steps (SpreadReachesCores, EvenAddsRest) |
| `GemmMapping.ChosenIsTiling` | ONNXim/src/Mapping.cc:52-117 | the chosen tile without the functions that compute it: least tile counts within the limits, then both balancing steps, then the largest multiple of the array size within each padded length over its count, rounded up |
| `GemmMapping.SpreadReachesCores` | ONNXim/src/Mapping.cc:82-91 | with fewer tiles than cores and one dimension strictly longer and above the core count, its count is multiplied by the least factor that gives every core a tile; the other count is unchanged, and in every other case nothing changes |
| `GemmMapping.EvenAddsRest` | ONNXim/src/Mapping.cc:92-99 | with tiles left over after whole rounds over the cores, the count along the strictly longer dimension, if that is above the core count, grows by exactly as many; in every other case nothing changes |
| `GemmMapping.TilesLeast` | ONNXim/src/Mapping.cc:78-80 | a tile count is enough to keep every tile within the limit exactly if it is at least the computed one |
| `GemmMapping.InnerLargest` | ONNXim/src/Mapping.cc:101-107 | the inner size is the largest multiple of the array size within the padded length divided by the tile count, rounded up |
| `GemmMapping.LimitsAreTight` | ONNXim/src/Mapping.cc:71-76 | an output tile takes at most half the accumulator exactly if it is within the limit, and operand tiles at most half the scratchpad exactly if they are |
| `GemmMapping.OneCoreIsFeasible` | ONNXim/src/Mapping.cc:82-99 | with one core, positive tile limits are enough |
| `GemmMapping.InnerPositive` | ONNXim/src/Mapping.cc:101-107 | a tile keeps at least one whole block exactly when the tile count is small enough: the condition on balancing the cores |
| `GemmMapping.FewTilesPositive` | ONNXim/src/Mapping.cc:101-107 | never more tiles than blocks is enough for that |
| `GemmMapping.TilesEnough` | ONNXim/src/Mapping.cc:78-80 | cut into that many tiles, none is longer than the limit |
| `GemmMapping.SpreadGrows` | ONNXim/src/Mapping.cc:82-91 | balancing towards at least one tile per core only ever adds tiles; SpreadReachesCores says how many |
| `GemmMapping.EvenGrows` | ONNXim/src/Mapping.cc:92-99 | evening out the last round of tiles only ever adds tiles; EvenAddsRest says how many |
| `GemmMapping.RootBound` | ONNXim/src/Mapping.cc:71-76 | the output tile limit is the integer square root of what the accumulator half holds |
| `GemmMapping.DepthBound` | ONNXim/src/Mapping.cc:71-76 | the depth limit keeps both operand tiles inside the scratchpad half |
| `MappingCommon.BlocksIsCeilDiv` | ONNXim/src/Mapping.cc:373-375 | quotient plus one for a remainder is ceil_div |
| `Numbers.CeilDivCovers` | ONNXim/src/Common.cc:267 | ceil_div is the least count of pieces that covers everything |
| `Numbers.CeilDivAtMost` | ONNXim/src/Common.cc:267 | and is at most a bound exactly when that many pieces suffice |
| `Crossbar.SimpleInterconnect.Cycle` | ONNXim/src/Interconnect.cc:27-45 | one call serves the nodes in round-robin order exactly as the specified round does |
| `Crossbar.SimpleInterconnect.Push` | ONNXim/src/Interconnect.cc:47-56 | a packet is queued behind its predecessors, ready a latency later or one cycle after the last |
| `Crossbar.SimpleInterconnect.Pop` | ONNXim/src/Interconnect.cc:72-75 | takes the oldest packet off one out-buffer |
| `Crossbar.SimpleInterconnect.Top` | ONNXim/src/Interconnect.cc:67-70 | shows that packet |
| `Crossbar.SimpleInterconnect.IsEmpty` | ONNXim/src/Interconnect.cc:63-65 | tells whether there is one |
| `Crossbar.EveryRunConserves` | ONNXim/src/Interconnect.cc:27-75 | from any starting position of the round robin and over every run of pushes, cycles and pops: what entered each source is what was delivered from it plus what it still holds, in order, and likewise for each destination; no packet is lost, copied or overtaken |
| `Crossbar.ServeConserves` | ONNXim/src/Interconnect.cc:28-38 | one round moves packets only from the fronts of in-buffers to the backs of out-buffers |
| `Crossbar.StepConserves` | ONNXim/src/Interconnect.cc:27-75 | every single event keeps that |
| `Crossbar.OnePerDestination` | ONNXim/src/Interconnect.cc:28-42 | no cycle delivers two packets to the same node |
| `Crossbar.FirstIsServed` | ONNXim/src/Interconnect.cc:28-38 | a ready source that is first in the round is served |
| `Crossbar.CycleServesOrNears` | ONNXim/src/Interconnect.cc:27-45 | in one cycle a ready head is delivered, or stays ready with its turn one cycle nearer |
| `Crossbar.BoundedWait` | ONNXim/src/Interconnect.cc:27-45 | a ready head-of-queue packet is delivered within as many cycles as there are nodes, whatever is pushed and popped in between |
| `CrossbarTiming.ServedIff` | ONNXim/src/Interconnect.cc:27-45 | one cycle takes from a source its head exactly if that is due and the source is first in the round among all with something due for the same node, and nothing otherwise |
| `CrossbarTiming.DeliveredAfterLatency` | ONNXim/src/Interconnect.cc:27-56 | over every run a packet that finds its in-buffer empty is not delivered in the next latency cycles, and then within as many cycles as there are nodes |
| `CrossbarTiming.NextIsDue` | ONNXim/src/Interconnect.cc:27-56 | over every run the packet behind a head is due one cycle after it, so in the cycle after the head's delivery |
| `CrossbarTiming.NotBeforeDue` | ONNXim/src/Interconnect.cc:28-38 | over every run nothing leaves a source before its head is due |
| `CrossbarTiming.SoonAfterDue` | ONNXim/src/Interconnect.cc:28-38 | over every run it leaves within as many cycles as there are nodes after that |
| `Routing.MemoryChannels.TakeTurn` | ONNXim/src/Simulator.cc:342-486 | one channel's share of a cycle does exactly what the specified turn does; BypassAnswers.TurnAnswers says what that is |
| `BypassAnswers.TurnAnswers` | ONNXim/src/Simulator.cc:351-486 | all of what a turn does to the queues behind the choice of a command: what is selected joins the queue of its route with its release cycle; the front of each bypass queue is answered in this turn exactly if it is due and the interconnect accepts it; the front of the hold queue enters the DRAM exactly if it is due and accepted; the DRAM answers what it has ready |
| `BypassAnswers.EveryBypassIsAnswered` | ONNXim/src/Simulator.cc:449-486 | over every run a request in a bypass queue that is due, with n others before it, is answered by the turn in which the interconnect accepts the front of that queue for the (n + 1)-st time |
| `BypassAnswers.AnsweredNotBefore` | ONNXim/src/Simulator.cc:407-486 | over every run a request that a turn hands to a bypass in cycle t is in that queue with release t + latency, and neither in the DRAM nor in the responses, until the latency has passed |
| `BypassAnswers.RouteIs` | ONNXim/src/Simulator.cc:382-438 | which of the four routes a request takes, by channel, tags, coordinator, fusion and the channel's deadline |
| `Routing.SlotsCount` | ONNXim/src/Simulator.cc:344-350 | a turn counts a slot exactly if its channel is a PIM channel on which anything waits |
| `Routing.MemoryChannels.DrainHold` | ONNXim/src/Simulator.cc:344-362 | counting the candidate slot and draining the front of the hold queue |
| `Routing.MemoryChannels.Refill` | ONNXim/src/Simulator.cc:366-373 | the issue queue takes as much from the interconnect as its limit allows, in order |
| `Routing.MemoryChannels.Decide` | ONNXim/src/Simulator.cc:389-438 | the two bypasses are asked first, then the channel; the route, the backend's and the coordinator's new state are as specified |
| `Routing.MemoryChannels.Candidate` | ONNXim/src/Simulator.cc:374-381 | the command to issue, and the queues without it |
| `Routing.MemoryChannels.Issue` | ONNXim/src/Simulator.cc:374-448 | that command goes where it was decided, or stays if the DRAM is full |
| `Routing.MemoryChannels.SelectPimCommand` | ONNXim/src/Simulator.cc:208-229 | the three scans find the specified command |
| `Routing.EveryRunKeeps` | ONNXim/src/Simulator.cc:342-486 | in every reachable state every request is in exactly one of interconnect output, issue queue, hold queue, AAU bypass, SSRC bypass, DRAM and responses; issued commands plus held requests = PIM requests = reads + writes; issued commands are at most twice the candidate slots; issue queues keep their limit; hold queues are sorted within the channel deadline; the bypassed counts and bytes of backend and coordinator agree |
| `Routing.TurnKeeps` | ONNXim/src/Simulator.cc:342-486 | one channel's turn keeps all of that for the whole system |
| `Routing.StepKeeps` | ONNXim/src/Simulator.cc:342-486 | so does every other event: arrivals, mode switches, holds, the coordinator's rounds |
| `Routing.ExactlyOnePlace` | ONNXim/src/Simulator.cc:342-486 | a request that came in once is in exactly one place, and one that took a bypass never enters the DRAM |
| `Routing.SelectionPolicy` | ONNXim/src/Simulator.cc:208-229 | with the scheduler on, the oldest acceptable read of the target model if there is one, else the oldest acceptable command; with it off, the oldest command |
| `Routing.SchedulerIssues` | ONNXim/src/Simulator.cc:363-448 | with the scheduler on, if the DRAM accepts any command that is queued or comes in, then one leaves in this very turn: the oldest acceptable read of the target model if there is one, else the oldest acceptable command; the rest keep their order |
| `Routing.FifoIssues` | ONNXim/src/Simulator.cc:363-448 | with it off, a turn lets the oldest command go if the DRAM accepts it, and no other |
| `Routing.LeavesInOrder` | ONNXim/src/Simulator.cc:342-486 | over every run with it off, and for channels outside the PIM ranks in any case: what left the queues in front, followed by what still waits there, is what came in, in that order |
| `DramOrder.DirectPushOvertakes` | ONNXim/src/Simulator.cc:351-362 | but it need not enter the DRAM in that order. Over every run: what a turn issues goes past requests that were held back before it exactly if no bypass takes it, the channel's deadline has passed, and the hold queue is not empty once its front had its chance; whatever it goes past is due as well |
| `DramOrder.ThirdGoesFirst` | ONNXim/src/Simulator.cc:351-438 | a run in which that happens: of two requests held until cycle 5 one goes on in cycle 5, and a third goes past the other |
| `Routing.HeldUntilDeadline` | ONNXim/src/Simulator.cc:351-362 | over every run: a request that a turn holds back stays in the hold queue, and out of the DRAM and the responses, until min(channel deadline when it was queued, then + 2^32 - 1); that is never before the deadline exactly when the hold fits 32 bits |
| `Routing.StaysHeld` | ONNXim/src/Simulator.cc:351-362 | over every run nothing leaves a hold queue before its release cycle |
| `Routing.HeldOnTurn` | ONNXim/src/Simulator.cc:427-438 | the release cycle with which a request is queued |
| `Routing.RunLater` | ONNXim/src/PIMBackend.cc:192-238 | over every run no channel's deadline moves back |
| `Routing.FrontExpiresFirst` | ONNXim/src/Simulator.cc:351-362 | in a queue sorted by release, which every reachable one is, draining only the front never leaves an expired request behind an unexpired one |
| `Routing.LandedKeeps` | ONNXim/src/Simulator.cc:400-447 | whichever of the four routes is taken, the request ends up in that place only and the hold queue stays sorted |
| `Routing.CountedOnce` | ONNXim/src/PIMBackend.cc:86-175 | whatever its route, the backend counts a PIM request once, as a read or a write, and books a bypassed write as the coordinator does |
| `PimBackend.PIMBackend.OnDramPush` | ONNXim/src/PIMBackend.cc:86-111 | counts the request and asks for a hold up to the channel deadline, clipped to 32 bits |
| `PimBackend.PIMBackend.TrySsrcBypass` | ONNXim/src/PIMBackend.cc:113-150 | takes exactly the tagged writes of currently deferred requests on PIM channels, and notes them with the coordinator |
| `PimBackend.PIMBackend.TryAauBypass` | ONNXim/src/PIMBackend.cc:152-175 | takes exactly the tagged requests on PIM channels when fusion is on |
| `PimBackend.PIMBackend.RequestGtsuSwitch` | ONNXim/src/PIMBackend.cc:192-203 | a mode change holds the channel until it is done and never moves a deadline back |
| `PimBackend.PIMBackend.SwitchAllPimTo` | ONNXim/src/PIMBackend.cc:210-219 | the loop over channels is the specified fold; it reports whether some channel switched, and then the cycle at which the latest switch is over |
| `PimBackend.PIMBackend.ScheduleHold` | ONNXim/src/PIMBackend.cc:229-238 | a deadline only ever moves on |
| `PimBackend.PIMBackend.ScheduleHoldAllPim` | ONNXim/src/PIMBackend.cc:221-227 | the loop over channels is the specified fold |
| `PimBackend.SwitchAllFacts` | ONNXim/src/PIMBackend.cc:210-219 | afterwards every PIM channel is in the new mode; one that changed is held until exactly the later of its old deadline and the end of the switch, and every other keeps its own |
| `PimBackend.ScheduleAllFacts` | ONNXim/src/PIMBackend.cc:221-227 | afterwards every PIM channel's deadline is the later of its own and the new one; no other channel changed |
| `PimBooks.IssueBooks` | ONNXim/src/PIMBackend.cc:79-175 | what the issue of one request adds to each of the overlay's statistics, whatever its route |
| `PimBooks.SwitchBooks` | ONNXim/src/PIMBackend.cc:192-203 | a mode change: mode, deadline and the switch counter, and nothing for a channel already in the mode |
| `PimBooks.HoldBooks` | ONNXim/src/PIMBackend.cc:229-238 | a hold asked for by another part: the deadline, and the cycles by which it moved |
| `PimBooks.SwitchAllBooks` | ONNXim/src/PIMBackend.cc:210-219 | over all channels the counter grows by the PIM channels that were in another mode |
| `PimBooks.HoldAllBooks` | ONNXim/src/PIMBackend.cc:221-238 | over all channels the held cycles grow by the sum of what each deadline moved |
| `Ssrc.SSRCCoordinator.ShouldDeferRound` | ONNXim/src/SSRC.h:84-108 | defers exactly finite entropies above the threshold whose reservation fits the limit, and books the reservation |
| `Ssrc.SSRCCoordinator.OnRoundVerified` | ONNXim/src/SSRC.h:112-133 | settles the matching round pro rata |
| `Ssrc.SSRCCoordinator.AbortRequest` | ONNXim/src/SSRC.h:135-146 | drops the request's reservation |
| `Ssrc.SSRCCoordinator.NoteBypassedWrite` | ONNXim/src/SSRC.h:154-160 | counts a bypassed write of an active request |
| `Ssrc.SSRCCoordinator.IsActiveRequest` | ONNXim/src/SSRC.h:148-152 | tells whether the request has a deferred round |
| `Ssrc.Accounting` | ONNXim/src/SSRC.h:84-160 | over all runs: active reservations <= resident bytes <= peak <= limit; reserved = saved + replayed + aborted + resident; the left inequality is an equality exactly when no accepted deferral of the run met an active, non-empty reservation of its request; and deferred = committed + discarded + partial + aborted + active exactly when none met an active request |
| `Ssrc.LossIff` | ONNXim/src/SSRC.h:97-103 | bytes, and rounds, are lost exactly by such deferrals |
| `Ssrc.RunBalances` | ONNXim/src/SSRC.h:84-160 | the books, with what re-deferral loses as an explicit item, balance after every run |
| `Ssrc.StepBalances` | ONNXim/src/SSRC.h:84-160 | and after every single event |
| `Ssrc.RedeferralLeaks` | ONNXim/src/SSRC.h:97-103 | the equality does fail otherwise: a concrete run whose reservation stays resident with no active request left |
| `Ssrc.Settlement` | ONNXim/src/SSRC.h:112-133 | nothing accepted replays nothing, everything accepted replays everything |
| `Ssrc.Replayed` | ONNXim/src/SSRC.h:112-133 | the replayed share never exceeds the reservation |
| `SsrcLedger.EveryCounterCounts` | ONNXim/src/SSRC.h:84-160 | over every run each counter is the number of events of its kind |
| `SsrcLedger.AmountsOf` | ONNXim/src/SSRC.h:112-160 | a settlement adds to the replayed bytes the accepted share of the reservation, rounded down, and the rest of it to the saved ones; a bypassed write adds its bytes |
| `SsrcLedger.ReplayedIsShare` | ONNXim/src/SSRC.h:119-123 | the replayed bytes are the accepted share of the reservation, rounded down, for every accepted and drafted length |
| `SsrcLedger.ActiveAfter` | ONNXim/src/SSRC.h:84-146 | which requests have a deferred round after an event, and with what reservation; all others are as before |
| `SsrcLedger.PeakIs` | ONNXim/src/SSRC.h:97-108 | over every run the recorded peak is the largest amount that was resident |
| `Scratchpad.EveryRunKeeps` | ONNXim/src/Sram.cc:39-89 | in every run with counts of at least one: the allocated size is the sum of the entries' and fits; an entry waits for exactly the writes announced minus those that arrived since it was allocated, and is valid exactly when none is missing |
| `Scratchpad.StepKeeps` | ONNXim/src/Sram.cc:39-89 | each operation keeps sizes, capacity and the link between validity and the waiting count |
| `Scratchpad.Waits` | ONNXim/src/Sram.cc:64-89 | the waiting count against the history of announcements and arrivals |
| `Scratchpad.RefusedPrefetch` | ONNXim/src/Sram.cc:45-69 | a prefetch is refused, and changes nothing, exactly when the address is there already or the sum of sizes would not fit |
| `Scratchpad.Sram.Prefetch` | ONNXim/src/Sram.cc:45-69 | reserves an invalid entry or refuses |
| `Scratchpad.Sram.Fill` | ONNXim/src/Sram.cc:71-80 | one write arrives; the last one makes the entry valid |
| `Scratchpad.Sram.CountUp` | ONNXim/src/Sram.cc:82-89 | one more write is announced and the entry is invalid again |
| `Scratchpad.Sram.Flush` | ONNXim/src/Sram.cc:39-43 | empties one half and leaves the other |
| `Scratchpad.Sram.CheckHit` | ONNXim/src/Sram.cc:18-23 | present and valid |
| `Scratchpad.Sram.CheckRemain` | ONNXim/src/Sram.cc:29-31 | whether that much more fits |
| `Scratchpad.Sram.CheckAllocated` | ONNXim/src/Sram.cc:33-35 | whether the address is present |
| `Systolic.SystolicWS.Cycle` | ONNXim/src/SystolicWS.cc:6-108 | one cycle does exactly what the specified phases do, and stops where the source does |
| `Systolic.SystolicWS.StartCycle` | ONNXim/src/SystolicWS.cc:44-66 | the start cycle of a matrix instruction, preload and bubble statistics included; ExactTiming.EveryRunIsOnTime says what it is |
| `Systolic.SystolicWS.Start` | ONNXim/src/SystolicWS.cc:43-76 | the instruction enters its pipeline with its start and finish cycle, which ExactTiming.EveryRunIsOnTime and EveryVectorIsOnTime determine |
| `Systolic.SystolicWS.IssueExInst` | ONNXim/src/SystolicWS.cc:16-78 | the front instruction reserves its destination and starts if it can |
| `Systolic.SystolicWS.ReserveAt` | ONNXim/src/SystolicWS.cc:18-42 | the destination waits for one more write, or is allocated, or the program stops |
| `Systolic.SystolicWS.CanIssueCompute` | ONNXim/src/SystolicWS.cc:110-123 | all sources are hits and the unit has room |
| `Systolic.SystolicWS.FinishComputePipeline` | ONNXim/src/Core.cc:304-323 | the head check of the compute pipeline: its write arrives, and a last instruction marks its tile |
| `Systolic.SystolicWS.FinishVectorPipeline` | ONNXim/src/Core.cc:325-348 | the head check of the vector pipeline, likewise |
| `Systolic.SystolicWS.HandleLdInstQueue` | ONNXim/src/Core.cc:350-399 | a load reserves its destination and sends one request per source |
| `Systolic.SystolicWS.HandleStInstQueue` | ONNXim/src/Core.cc:401-447 | a store leaves once its location is a hit, counts one write request per source, and marks its tile if it is the last instruction |
| `Systolic.SystolicWS.PushWriteResponse` | ONNXim/src/Core.cc:218-221 | the answer to a write request |
| `Systolic.SystolicWS.DispatchInst` | ONNXim/src/Core.cc:131-175 | where a tile's front instruction goes, if it can |
| `Systolic.SystolicWS.PushMemoryResponse` | ONNXim/src/Core.cc:218-229 | a response fills its destination |
| `Systolic.EveryRunIsTimed` | ONNXim/src/SystolicWS.cc:43-69 | over every run, whatever is dispatched, answered and flushed: consecutive matrix instructions satisfy start' >= start + max(size, 4), and + the array height behind a preload; finish cycles strictly increase; each instruction is retired exactly in its finish cycle by the one head check a cycle; what was issued is what was retired followed by the pipeline, which never exceeds the array height; vector operations follow one another, each until its finish cycle and at least to the next cycle |
| `ExactTiming.EveryRunIsOnTime` | ONNXim/src/SystolicWS.cc:43-76 | over every run, with the cycles in which instructions were issued: one issued in cycle c to an empty pipeline starts at c, or at c + 2 * height - 1 if it preloads; any other at the later of c and its predecessor's start plus the predecessor's stream, or the height if it preloads and that is more; and each finishes exactly height + width - 2 and its own stream later |
| `ExactTiming.EveryVectorIsOnTime` | ONNXim/src/SystolicWS.cc:70-76 | over every run a vector operation starts in the cycle of its issue and finishes exactly its own cycles later |
| `Systolic.TickClocked` | ONNXim/src/SystolicWS.cc:6-108 | a cycle keeps time, whatever the scratchpads hold |
| `Systolic.FinishComputeTiming` | ONNXim/src/Core.cc:304-323 | the head check retires an instruction exactly when its finish cycle comes and never leaves one overdue |
| `Systolic.LaunchTiming` | ONNXim/src/SystolicWS.cc:43-69 | a new issue keeps its distance from every earlier one, in the pipeline or retired |
| `Systolic.FinishesInOrder` | ONNXim/src/SystolicWS.cc:125-127 | instructions spaced by their stream finish in order although their latencies differ |
| `Systolic.FinishVectorTiming` | ONNXim/src/Core.cc:325-348 | the vector unit runs one operation at a time, until its finish cycle and at least to the next cycle |
| `Systolic.EveryRunIsSafe` | ONNXim/src/Core.cc:218-248 | in every state reached with any dispatches, answers, and flushes of halves to which nothing is on its way (exactly the flushes that keep the scoreboard: FlushKeepsIff): fill's assert cannot fail, whatever happens next; no instruction can be issued while a write to one of its sources is on its way; and without zero initialisation a location is a hit exactly when it is allocated and no write to it is on its way |
| `Systolic.StepOneKeeps` | ONNXim/src/Core.cc:118-181 | every such event keeps timing, scoreboard and queues |
| `Systolic.TickKeeps` | ONNXim/src/SystolicWS.cc:6-108 | so does a whole cycle |
| `Systolic.ReadsAreSettled` | ONNXim/src/Core.cc:231-248 | what is issued or stored reads nothing that is still being written |
| `CoreLedger.MayGoIff` | ONNXim/src/Core.cc:137-248 | in every state of an orderly run: a compute instruction can be issued exactly if all it reads is there with no write on its way and its unit has room; a load can be dispatched exactly if its destination is free and fits, a store exactly if what it stores is settled |
| `CoreLedger.TickMoves` | ONNXim/src/SystolicWS.cc:6-82 | what one cycle moves: at most one load, compute instruction and store leave their queues, in order, with all their requests; a tile is marked exactly if its last instruction finished or was stored |
| `CoreLedger.TickPipes` | ONNXim/src/SystolicWS.cc:6-82 | what one cycle does to the two pipelines |
| `CoreLedger.TickStatistics` | ONNXim/src/SystolicWS.cc:43-69 | what one cycle adds to the issue, preload and bubble statistics |
| `CoreLedger.ReservationWaits` | ONNXim/src/SystolicWS.cc:16-42 | how many writes a compute instruction makes its destination wait for, and that no other location changes |
| `CoreLedger.LoadWaits` | ONNXim/src/Core.cc:350-399 | a load makes its destination wait for its size, and no other location changes |
| `CoreLedger.AnswerFills` | ONNXim/src/Core.cc:218-229 | an answer makes its own location wait for one write less, and valid exactly with the last |
| `Systolic.HitMeansSettled` | ONNXim/src/Sram.cc:18-23 | a hit has no write on its way |
| `Systolic.FlushKeepsIff` | ONNXim/src/Sram.cc:39-43 | the condition on flushes is exact: the scoreboard survives the flush of a half if and only if no write is on its way to it |
| `Systolic.FlushUnderWriter` | ONNXim/src/Core.cc:218-229 | after a flush the arrival of any write on its way, from either pipeline or from memory, finds the entry that fill asserts exactly if it was not to the flushed half |
| `Systolic.BubbleOvercounts` | ONNXim/src/SystolicWS.cc:53-55 | the bubble statistic adds the offset with the wrong sign: one issue counts twice the offset more than the idle cycles |
| `CoreSteps.BubbleIff` | ONNXim/src/SystolicWS.cc:45-62 | and it does so in some run exactly if the array has at least two rows, and at least four rows and columns together |
| `CoreSteps.BubbleRun` | ONNXim/src/SystolicWS.cc:45-62 | such a run: the array stands idle for one cycle, and the statistic says nine |
| `Refinement.CoreFollows` | ONNXim/src/Core.cc:65-192 | whatever the programs of its tiles, a core under its tiles only does what it does in some run of its own, so that Systolic.EveryRunIsTimed holds of it; and if every issue so far flushed only halves to which nothing was on its way, in a run of Systolic.EveryRunIsSafe |
| `Refinement.CalmRunIsSafe` | ONNXim/src/Core.cc:65-229 | over every such run of well-formed programs, settling or not, fill's assert does not fail in the next step either |
| `Refinement.IssueIsSafeIff` | ONNXim/src/Core.cc:81-88 | and the condition is exact: in every state of such a run an issue keeps the scoreboard in order if and only if nothing is on its way to the halves it flushes; otherwise exactly the writes to these halves no longer find the entry that fill asserts |
| `TileSafety.EveryRunIsSafe` | ONNXim/src/Core.cc:65-196 | over every run of tile issues, cycles and answers from memory in which every program settles (whatever it writes before its last instruction, a later one waits for, or the last one comes behind it in the same unit): every issue flushes only halves to which nothing is on its way, fill's assert never fails, and whatever can be dispatched reads nothing that is still being written |
| `GemmProgram.GoodIff` | ONNXim/src/operations/GemmWS.cc:91-293 | the program of a tile of a matrix product is well formed and settles if and only if it loads no bias or is the last along the inner dimension |
| `GemmProgram.SettlesIff` | ONNXim/src/operations/GemmWS.cc:91-293 | whether it settles does not depend on what its loads ask for |
| `GemmProgram.InitializeInstructions` | ONNXim/src/operations/GemmWS.cc:107-293 | the loops build that program; GemmPlaces says what is in it and where |
| `GemmPlaces.PiecesApart` | ONNXim/src/operations/GemmWS.cc:134-290 | products have the same destination exactly if they are of the same piece, inside the tile's area of the accumulator; the store of a piece names its place and no other's; each product reads the weights of its own column piece and the activations of its own row piece, which differ from piece to piece; a bias is added to the first row piece |
| `GemmPlaces.PieceTimes` | ONNXim/src/operations/GemmWS.cc:190-290 | each piece is multiplied exactly as often as the array's height goes into the tile's depth, rounded up, and stored once |
| `GemmPlaces.ProgramHasPieces` | ONNXim/src/operations/GemmWS.cc:190-290 | the program multiplies, and in the last tile stores, the pieces of the tile inside the matrix and nothing else |
| `GemmPlaces.LoadsArePieces` | ONNXim/src/operations/GemmWS.cc:107-188 | it loads the weights of every column piece, the activations of every row piece and, if any, the bias of every column piece; nothing else, and no place twice |
| `GemmPlaces.AllRows` | ONNXim/src/operations/GemmWS.cc:190-290 | the rows of the pieces add up to the rows of the tile inside the matrix, and its depth is what of it lies inside |
| `BiasRun.BiasedTileFails` | ONNXim/src/operations/GemmWS.cc:118-133 | such a tile does fail: in a concrete run its product arrives before its bias, the tile is handed back, the next issue flushes the half the bias is on its way to, and when it is answered fill's assert fails |
| `TileSafety.CycledSafe` | ONNXim/src/Core.cc:118-192 | a cycle of pipelines, dispatch and retirement keeps all of that |
| `TileSafety.IssuedSafe` | ONNXim/src/Core.cc:65-106 | so does an issue |
| `TileSafety.FlushedForSafe` | ONNXim/src/Core.cc:81-88 | its flushes hit only halves that no tile in flight owns, and to these nothing is on its way |
| `TileSafety.TickDrains` | ONNXim/src/SystolicWS.cc:14-78 | whatever was dispatched in the last cycle leaves its queue in this one |
| `TileSafety.ComputeIsAlone` | ONNXim/src/Core.cc:304-315 | when a tile's last instruction finishes in the compute pipeline, nothing else of the tile is on its way |
| `TileSafety.VectorIsAlone` | ONNXim/src/Core.cc:325-346 | the same for the vector pipeline |
| `TileSafety.StoreIsAlone` | ONNXim/src/Core.cc:437-441 | the same for a store |
| `TileSafety.AwaitedSettles` | ONNXim/src/Core.cc:159-175 | an instruction is dispatched only after every write it waits for has arrived |
| `Overtaking.OvertakenTileFails` | ONNXim/src/Core.cc:182-192 | without that condition it is not safe: a concrete run in which a tile's last instruction overtakes an earlier one, the tile is handed back, the next issue flushes the half still written to, and fill's assert fails |
| `Tiles.EveryRunKeeps` | ONNXim/src/Core.cc:65-116 | over every run, whatever the programs, at most two tiles are in flight, in different scratchpad halves, and every tile issued is in flight, finished or handed back exactly once |
| `Tiles.AccumulatorKept` | ONNXim/src/Core.cc:73-90 | in every reachable state, whatever the programs, a tile that continues the sums of the tile issued last gets that tile's accumulator half exactly if the tile in flight has it, or with none in flight if it is half 0; with one in flight that is exactly if it is the last one itself, or the last one had continued too |
| `AccumulatorRuns.IdleMayLose` | ONNXim/src/Core.cc:73-90 | a run after which no tile is in flight, and any tile that continues the last one gets the other half, uncleared, while the sums stay where they were |
| `AccumulatorRuns.IdleMayKeep` | ONNXim/src/Core.cc:73-90 | a run after which no tile is in flight either, and it gets the same half |
| `AccumulatorRuns.BusyMayLose` | ONNXim/src/Core.cc:73-90 | a run after which another tile is in flight, and it gets that one's half, with sums that are none of its own |
| `Tiles.IssueSparesOwners` | ONNXim/src/Core.cc:65-106 | an issue leaves both halves of the tile in flight untouched and hands out a cleared scratchpad half; it shares the accumulator half of the tile in flight exactly when it continues the tile issued last, whichever that is |
| `Tiles.RunSharing` | ONNXim/src/Core.cc:65-106 | over every run two tiles in flight share an accumulator half exactly if the later one continued, and never a scratchpad half |
| `Tiles.RunConserves` | ONNXim/src/Core.cc:65-116 | over every run every tile issued is in flight, finished or handed back |
| `Tiles.TiledCore.Issue` | ONNXim/src/Core.cc:65-106 | flushes and bookkeeping of an issue |
| `Tiles.TiledCore.FlushHalves` | ONNXim/src/Core.cc:72-88 | the choice of halves and their flushes |
| `Tiles.TiledCore.DispatchInst` | ONNXim/src/Core.cc:122-181 | the first tile in turn whose front instruction can enter its queue dispatches it |
| `Tiles.TiledCore.RetireTile` | ONNXim/src/Core.cc:182-192 | the first finished tile leaves, at most one a cycle |
| `Tiles.TiledCore.Cycle` | ONNXim/src/SystolicWS.cc:6-108 | pipelines, then one dispatch, then one retirement |
| `TileLedger.DispatchIs` | ONNXim/src/Core.cc:122-181 | one dispatch: from the tile that dispatched last on, the first that is not blocked dispatches, or stops the program with a load that does not fit; if all are blocked nothing happens |
| `TileLedger.BlockedIff` | ONNXim/src/Core.cc:122-181 | a tile is blocked exactly if it has dispatched everything, or its front instruction is no load and cannot enter its queue |
| `TileLedger.TakenIs` | ONNXim/src/Core.cc:122-181 | a dispatch appends the front instruction to the queue of its kind, moves that tile on by one, and makes the next dispatch start from it |
| `TileLedger.DoneLeaves` | ONNXim/src/Core.cc:182-192 | over a cycle: a tile whose last instruction is marked leaves to the back of the finished ones, and of two such the first |
| `TileLedger.NotDoneStays` | ONNXim/src/Core.cc:182-192 | a tile that is not marked stays |
| `TileLedger.HalvesOf` | ONNXim/src/Core.cc:65-92 | which halves a new tile gets, with and without another in flight |
| `Tiles.TiledCore.PopFinishedTile` | ONNXim/src/Core.cc:108-116 | hands back the oldest finished tile |
| `TileLedger.HandedBackInTurn` | ONNXim/src/Core.cc:108-116 | over every run a finished tile with n before it is handed back by the (n + 1)-st pop, and not before |
| `VectorUnit.EnoughPasses` | ONNXim/src/Core.cc:449-460 | the adder tree makes at least as many passes as leaving one sum takes, and wastes at most one for each of its levels |
| `VectorUnit.ReturnsIff` | ONNXim/src/Core.cc:449-460 | the recursion ends exactly for units of two numbers or more, and for nothing to add up |
| `Ipoly.ConflictFree` | ONNXim/src/Hashing.cc:34-86 | for 16, 32 and 64 banks, any window of n higher address bits inside the hashed range, any other address bits and any index: those n bits are mapped one-to-one onto the banks |
| `Ipoly.AddressConflictFree` | ONNXim/src/Hashing.cc:34-86 | the same for n bits anywhere in the whole address, in the index, across its upper end or above, as long as they end inside the hashed range |
| `Ipoly.PastTheRange` | ONNXim/src/Hashing.cc:34-86 | and no further: n bits that reach past the hashed range miss a bank, whatever the others are, so the claim for all strides 2^n holds exactly up to there |
| `Ipoly.HashOfAddress` | ONNXim/src/Hashing.cc:38-86 | the index below the higher bits makes one polynomial, of which the hash is the residue |
| `Ipoly.HashIsResidue` | ONNXim/src/Hashing.cc:38-86 | the xor expressions compute the residue of the address polynomial, index bits below the higher bits |
| `Ipoly.TapsAreColumns` | ONNXim/src/Hashing.cc:38-86 | every tap list in the source is the matching column of powers of x |
| `Ipoly.OverTimes` | ONNXim/src/Hashing.cc:34-36 | multiplication by x is invertible modulo each polynomial |
| `Ipoly.HashOfWindow` | ONNXim/src/Hashing.cc:38-86 | the hash splits into x^s times the window and the contribution of everything outside it |
| `Ipoly.OutputIsCoefficient` | ONNXim/src/Hashing.cc:38-86 | each output bit is the matching coefficient of the residue |
| `Replay.LongerAcceptsMore` | scripts/run_etcc_trace_replay.py:111-129 | with length_decay >= 0 and p_min >= 0 the accepted prefix is monotone in the draft length |
| `Replay.LongerIsLikelier` | scripts/run_etcc_trace_replay.py:111-117 | because each token's acceptance probability is |
| `Replay.PrefixIsFirst` | scripts/run_etcc_trace_replay.py:120-129 | the prefix ends at the first rejected token or at the end of the draft |
| `Replay.CountAcceptedPrefix` | scripts/run_etcc_trace_replay.py:120-129 | the counting loop |
| `Replay.TruncationIsConservative` | scripts/run_etcc_trace_replay.py:258-267 | when pre-verification rejects, the truncated draft is shorter, shows a rejection, and commits no more than the whole draft would |
| `Replay.SuffixIsLostIff` | scripts/run_etcc_trace_replay.py:262-267 | the whole draft would commit no more than the pre-verified prefix exactly if it too rejects the token found there |
| `Replay.NoDecayNoLoss` | scripts/run_etcc_trace_replay.py:262-267 | without decay truncation loses nothing |
| `Replay.CommittableSuffixIsCut` | scripts/run_etcc_trace_replay.py:262-267 | with decay it can: in the second round of a replay of two the whole draft of four tokens is committed without pre-verification, and one token with it, so that the rejected prefix does not prove what the comment says |
| `Replay.NegativeDecayCommitsMore` | scripts/run_etcc_trace_replay.py:111-117 | the condition on the decay is needed: in the second round of another replay the truncated draft commits more than the whole one would, and shows no rejection |
| `Replay.EdcDraftLength` | scripts/run_etcc_trace_replay.py:132-143 | the draft length is at least 1 and at most the limit (or 1); ReplayHistory.DraftLengthIs gives its value |
| `Replay.MoreEntropyShorterDraft` | scripts/run_etcc_trace_replay.py:132-143 | more entropy asks for a longer draft exactly in one corner: a limit of two tokens, the middle band, and one of the two other reductions |
| `Replay.MoreLeadKeepsPreverifying` | scripts/run_etcc_trace_replay.py:160-167 | pre-verification that costs anything needs a leading batch to hide behind, and more lead never forbids it |
| `ReplayHistory.DraftLengthIs` | scripts/run_etcc_trace_replay.py:132-143 | the exact draft length for every entropy band, recent acceptance, lead and limit |
| `ReplayHistory.PreverifiedIff` | scripts/run_etcc_trace_replay.py:160-167 | the exact condition of pre-verification, as slack against what it needs |
| `Replay.EveryReplayBalances` | scripts/run_etcc_trace_replay.py:170-181 | over every replay accepted + rejected = drafted exactly when no negative draft length was asked for; the counters are the sums of the records; and, with decay and p_min >= 0, every rejecting pre-verification is confirmed by its round |
| `Replay.RoundBalances` | scripts/run_etcc_trace_replay.py:240-273 | each round keeps that |
| `ReplayHistory.EveryRecordFollows` | scripts/run_etcc_trace_replay.py:234-275 | over every replay: each round records what its draw makes of the draft length planned from the acceptance of the rounds before it, and the replay stops at the first round by which the target is reached, or at the last |
| `ReplayHistory.PreverificationsCounted` | scripts/run_etcc_trace_replay.py:193-197 | over every replay the pre-verification counters are the inserted rounds and the tokens they looked at |
| `ReplayHistory.RecentIsMean` | scripts/run_etcc_trace_replay.py:245-249 | the recent acceptance is the mean over the last rounds of the window |
| `ReplayHistory.DepthCycles` | scripts/run_etcc_trace_replay.py:244 | the lead cycles through one to the number of leading batches |
| `ReplayHistory.EndsOfDraft` | scripts/run_etcc_trace_replay.py:111-117 | the acceptance probability of the first and of the last token of a draft |
| `ReplayHistory.LinearDecay` | scripts/run_etcc_trace_replay.py:111-117 | between them equal steps of the token take equal steps of the probability |
| `Replay.SimulateMode` | scripts/run_etcc_trace_replay.py:234-275 | the loop produces the specified records and counters and stops at the token target |
| `Replay.RunRound` | scripts/run_etcc_trace_replay.py:243-273 | one turn of the loop |
| `Replay.ModeStats.AccountRound` | scripts/run_etcc_trace_replay.py:193-197 | the token counters of one round |
| `AddressMapping.Decode` | PIMSimulator/src/AddressMapping.cpp:86-194 | under each of the eight schemes the decoded numbers are in range and spell the address bits above one transaction and below the memory size |
| `AddressMapping.EncodeThenDecode` | PIMSimulator/src/AddressMapping.cpp:86-194 | every in-range location has an aligned address inside the memory that decodes to it |
| `AddressMapping.DecodeThenEncode` | PIMSimulator/src/AddressMapping.cpp:86-194 | every aligned address inside the memory is the address of what it decodes to; with the previous row, decoding is a bijection |
| `AddressMapping.DecodingUnique` | PIMSimulator/src/AddressMapping.cpp:86-194 | decoding has one answer |
| `AddressSlices.NumbersAreSlices` | PIMSimulator/src/AddressMapping.cpp:86-194 | under each of the eight schemes every number an address decodes to is a slice of its bits, at the position the scheme gives it |
| `AddressMapping.DerivedWidths` | PIMSimulator/src/AddressMapping.cpp:45-59 | for power-of-two counts the widths derived with uLog2 are those of the counts, and the bits below the column are one transaction |
| `AddressMapping.LocationHasAddress` | PIMSimulator/src/AddressMapping.cpp:45-194 | in terms of the configured counts: every location has a transaction-aligned address inside the memory that decodes to it, under each scheme |
| `AddressMapping.AddressHasLocation` | PIMSimulator/src/AddressMapping.cpp:45-194 | and every such address decodes to one location only, whose address it is |
| `AddressMapping.HalvingsOfPower` | PIMSimulator/src/Utils.h:22-35 | uLog2 of a power of two is its exponent |
| `AddressMapping.CountHalvings` | PIMSimulator/src/Utils.h:22-35 | the loop of uLog2 |
| `AddressMapping.RecombineBank` | PIMSimulator/src/AddressMapping.cpp:176-192 | scheme 8's two pieces of the bank number make one field |
| `AddressMapping.DiffBitWidth` | PIMSimulator/src/AddressMapping.h:49-55 | shifting, shifting back and xoring is division and remainder by 2^w |
| `AddressMapping.XorLow` | PIMSimulator/src/AddressMapping.h:49-55 | xor with the number cleared of its low bits leaves the low bits |
| `AddressMapping.OrDisjoint` | PIMSimulator/src/AddressMapping.cpp:176-192 | or of disjoint fields is their sum |
| `ClockDomain.ClockDomainCrosser.Update` | PIMSimulator/src/ClockDomain.cpp:66-96 | after every call the callbacks so far are exactly ceil(calls * clock1 / clock2), despite the counter resets and the 1:1 shortcut; without a callback none |
| `ClockDomain.ClockDomainCrosser.NoDrift` | PIMSimulator/src/ClockDomain.cpp:66-96 | that is what the invariant says |
| `ClockDomain.Drive` | PIMSimulator/src/ClockDomain.cpp:66-96 | n calls run exactly ceil(n * clock1 / clock2) callbacks |
| `Numbers.CeilDivUnique` | PIMSimulator/src/ClockDomain.cpp:66-96 | the only number of periods that covers n ticks of the other clock with less than one to spare |

## Left out

- Half-precision functions built on approximations (exp, log, trigonometry, gamma, erf), NaN payloads beyond
  the quiet bit, exception flags, F16C intrinsics, lookup tables, single-precision conversions and the rounding modes other
  than to nearest even.
- Machine overflow: `int`, `uint32_t` and `uint64_t` counters, sizes and cycles are mathematical integers. Where
  the source clips to 32 bits (the hold of a request) the clip is modelled.
- The mapping table's order, parsing and fallback: a mapping is what the search returns.
- GemmMapping.GemmMapping: `(uint32_t)sqrt(n)` is the exact integer square root; the rounding of `double` is not modelled.
- Routing: the target-model issue-window counters, the bandwidth counters and `_tot_nr_to_mem`, which counts a held request twice.
- PIMBackend: the estimate of bytes saved by fusion (a floating-point ratio), `on_dram_pop`, and the adapter's own cycle.
- DRAM timing, Booksim2, Ramulator and SimpleDram: the DRAM is a bag that answers when it likes.
- The front ends of `Simulator::cycle` (layer and language scheduling, cores to interconnect), and the bodies of EDC, TVC and the
  speculative-decode scheduler: their decisions are arbitrary events.
- Interleavings inside the SSRC coordinator: each locked method is one step.
- Ssrc.SSRCCoordinator.ShouldDeferRound: entropy and threshold are real numbers or not finite; `float` rounding is not modelled.
- Systolic: the latencies of vector operations by opcode (an operation carries its own), energy and utilisation
  statistics, last-use timestamps of scratchpad entries, and the identity of memory requests beyond their destination.
- TileSafety.EveryRunIsSafe: settling is sufficient, not necessary. Whether an open write of another program arrives in time
  depends on latencies and on when memory answers; Overtaking and BiasRun have writes that do not. What is exact, for any
  programs, is the condition on each issue (`Refinement.IssueIsSafeIff`).
- Systolic.EveryRunIsSafe: takes dispatches and flushes as arbitrary events, and flushes of quiet halves alone; a flush of any
  other half breaks the scoreboard (`Systolic.FlushKeepsIff`).
- Programs of operations other than GemmWS: whether they settle is not stated.
- GemmProgram.InitializeInstructions: which addresses in memory a load or a store asks for is given, not computed.
- Replay: floating-point rounding, the hash behind the uniform draws and the exponential (both are draws), the synthetic entropies,
  and the cycle, energy and ratio statistics of a round. A `max_leading_batches` of zero raises in the source and is excluded.
- Energy and hardware cost models, figure scripts, configuration, logging, file formats and model loading.
