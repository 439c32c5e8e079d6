# Verification of the language runtime

A Dafny 4.11 model of the parts of the runtime on which all else rests, and proofs about it. The
order is that of the dependencies; each file is one module.

**The collector** (`heap`, `layout`, `marking`, `paths`, `spaces`, `bigspace`, `plan`, `update`, `moving`,
`invariant`, `full`, `outcome`, `remembered`, `copying`, `fast`, `fastdone`, `generations`, `gaps`, `mutator`,
`promotion`, `objmem`, `runs`, `losing`). Memory is two maps from addresses (a region and an offset): meta words
and bodies. `ObjMem.Context` has the fields of the memory context, and its methods are the loops and recursions
of the original, phase by phase; the other modules hold the specification functions and the lemmas. The two
results are the contracts of `GcFull` and `GcFast`: whatever path a program follows from the roots, it finds the
same afterwards. `Gc` says exactly when that stays true for the next collection, since the mark test comes
before MID is set: a young object that a plain visit has already reached is not promoted when an old object
refers to it as well. `Generations.GenerationalIffNoGap` is the exact condition, and `Gaps.FullSeparated` and
`Gaps.FastSeparated` give one that can be seen on the graph before the collection. Which survivors stay young is
said with paths: `Promotion.FastHeld` and the contract of `GcFast`; `Promotion.SharedExample` is a heap where
that leaves a gap although the reference is remembered. `Gaps.GapLoses` says what a gap leads to, and `Losing`
reaches one: eight operations on a heap with one class object, after which a program can follow a reference to
an object that the next fast collection does not mark. For whole runs, `Runs.RunUnnoticed` puts everything
together: as long as no marking leaves a gap, no sequence of stores, loads, allocations and collections lets a
program find out that objects have been moved and deleted.

**Remembered sets, bit by bit** (`bitset`, `rememberedset`, `recording`). The collector works on a list of
offsets; `Recording` shows that iterating over the bits gives that list.

**The compiler back end and the machine** (`language`, `laws`, `bytecode`, `emission`, `labelled`,
`correctness`, `wellformed`, `discipline`, `assembling`, `assembler`, `disassembling`, `bytemachine`,
`compiled`, `moduleobj`, `codegen`, `labelcount`, `limits`, `meaning`, `sumprogram`, `machine`, `frames`,
`invoking`). The source language is the fragment with nil, Boolean and small integer literals, module globals,
arithmetic and comparison, `&&` and `||`, assignment and compound assignment, if, while, and a returned last
expression. `Emission` is what the code generator emits, as a function; `Codegen.Generator` is the object that
emits it, and `AssemblerObject.Assembler` the one that turns it into bytes. The proof goes from the source to
instructions with labels, from these to bytes, and from bytes to the dispatch loop; it holds in both directions,
for runs that do not end as well. What the shared pieces of both ends mean is said apart from them: `Meaning`
has the results of the operations as numbers and the instructions by their opcodes, `SumProgram` one program
with a loop from its source to its bytes and to the sum it returns. Three limits of the format are stated
exactly, each with modules that pass it (`Limits`): a backward jump over more than 128 bytes is laid out in
three bytes and written in two, a forward jump over more than 32767 bytes is cut off
(`Assembling.AllLandIffEncodable`), and the number of a label that a jump names must fit sixteen bits
(`LabelCount.ModuleStatus`).

**The expression parser** (`parsing`, `grammar`, `parser`). `Grammar` has the documented table row by row;
the trees that are built are those of that grammar. The documentation lets assignments group to the right
(doc/grammar.md:149-153), but both branches of the code reduce on equal precedence
(src/compiler/parser.c:658-677), so that everything groups to the left. The model follows the code;
`Parsing.DocumentedIffOneAssignment` says when that makes no difference, and `Parsing.TwoAssignments` shows
the tree that is built for `a = b = c`.

**The hash map** (`hashmap`) with linked nodes spliced in place, and **UTF-8** (`unicode`).

`dafny verify dfyconfig.toml` checks everything.

## Model

| member | source | states |
|---|---|---|
| `ObjectHeap.FollowIsomorphic` | src/objects/objmem.c:1765-1853 | Two heaps related by an isomorphism: every access path from the same root succeeds in both or in neither, and ends at the same small int or at corresponding objects. |
| `ObjectHeap.Indistinguishable` | src/objects/objmem.c:1765-1853 | In isomorphic heaps a program finds the same class path, payload and field kinds along every path, and two paths meet in one heap iff they meet in the other (sharing and cycles). |
| `Marking.VisitOnlyMarks` | src/objects/objmem.h:171-232 | A visit in any of the four modes only sets MRK and MID bits, and marks nothing old in the two young modes. |
| `Marking.VisitComplete` | src/objects/objmem.c:1949-2080 | After a visit everything it was given is marked, and so is all that newly marked objects refer to (young objects only in the young modes). |
| `Marking.VisitSound` | src/objects/objmem.c:1949-2080 | A visit marks nothing outside any set that holds its arguments and is closed under references. |
| `Marking.FullMarkIsReachable` | src/objects/objmem.c:1766-1774 | The marking of a full collection terminates on cyclic graphs and marks exactly the objects reachable from the roots. |
| `Marking.YoungMarkIsReachable` | src/objects/objmem.c:1677-1697 | The marking of a fast collection marks exactly the young objects reachable from the roots and the remembered objects through young ones, and no old object. |
| `YoungPaths.VisitLeavesPlain` | src/objects/objmem.h:171-232 | A visit leaves marked young objects without MID only where paths through young objects without MID lead from what it was given; one that comes from an old object leaves none. |
| `YoungPaths.FastLeavesPlain` | src/objects/objmem.c:1677-1697 | Roots before remembered objects: what a fast collection marks and leaves without MID is at the end of a path from the roots through young objects without MID; conversely what is at the end of such a path is marked, and has no MID unless some such path leads to a survivor of an earlier collection. |
| `YoungPaths.FullLeavesPlain` | src/objects/objmem.c:1766-1774 | What a full collection marks and leaves young without MID is at the end of such a path, too. |
| `BigSpace.SweepNext` | src/objects/objmem.c:592-633 | Which object follows in the list, and which are kept, when the sweep steps over one object. |
| `BigSpace.SweepKeep` | src/objects/objmem.c:592-633 | A marked big object stays in the list, with MRK and the remembered tag cleared, and the sweep invariant holds one object further on. |
| `BigSpace.SweepDrop` | src/objects/objmem.c:592-633 | An unmarked big object is unlinked while the list is walked, and the list of those kept stays linked in the original order. |
| `BigSpace.SizesAddUp` | src/objects/objmem.c:521-535 | The sizes of kept and deleted objects add up to the total before the sweep. |
| `BigSpace.SweepDone` | src/objects/objmem.c:592-633 | The sweep leaves exactly the marked objects in their original list order, all unmarked and unremembered, and no other object or meta word is touched. |
| `ObjMem.Context.SweepBigSpace` | src/objects/objmem.c:592-633 | The loop itself: the result of the sweep as above, with the allocated size equal to the sum of the sizes that are left. |
| `ObjMem.Context.SweepBigObject` | src/objects/objmem.c:600-629 | One turn of the loop keeps the sweep invariant and finds the next object although the current one may just have been deleted. |
| `Layout.TiledDisjoint` | src/objects/objmem.c:222-230 | Two storages allocated one after the other from a chunk do not overlap. |
| `Layout.TiledAppend` | src/objects/objmem.c:222-230 | Allocating at the free pointer of a chunk extends the run of storages without a gap. |
| `Relocation.StepNotAhead` | src/objects/objmem.c:825-855 | The reallocation iterator never gives out storage that begins behind the object being scanned, in (chunk, offset) order, whether or not the step opens the next chunk. |
| `Relocation.InPlaceStep` | src/objects/objmem.c:995-1026 | As long as everything before it is live, the next object of the first chunk is given exactly its own address. |
| `Relocation.ExtendTo` | src/objects/objmem.c:1392-1422 | A storage given out in to-space is new, the plan stays tiled, and the PTR of the survivor names it. |
| `Relocation.ExtendOld` | src/objects/objmem.c:951-966 | A storage given out in old space is new, the plan stays tiled over the chunk list, and the PTR of the survivor names it. |
| `Relocation.PlanDisjoint` | src/objects/objmem.c:995-1026 | All new storages of a collection, in to-space and in old space, are pairwise disjoint. |
| `ObjMem.Context.Forward` | src/objects/objmem.c:825-855 | The iterator step: where it goes in the current chunk, or that the chunk has no room, under the strict end test. |
| `ObjMem.Context.FakeAlloc` | src/objects/objmem.c:951-966 | Storage without writing to it; a chunk is appended if the last one is full, and the iterator stays within the chunk list. |
| `ObjMem.Context.ReallocOldSpace` | src/objects/objmem.c:995-1026 | Every marked old object gets new storage that is not ahead of it, a fully live prefix keeps its addresses, and all remembered sets are forgotten. |
| `ObjMem.Context.AllocInToSpace` | src/objects/objmem.c:222-230 | Fails iff the storage would reach the end of the chunk; otherwise the free pointer moves by the size. |
| `ObjMem.Context.ReallocNewObject` | src/objects/objmem.c:1392-1422 | Survivors go to to-space, or to old space if they have MID; the to-space allocation never fails, since as much of the working chunk has been scanned as has been given out. |
| `ObjMem.Context.ReallocNewSpace` | src/objects/objmem.c:1392-1422 | The whole walk: every marked young object has new storage, disjoint from all the others. |
| `Updating.UpdatedStep` | src/objects/objmem.c:2082-2100 | Updating the fields of one more object keeps the invariant that updated objects refer to new storages and the others are as they were. |
| `Updating.SizedDuringUpdate` | src/objects/objmem.c:1071-1092 | While references are being updated the size of every object can still be found through its class, because class objects keep their addresses. |
| `ObjMem.Context.UpdateReferences` | src/objects/objmem.c:1801-1823 | After the update phase every reference held by a live object or a root names the new storage; big-space marks have been cleared before, so that list links are not taken for forwarding pointers. |
| `Moving.MoveStep` | src/objects/objmem.c:1205-1243 | Moving one object to its new storage keeps the move invariant, provided the storage spares all objects that are still to be moved. |
| `Moving.SlidingSpares` | src/objects/objmem.c:1205-1243 | Storage that is not ahead of an object overlaps none of the objects behind it. |
| `Moving.OldMoveSpares` | src/objects/objmem.c:1205-1243 | In scan order no move within old space overwrites a survivor that has not been moved yet. |
| `Moving.NewMoveSpares` | src/objects/objmem.c:1457-1486 | Moving a survivor out of new space overwrites nothing that is still needed. |
| `Moving.SizedDuringMove` | src/objects/objmem.c:1205-1243 | Sizes can be found through class objects during the whole move phase, because they do not move. |
| `ObjMem.Context.MoveOldSpace` | src/objects/objmem.c:1205-1243 | The walk that moves: every survivor of old space arrives, with its contents and a fresh meta word. |
| `ObjMem.Context.MoveNewSpace` | src/objects/objmem.c:1457-1486 | Every survivor of new space arrives, in to-space or in old space. |
| `ObjMem.Context.Truncate` | src/objects/objmem.c:969-992 | Chunks behind the last one in use are dropped, and free pointers are set to the ends of the moved objects. |
| `Outcome.TransferIsomorphic` | src/objects/objmem.c:1765-1853 | If objects were updated, then transferred to disjoint storages, the heap is isomorphic to the reachable part of what it was. |
| `Outcome.PrefixKept` | src/objects/objmem.c:995-1026 | The class objects at the beginning of old space, which are rooted, have the same addresses after a full collection. |
| `Outcome.FullCollectionDone` | src/objects/objmem.c:1765-1853 | The phases in their order lead from a valid heap to a valid heap that is exactly the reachable part of the old one. |
| `ObjMem.Context.GcFull` | src/objects/objmem.c:1765-1853 | A full collection on any valid heap: the result is valid, isomorphic to the reachable graph with every live reference naming new storage and nothing else left; classes stay; no old object refers to a young one iff the marking left no gap; what was aged is old, and nothing else; what stays young was at the end of a path from the roots through young objects without MID; nothing is remembered; and two collections empty new space. |
| `RememberedObjects.PrefixOfList` | src/objects/objmem.c:1095-1120 | The early stop is right: once as many chunks with remembered objects have been seen as were counted while marking, no chunk behind has any. |
| `RememberedObjects.RememberedIsOld` | src/objects/objmem.c:1050-1068 | Everything remembered is an object of old or big space. |
| `FastCollection.SurvivorsClosed` | src/objects/objmem.c:1676-1762 | Old objects and marked young ones together are closed under references if every old-to-young edge starts at a remembered object. |
| `FastCollection.BigStillThere` | src/objects/objmem.c:553-565 | Marking from remembered big objects does not disturb the list being walked, nor the tags. |
| `FastCollection.ClearNext` | src/objects/objmem.c:568-589 | Forgetting remembered big objects stops at the last one that was counted, and clears each once. |
| `Copying.NextPlaceFree` | src/objects/objmem.c:1345-1387 | The storage for the next copy is free: it overlaps no object, copied or not. |
| `Copying.CopyStep` | src/objects/objmem.c:1345-1387 | Copying one survivor and leaving the forwarding pointer keeps the copy invariant. |
| `ObjMem.Context.CopySurvivor` | src/objects/objmem.c:1345-1387 | A survivor with MID goes to the last old chunk; when that is full, and from then on, to to-space, where there is always room. |
| `ObjMem.Context.CopySurvivors` | src/objects/objmem.c:1345-1387 | All marked young objects are copied, and whether a promotion failed is reported. |
| `ObjMem.Context.MarkYoungObjects` | src/objects/objmem.c:1677-1697 | Marks are as the specification of young marking says: the marked objects without MID are at the ends of paths from the roots through young objects without MID, and all such are marked and without MID if no path leads to a survivor of an earlier collection, whatever remembered objects refer to. The numbers of chunks and big objects with remembered objects are counted. |
| `ObjMem.Context.RenewReferences` | src/objects/objmem.c:1724-1751 | Afterwards no root and no object that is left refers into the old from-space, although only survivors and remembered objects have been looked at. |
| `FastOutcome.FastCollectionDone` | src/objects/objmem.c:1676-1762 | The phases of a fast collection lead to a valid heap, with nothing remembered, in which old objects are where they were and the graph is isomorphic. |
| `ObjMem.Context.GcFast` | src/objects/objmem.c:1676-1762 | A fast collection on any valid heap whose old-to-young edges are remembered: the heap is valid again and isomorphic, what is kept is the old objects and the marked ones, and unless old space was full (which forces the next collection to be full) no old object refers to a young one iff the marking left no gap, exactly what was aged is old, and a survivor of new space stays young iff a path through young objects leads to it from the roots (when no such path leads to a survivor of an earlier collection; only if, in any case). Old space counts as full only if its last chunk could not take all of new space. |
| `Promotion.FastHeld` | src/objects/objmem.c:1677-1697 | The same of the marks of a fast collection, for every valid heap. |
| `Promotion.NoYoungMidUncrossed` | src/objects/objmem.h:203-211 | Where no young object has MID no path leads to one, so that a marked young object has MID afterwards iff no path of young objects leads to it from the roots. |
| `Promotion.FastStaysYoung` | src/objects/objmem.c:1345-1387 | Which survivors of new space stay young after a fast collection without failed promotion, by paths. |
| `Promotion.FullStaysYoung` | src/objects/objmem.c:1766-1774 | Whatever is young after a full collection was at the end of such a path. |
| `Promotion.SharedExample` | src/objects/objmem.c:1679-1697 | A valid heap in which a root and a remembered old object refer to a young one without MID: the root comes first, the object gets no MID, and the marking leaves a gap although the reference was remembered. |
| `Promotion.OrderExample` | src/objects/objmem.h:203-211 | Where a path does lead to a survivor of an earlier collection the order decides: with the roots in one order the object behind it gets MID, with the roots in the other (`Gaps.GapExample`) it does not, and paths lead to it from the roots in both. |
| `Generations.GenerationalIffNoGap` | src/objects/objmem.h:171-232 | After a collection an old-to-young edge is left iff some live object that becomes old refers to one that stays young according to the marks. |
| `Generations.FullGenerational` | src/objects/objmem.c:1765-1853 | The same, for the marks of a full collection. |
| `Generations.FastGenerational` | src/objects/objmem.c:1676-1762 | The same, for the marks of a fast collection in which every promotion succeeded. |
| `Generations.FullAgeing` | src/objects/objmem.c:1392-1422 | After a full collection all of new space has MID; if it had before, new space is empty. |
| `Generations.FastAgeing` | src/objects/objmem.c:1345-1387 | The same for a fast collection without failed promotion. |
| `Generations.FullClassesKept` | src/objects/objmem.c:1765-1853 | A full collection does not move the class objects. |
| `Gaps.FullSeparated` | src/objects/objmem.h:171-232 | If objects that become old and objects reached by a plain visit are kept apart by the graph, a full collection leaves no gap. |
| `Gaps.FastSeparated` | src/objects/objmem.h:171-232 | The same for a fast collection. |
| `Gaps.GapExample` | src/objects/objmem.h:203-224 | A concrete valid heap, as allocation and collection produce it, in which a young object is reached by a plain visit before an object that becomes old refers to it: the marking of a fast collection leaves a gap. |
| `Gaps.EdgeLost` | src/objects/objmem.c:1676-1762 | Wherever an old object refers to a young one and nothing is remembered: if the program keeps only the old object, it can still follow the reference, but the next fast collection does not mark what it leads to. |
| `Gaps.GapLoses` | src/objects/objmem.h:203-224 | After any collection whose marking left a gap there is such a reference, so that an object can be lost. |
| `Gaps.LossExample` | src/objects/objmem.c:1676-1762 | The same for the heap above and whatever a fast collection makes of it. |
| `Losing.ObjectLost` | src/objects/objmem.h:203-224 | For every run of eight operations (two allocations, a store, changes of roots, two fast collections) from a heap with one class object: all is safe up to the second collection, whose marking leaves a gap; at the end the program can reach an object that the next fast collection does not mark. |
| `Losing.LoseObject` | src/objects/objmem.h:203-224 | Carries out these operations on a context. |
| `Mutator.RecordIncreasing` | src/objects/objmem.c:723-741 | Recording an offset keeps the list of remembered offsets increasing, without duplicates. |
| `Mutator.RecordMembers` | src/objects/objmem.c:723-741 | Recording an offset adds it to the remembered ones and nothing else. |
| `Mutator.FieldSetGenerational` | src/objects/object.h:97-120 | A store followed by the barrier keeps every old-to-young edge remembered. |
| `ObjMem.Context.RecordYoungReference` | src/objects/objmem.c:1917-1923 | The object is remembered afterwards, in its chunk or by its tag, and nothing else changes. |
| `ObjMem.Context.WriteBarrier` | src/objects/object.h:97-120 | Records an object iff it is old and one of the values is a reference to a young object. |
| `ObjMem.Context.SetField` | src/objects/object.h:149-157 | Stores into one field; the heap stays valid, and old-to-young edges stay remembered. |
| `ObjMem.Context.TryAllocYoung` | src/objects/objmem.c:1326-1342 | A new young object behind the others of the working chunk, at exactly that address, or failure if there is no room; validity and the generational invariant are kept. |
| `ObjMem.Context.TryAllocOld` | src/objects/objmem.c:935-948 | The same for the last chunk of old space. |
| `ObjMem.Context.TryAllocBig` | src/objects/objmem.c:521-535 | A new big object at the head of the list, counted in the allocated size, or failure above the threshold. |
| `ObjMem.Context.Gc` | src/objects/objmem.c:1855-1910 | Which collection is run, that any program finds the same heap afterwards, which survivors stay young, and exactly when collections stay safe: iff the marking left no gap or the next collection is forced to be full. |
| `Runs.Do` | src/objects/object.h:97-120 | Allocation in any space, stores with the write barrier, loads, copying and dropping roots, and collections do to the context what the steps of a run are. |
| `Runs.StepIsSafe` | src/objects/objmem.h:171-232 | A step keeps the heap valid, and leads to a state in which collections are not safe iff it is a collection whose marking leaves a gap. |
| `Runs.RunIsSafe` | src/objects/objmem.h:171-232 | Over any run: all states are safe iff no collection leaves a gap. |
| `Runs.IsoCompose` | src/objects/objmem.c:1765-1853 | The isomorphisms of two collections in a row make one. |
| `Runs.StepAgrees` | src/objects/objmem.c:1676-1853 | If the heap agrees with one that has no collector, it still does after the same step in both. |
| `Runs.RunAgrees` | src/objects/objmem.c:1676-1853 | Over any run whose collections begin in safe states, the heap agrees with one in which nothing is ever moved or deleted. |
| `Runs.RunUnnoticed` | src/objects/objmem.c:1676-1853 | Over any run without a gap, whatever a program finds by following references from its roots (values, contents, sharing) is what it finds in the heap without a collector. |
| `Bitsets.LowestBit` | src/utilities/bitset.h:86-106 | A word and its negative have exactly the lowest set bit in common, whose number is the count of trailing zeros. |
| `Bitsets.SetAndFlip` | src/utilities/bitset.h:42-66 | Or-ing in, or flipping, a mask changes that bit and no other. |
| `Bitsets.BitByMask` | src/utilities/bitset.h:34-40 | And-ing with a mask tells whether the bit is set. |
| `RememberedSets.OrAdds` | src/objects/objmem.c:744-757 | Or-ing a number below the lowest bit of the base is the same as adding it. |
| `RememberedSets.TrySetBit` | src/utilities/bitset.h:60-70 | Sets one bit of a bucket of sixteen words and keeps all others. |
| `RememberedSets.RememberedSet.Record` | src/objects/objmem.c:723-741 | Afterwards exactly the recorded words and the new one are in the set; a bucket is made when it is first needed. |
| `RememberedSets.ForEachInCell` | src/utilities/bitset.h:86-106 | The loop that clears the lowest bit lists the set bits of one word, each once, in increasing order. |
| `RememberedSets.RememberedSet.ForEach` | src/objects/objmem.c:744-757 | Iteration lists each recorded offset exactly once and nothing else, in increasing order. |
| `Recording.IterationIsList` | src/objects/objmem.c:744-757 | If the bits are those of the recorded offsets, iterating over them gives the list that the collector works on, in the same order. |
| `Recording.RecordThenIterate` | src/objects/objmem.c:698-759 | Recording word-aligned offsets in any order and as often as one likes, then iterating, gives that list. |
| `Bytecode.OperandRoundTrip` | src/bytecode/disassemble.c:20-46 | Reading an operand that fits its type gives back what was written, for signed and unsigned one- and two-byte operands. |
| `Bytecode.OperandNumbers` | src/machine/invoke.c:160-164 | The bytes of an operand as numbers, low byte first, both as written and as read from any code. |
| `Labelled.CompileExprGrows` | src/compiler/codegen.c:467-882 | Generating code only appends instructions, symbols and names, and never moves a label that existed. |
| `Correctness.ExprCorrect` | src/compiler/codegen.c:367-882 | For every expression, state and stack: the code computes what the source says, or raises what it raises, ends where the next code begins, and leaves the globals as the source does; with PUSH one value more on the stack, with EVAL none. |
| `Correctness.BinCorrect` | src/compiler/codegen.c:590-611 | The right operand is evaluated after the left one, then the operation on both, in this order. |
| `Correctness.LogicalCorrect` | src/compiler/codegen.c:850-882 | The right operand of a logical operator is evaluated iff the left one does not decide, and an operand that is not a Boolean raises. |
| `Correctness.StmtCorrect` | src/compiler/codegen.c:1236-1308 | For every statement and every bound on loop iterations: the code has the effect the source has and restores the stack, or is still running after more steps than the bound. |
| `Correctness.BranchesCorrect` | src/compiler/codegen.c:1236-1268 | Of an if statement exactly the first branch whose condition is true is run. |
| `Correctness.WhileCorrect` | src/compiler/codegen.c:1278-1308 | Loops, including those whose condition is a literal: the jump at the end leads back to the condition. |
| `Wellformed.ModuleSound` | src/compiler/codegen.c:1478-1507 | The code of a module without errors has operands in range and labels placed, whose numbers fit sixteen bits, and every jump lands strictly inside the code. |
| `LabelCount.ModuleStatus` | src/compiler/assembler.c:226-236 | How many labels a module takes, counted on its tree; generating code succeeds iff jumps reach no further than the first 65536 of them and every index fits, and otherwise the status names a fault that is there. |
| `Wellformed.ModuleRegisters` | src/compiler/codegen.c:152-161 | The scope holds the old globals at their old indices and every name assigned anywhere in the module, each once. |
| `Discipline.ExprLevels` | src/compiler/codegen.c:600-611 | There is one stack height for each instruction and each label such that all paths agree; an expression nets one with PUSH and none with EVAL. |
| `Discipline.StoreLevels` | src/compiler/codegen.c:693-712 | Popping into a name nets minus one. |
| `Discipline.StmtLevels` | src/compiler/codegen.c:1236-1308 | Statements leave the height as it is, on all paths. |
| `Discipline.ModuleLevels` | src/compiler/codegen.c:1478-1507 | All heights of a module, beginning with zero, agree at every label. |
| `Discipline.StepsOnLevel` | src/machine/invoke.c:249-763 | In every run the stack is at every instruction as high as the static heights say, and what was below at the start is untouched. |
| `Discipline.BaseUntouched` | src/machine/invoke.c:249-763 | While a module runs, the stack below where it began is as it was. |
| `Assembling.WhatFits` | src/compiler/assembler.c:303-320 | An offset fits the width chosen for it iff a backward jump goes over at most 128 bytes and a forward jump over at most 32767; forward jumps over at most 42 instructions keep the short opcode and always fit, with an offset of at most 126, and those over more get the long one. |
| `Assembling.ReadBack` | src/compiler/assembler.c:327-365 | At the address that the first pass computed for an instruction, the code written by the second has its opcode and operand. |
| `Assembling.AllLandIffEncodable` | src/compiler/assembler.c:295-345 | All jumps of the assembled code lead to the instructions of their labels, wherever the second pass has put them, iff every offset fits the width chosen for it. |
| `Assembling.LayoutIffNoFarLoop` | src/compiler/assembler.c:303-309 | The addresses of both passes agree for all instructions iff no backward jump goes over more than 128 bytes: such a jump is laid out in three bytes and written in two. |
| `Limits.FarLoop` | src/compiler/assembler.c:303-309 | A module with one loop around k times three bytes compiles for every k, and its code is right iff k is at most 42: beyond 128 bytes the jump back does not land. |
| `Limits.FarBranch` | src/compiler/assembler.c:310-345 | A module with one branch of k times three bytes compiles for every k, and its code is right iff k is at most 10921: beyond 32767 bytes the jump over the branch does not land. |
| `Limits.ManyLabels` | src/compiler/assembler.c:226-236 | A module with k logical operators compiles iff k is at most 65536; beyond that an assertion fails, and if assertions are not checked the label is cut to number 0 and the assembler gives up. |
| `AssemblerObject.Assembler.Symbol` | src/compiler/assembler.c:184-197 | The index of a symbol, which is added once. |
| `AssemblerObject.Assembler.AppendJump` | src/compiler/assembler.c:226-236 | Appends a jump iff the number of its label fits sixteen bits, which is asserted. |
| `AssemblerObject.Assembler.PlaceLabel` | src/compiler/assembler.c:206-214 | The label stands for the next instruction. |
| `AssemblerObject.Assembler.Layout` | src/compiler/assembler.c:277-325 | The first pass: addresses as specified, offsets of backward jumps filled in, opcodes of long forward jumps replaced, or giving up iff a backward jump goes over more than 32768 bytes. |
| `AssemblerObject.Assembler.Write` | src/compiler/assembler.c:327-365 | The second pass writes the bytes of all instructions, within what the first one measured. |
| `AssemblerObject.Assembler.Finish` | src/compiler/assembler.c:277-371 | Both passes together give the bytes of the program. |
| `Disassembling.Disassemble` | src/bytecode/disassemble.c:48-66 | The walk visits every instruction of the code with its offset, opcode and operand. |
| `Disassembling.DisassembleAssembled` | src/bytecode/disassemble.c:48-66 | The walk over assembled code hits exactly the addresses of the layout. |
| `Disassembling.RoundTrip` | src/bytecode/disassemble.c:48-66 | Assembling, then disassembling gives back the instructions; the offset of a jump added to its own address is the address of the instruction its label stands for. |
| `ByteMachine.StepSimulated` | src/machine/invoke.c:711-763 | One step of the machine on bytes, where offsets are relative to the opcode of the jump, is one step of the machine on labels. |
| `ByteMachine.StepsSimulated` | src/machine/invoke.c:249-763 | The machine on bytes follows the machine on labels for any number of steps. |
| `Compiled.ModuleCorrect` | src/compiler/codegen.c:1478-1507 | Compiler correctness, down to the bytes: for every module, store and loop bound, if the source ends in a value, an exception or undefined arithmetic then so does the machine, with the same value and the same globals. |
| `Compiled.ModuleExact` | src/compiler/codegen.c:1478-1507 | The converse: whatever a run of the bytes comes to is what the source comes to. |
| `Compiled.ModuleDiverges` | src/compiler/codegen.c:1278-1308 | The bytes run for ever iff the source does. |
| `Laws.LogicalLaw` | src/compiler/codegen.c:850-882 | `&&` and `||` of two conditions are conjunction and disjunction, and the right side has its effects only if the left one does not decide. |
| `Laws.AssignLaw` | src/compiler/codegen.c:693-720 | After an assignment the name has the value of the whole expression, and other names are as the right side left them. |
| `Laws.IfLaw` | src/compiler/codegen.c:1236-1276 | A condition decides between two blocks, or between a block and nothing. |
| `Laws.WhileLaw` | src/compiler/codegen.c:1278-1308 | A loop ends normally only in a state in which its condition has just been found false. |
| `Laws.SumIs` | src/compiler/codegen.c:1278-1308 | For every n that is a literal: a loop that counts to n and adds up ends after n rounds and the module returns n (n + 1) / 2. |
| `Meaning.OneResult` | src/machine/invoke.c:271-294 | The conditions on results (sum, difference, product, truncated quotient, remainder with the sign of the dividend) leave one result at most. |
| `Meaning.ArithmeticExecutes` | src/machine/invoke.c:249-294 | The opcodes 16 to 20 on two small ints replace them by the number that meets these conditions: nothing but a division by zero or a product beyond 64 bits is without one. |
| `Meaning.ComparisonExecutes` | src/machine/invoke.c:400-464 | The opcodes 34 to 39 on two small ints replace them by the Boolean that the sign of their difference gives. |
| `Meaning.OneOfThree` | src/machine/invoke.c:400-464 | Of less, equal and greater exactly one is true, and the other three comparisons are their opposites. |
| `Meaning.UnaryExecutes` | src/machine/invoke.c:322-350 | Negation and inversion: a number and its negation add up to 0, with its inverse to -1. |
| `Meaning.LoadsExecute` | src/machine/invoke.c:222-241 | The loads of nil, Booleans and small ints and the return of nil, by opcode. |
| `Meaning.TopExecutes` | src/machine/invoke.c:199-213 | Drop, duplicate and return, by opcode. |
| `Meaning.GlobalsExecute` | src/machine/invoke.c:544-591 | Globals are read and written at their index, in both widths; by name the index is that of the name. |
| `Meaning.OtherGlobals` | src/machine/invoke.c:571-591 | A name the module does not define is the one of the base module, or nil. |
| `Meaning.JumpSteps` | src/machine/invoke.c:711-757 | The short jumps by opcode: by the signed distance from the opcode, always, on true or on false; a condition that is not a Boolean raises. |
| `Meaning.WideJumpSteps` | src/machine/invoke.c:716-763 | The same of the long jumps, whose distance is two bytes, the low one first. |
| `Meaning.ExecuteMeans` | src/machine/invoke.c:249-464 | All of these operations on whatever two small ints lie on top of a stack. |
| `Meaning.OperationBytes` | src/compiler/codegen.c:605-667 | A module that is one operation on two literals: its code byte by byte, the left operand first. |
| `Meaning.OperationRun` | src/machine/invoke.c:249-464 | Running that module: after four instructions it has returned what the operation computes. |
| `SumProgram.SumCode` | src/compiler/codegen.c:1278-1308 | The module that adds up the first numbers, as instructions with labels. |
| `SumProgram.SumBytes` | src/compiler/assembler.c:259-370 | The same as bytes, with the jump out of the loop and the one back. |
| `SumProgram.SumRun` | src/machine/invoke.c:1211-1224 | Running these bytes returns n (n + 1) / 2 and leaves it and n in the two globals. |
| `Compiled.GlobalIndices` | src/compiler/codegen.c:1418-1474 | Compiling a module registers exactly the names assigned in it, behind those it had; no earlier index changes. |
| `Compiled.StoreBefore` | src/compiler/codegen.c:1467-1474 | Every name assigned anywhere in a module exists, as nil, before it runs; all other globals are what they were. |
| `Compiled.PublishedStore` | src/compiler/codegen.c:1495-1504 | After a compilation the store is that one, with the function of the module under the empty name. |
| `Compiled.SessionKeeps` | src/compiler/codegen.c:1418-1507 | Over any number of compilations of one module, failed ones included, indices stay and so do the values of all globals but the function. |
| `Codegen.Generator.EmitExpr` | src/compiler/codegen.c:367-882 | The recursive walk over an expression, which stops at the first fault, does what the specification of the generated code says, and stops with exactly the fault that the specification names. |
| `Codegen.Generator.EmitLogical` | src/compiler/codegen.c:850-882 | The same for the logical operators, with the label that the jump over the right operand leads to. |
| `Codegen.Generator.EmitWhile` | src/compiler/codegen.c:1278-1308 | The same for loops. |
| `Codegen.Generator.EmitGuarded` | src/compiler/codegen.c:1236-1308 | A condition, the jump that skips the statements if it is false, and the statements, as loops and branches have them. |
| `Codegen.Generator.EmitBranch` | src/compiler/codegen.c:1236-1268 | One branch, the jump behind the others if there are any, and the place of its label. |
| `Codegen.Generator.EmitBranches` | src/compiler/codegen.c:1236-1268 | The same for the branches of an if statement. |
| `Codegen.Generator.LoadGlobals` | src/compiler/codegen.c:1409-1440 | The globals of the module are registered first, each at its own index. |
| `Codegen.Generator.UpdateGlobals` | src/compiler/codegen.c:1445-1476 | New names are added to the module, as nil, at the indices of the scope. |
| `Codegen.Generator.Generate` | src/compiler/codegen.c:1478-1565 | The bytes and symbols of the module and its new globals; an error iff the first fault is a name or symbol too many, and a failed assertion iff it is a label too many, in which cases the module is unchanged. The assertion fails only if jumps reach beyond the first 65536 labels, counted on the tree, and then there is never any output. |
| `ModuleObjects.ModuleObj.SetGlobal` | src/objects/moduleobj.c:165-173 | Overwrites one global, or reports that there is none with the index. |
| `ModuleObjects.ModuleObj.SetGlobalByName` | src/objects/moduleobj.c:175-192 | Appends a global with a new name or overwrites the one that has it; table and array stay in step. |
| `ModuleObjects.ModuleObj.GetGlobalByName` | src/objects/moduleobj.c:153-163 | The value of a global, if there is one with the name. |
| `ModuleObjects.ByIndex` | src/compiler/codegen.c:1409-1440 | Walking the map in any order yields all names, each at its index. |
| `MachineObject.Machine.Perform` | src/machine/invoke.c:199-612 | Each instruction that is not a jump does to stack and globals what the specification says, and takes no more off the stack than it needs; an operation on two small ints leaves the number or the Boolean that it should, as `Meaning` has it. |
| `MachineObject.Machine.Tick` | src/machine/invoke.c:249-763 | One turn of the dispatch loop is one step of the machine on bytes. |
| `MachineObject.Machine.Dispatch` | src/machine/invoke.c:249-763 | The dispatch loop is that many steps. |
| `MachineObject.Machine.RunModule` | src/machine/invoke.c:1211-1224 | Running a compiled module: the outcome and the globals are those of the source, and the stack is as it was; a module that is one operation on two literals returns its result, said as numbers. |
| `Frames.FrameList.Enter` | src/machine/stack.c:31-43 | A frame from the free list, or a new one, becomes the current one; all frames below keep their contents. |
| `Frames.FrameList.Leave` | src/machine/stack.c:45-53 | The current frame goes to the free list, and the one below becomes current. |
| `Invoking.CallStack.LeaveCall` | src/machine/invoke.c:789-824 | The registers are as the frame says, with or without room for the result. |
| `Invoking.CallStack.Call` | src/machine/invoke.c:835-941 | A call of a function enters one frame; a call of native code leaves frames and frame pointer as they were, and goes on, with its arguments gone from the stack and its result on it or not, iff the native code ended with a status that is not negative, and raises otherwise; a wrong number of arguments raises. |
| `Invoking.CallStack.Unwind` | src/machine/invoke.c:1100-1136 | An exception goes through all frames of the invocation and no others. |
| `Invoking.CallStack.Run` | src/machine/invoke.c:1147-1151 | For every run that ends, at any depth and with native code that calls back: with 0 iff the events are an invocation that returns, with -1 iff they are one that an exception leaves; the stack pointer is exactly argc + 1 lower, and the frame pointer and the list of frames are as at entry. |
| `Invoking.NativeInside` | src/machine/invoke.c:903-924 | What events mean, for a function that calls native code: it returns iff the status of the native code is not negative. |
| `Parsing.FeedYield` | src/compiler/parser.c:654-680 | Feeding the tokens of a tree leaves the stacks as if the tree had been one operand, once it is closed by an operator that binds no tighter. |
| `Parsing.ParseYield` | src/compiler/parser.c:465-730 | The parser gives back every proper tree from its tokens. |
| `Parsing.ProperUnique` | src/compiler/parser.c:465-730 | No two proper trees have the same tokens. |
| `Parsing.ParseRegular` | src/compiler/parser.c:465-730 | Every regular stream of tokens is accepted, and its tree is the one proper tree with these tokens in order: left operands bind at least as tightly, right ones strictly tighter. |
| `Parsing.RegularIffProper` | src/compiler/parser.c:465-730 | The regular streams are exactly those from which a proper tree with the same tokens is built. |
| `Parsing.SecondPrefix` | src/compiler/parser.c:654-680 | Why prefix operators must not follow each other: the second one makes the first apply to whatever operand is on the stack. |
| `Parsing.DocumentedIffOneAssignment` | doc/grammar.md:133-153 | The documented grouping, with assignments to the right, is what the parser builds iff there is at most one assignment operator. |
| `Parsing.TwoAssignments` | doc/grammar.md:149-153 | For two assignments in a row the stream is regular, the tree that is built groups to the left, and the documented one, which has the same tokens, groups to the right. |
| `Grammar.AssignmentRow` | doc/grammar.md:133-153 | The rows of the documented table written out, one after the other, describe exactly the trees of the parser (everything to the left) and those of the documentation (prefix operators and assignments to the right). |
| `Grammar.ParsesGrammar` | src/compiler/token.h:11-52 | A stream is regular iff some tree of that grammar is written so, and that tree is what the parser builds. |
| `Grammar.TwoOperators` | src/compiler/token.h:11-52 | For any two infix operators of any two rows and any three operands: which of the two takes the operand in the middle. |
| `ParserObject.ExprParser.GenOpExpr` | src/compiler/parser.c:465-652 | Takes an operator and its operands off the stacks and pushes the tree, or fails iff there are too few. |
| `ParserObject.ExprParser.InputOperator` | src/compiler/parser.c:654-680 | Reduces while the operator on the stack binds at least as tightly, whatever the associativity, then pushes. |
| `ParserObject.ExprParser.OutputExpression` | src/compiler/parser.c:711-730 | Reduces the rest; accepted iff exactly one operand is left. |
| `ParserObject.ExprParser.ParseExpr` | src/compiler/parser.c:1056-1182 | The loop over the tokens: what comes out is the one tree of the grammar, row by row, that is written so, iff the tokens are regular. |
| `HashMaps.HashMap.Get` | src/utilities/hashmap.c:159-175 | The value of the key in the finite map, or none. |
| `HashMaps.HashMap.BucketOf` | src/utilities/hashmap.c:159-175 | The node of a key is in the list of the bucket that its hash modulo the number of buckets gives. |
| `HashMaps.HashMap.Set` | src/utilities/hashmap.c:128-157 | The finite map with one key updated, whether a node is changed, appended, or the buckets are redistributed first; and how many buckets there are then. |
| `HashMaps.HashMap.Remove` | src/utilities/hashmap.c:87-108 | The finite map without the key, and whether it was there. |
| `HashMaps.HashMap.Rehash` | src/utilities/hashmap.c:29-54 | Splicing all nodes into any positive number of new buckets changes no binding and keeps the nodes. |
| `HashMaps.HashMap.Reserve` | src/utilities/hashmap.c:56-60 | The greater of the given number of buckets and the present one, and the same map. |
| `HashMaps.HashMap.Shrink` | src/utilities/hashmap.c:62-66 | The same map with fewer buckets, if it is not empty; an empty map is left without buckets, and is no longer valid, exactly then. |
| `HashMaps.HashMap.Clear` | src/utilities/hashmap.c:110-126 | The empty map. |
| `HashMaps.HashMap.ForEach` | src/utilities/hashmap.c:177-192 | Visits the nodes bucket by bucket until the visitor answers with a number other than zero. |
| `HashMaps.HashMap.SeesAll` | src/utilities/hashmap.c:177-192 | A visitor that never stops sees each binding of the map, and no key twice. |
| `HashMaps.HashMap.ExtendWith` | src/utilities/hashmap.c:73-85 | The union with another map, whose bindings win; also with itself, as long as it has no more nodes than buckets, so that setting does not replace the buckets being walked. |
| `HashMaps.MoveAll` | src/utilities/hashmap.c:37-48 | Moving the list of one old bucket puts each node behind the last one of its new bucket, and touches no other list. |
| `HashMaps.Unlink` | src/utilities/hashmap.c:91-107 | Takes one node out of its list and leaves all the others linked. |
| `Unicode.RoundTrip` | src/utilities/unicode.c:14-72 | Decoding the encoding of any code up to 0x1FFFFF gives it back, whatever follows; the length told by the first byte and the checked length are that of the encoding. |
| `Unicode.EncodeStandsFor` | src/utilities/unicode.c:14-40 | The bytes of the encoding as numbers, for all four lengths: leads and continuations are in their ranges, and what exceeds them adds up to the code in base 64. |
| `Unicode.OneEncoding` | src/utilities/unicode.c:14-40 | No other bytes do so for this code. |
| `Unicode.DecodeNumbers` | src/utilities/unicode.c:42-72 | Decoding any bytes with such a lead and as many continuations gives the number they stand for. |
| `Unicode.LengthNumbers` | src/utilities/unicode.c:74-113 | The length that a first byte tells, by the range it is in. |
| `Unicode.StringRoundTrip` | src/utilities/unicode.c:14-72 | Decoding the encoding of any sequence of such codes gives it back. |
| `Unicode.CharAt` | src/utilities/unicode.c:74-113 | What is found where one character of an encoded string begins. |
| `Unicode.FromUnicode` | src/utilities/unicode.c:14-40 | Writes bytes that stand for the code, as numbers, and no others, into the buffer. |
| `Unicode.CheckedStringLength` | src/utilities/unicode.c:132-158 | The length of an encoded sequence of codes is the number of codes before the first zero. |
| `Unicode.SkipPrefix` | src/utilities/unicode.c:219-230 | Skipping k characters lands where the encoding of the first k codes ends, or at the first zero byte if there are fewer codes before it. |

## Left out

- Weak references, finalizers and the visitors of registered roots: roots are a sequence of slots, and finalizers are assumed to touch no live object.
- Chunks and big objects are regions of their own; which addresses the operating system gives them is not part of the model. A chunk is found by its number instead of through its address, and the running cursor that speeds this up while objects are moved (src/objects/objmem.c:1128-1195) is replaced by a direct lookup.
- An object is moved or copied as a whole, not byte by byte. Fields of a new object hold no reference before they are set.
- Class objects are assumed to be the first objects of old space and to be rooted, as at start-up; classes made later, whose instances come and go with them, are not part of the model.
- Runs.Do: local variables of a program are roots; a new object that does not fit is not tried again.
- ObjMem.Context.TryAllocYoung: one attempt in one space; the loop that collects and tries again (src/objects/objmem.c:1584-1647) is not part of the model. The same holds for TryAllocOld and TryAllocBig.
- RememberedSets.RememberedSet.Record: the buckets of a set are values in an array, so that aliasing between buckets is not modelled.
- The collector uses the list of recorded offsets in increasing order, which is what iterating over the bits yields (`Recording.RecordThenIterate`).
- Language constructs outside the fragment: function definitions and calls, locals, attributes and elements, collections, `for`, import, floating point, string and symbol literals, `!`. Integers that need the constant pool are outside too.
- Small integers only for operands; arithmetic whose result is not a 64-bit number is undefined in C, and a run that gets there is a crash of the model. Results that are not small integers, bit operations, and methods called for other operands are parameters (`Language.Runtime`) that leave the globals alone.
- The stack of the machine is not bounded; the original reserves a fixed number of slots and does not check.
- Bytecode.OperandNumbers: operands of two bytes are those of a host that stores the low byte first; the original stores them in the order of its host.
- Codegen.Generator.Generate: an error is a result here instead of a jump out of the recursion, and so is the end of the process by a failed assertion. What a module with more than 65536 labels does when assertions are not checked is shown for one family of modules only (`Limits.ManyLabels`); the function object that is made of the bytes is a parameter. Giving up on a jump that is too far ends the process in the original.
- MachineObject.Machine.RunModule: the invocation only; clearing the function of the module afterwards and calling `main` are not part of the model.
- Promotion.FastStaysYoung: when a path crosses a survivor of an earlier collection, which of the objects behind it stay young depends on the order of roots and fields; then only one direction holds. `Promotion.OrderExample` has two orders of the same roots.
- Invoking.CallStack.Run: which instruction comes next is a parameter, since registers and frames do not depend on the values on the stack. Objects called through a `()` method, and missing optional arguments, are not part of the model. Native code moves the stack pointer and calls back into the machine, and does nothing else to the registers.
- The scanner, statements, and the inside of brackets and braces: an operand in brackets is a token here. Locations of errors are left out.
- ParserObject.ExprParser.GenOpExpr: an assertion about the operand of a call that does not hold is a failure here; without assertions the original goes on with a node of the wrong kind.
- HashMaps.HashMap.Set: keys are compared by the equality of the key type, which stands for any equivalence that the hash respects; which of two equal keys is kept is not modelled.
- HashMaps.HashMap.Get: a key whose value is a null pointer is not told apart from a missing one in the original.
- HashMaps.HashMap.Shrink: what the other operations do to a map without buckets, where the original divides by zero.
- HashMaps.HashMap.ExtendWith: extending a map by itself when it has more nodes than buckets, since the original then walks buckets that have been freed. The bindings are collected before they are set.
- Unicode.CheckedStringLength: encoded strings only; on malformed input the original takes a negative length for a large one.
- Unicode.SkipPrefix: encoded strings only; for a byte that cannot begin a character the original, like the method, gives no position.
- Classes, exceptions and their backtraces, streams, files, modules on disk, and the public interface.
