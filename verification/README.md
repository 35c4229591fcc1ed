# Stunt: verified models of the server's hard parts

Stunt is a MOO server. Programs in its language are compiled to bytecode and run by a stack machine; objects live in a
database with several parents per object; maps are red-black trees; reference cycles are found by a trial-deletion
collector; and an incremental HTTP parser reads requests as they arrive. This project models these five components in
Dafny and proves, for all inputs and all runs, what the server relies on.

Run `dafny verify dfyconfig.toml` to check everything. Each file holds one module of the same name.

**Bytecode (`Moo*.dfy`).** `MooAst` and `MooSemantics` define the core language (variables, literals, operators, `and`,
`or`, `?:`, lists with splices, catch expressions, `if`/`elseif`, `while`, counted `for`, `break`/`continue`,
`try`-`except`, `try`-`finally`, `return`) and its big-step meaning; loops are counted down by a fuel argument, and results
quantify over all fuels. `MooCode` is the code of each construct as instructions, `MooMachine` the machine's step function
and `MooVm` the machine as a class with a fixed array stack. `MooExprRuns`, `MooStmtRuns` and `MooCompiler` relate meaning
and machine. `MooDecompiler`, `MooRoundTrip` and `MooProgramRoundTrip` read code back. `MooItems`, `MooFixups`,
`MooGenerator`, `MooLabels` and `MooRelocation` are the byte layer: the generator class with its label chains, the bounds of
labels and stack operands, and the relocation of labels when operands get their final widths. `MooUnwind` follows a raised
error across activations, `MooStacks` shows that the stacks of generated code are fit for that. `MooScatter` is scattering
assignment.

**Maps (`Rb*.dfy`).** `RbMap` changes a heap of linked nodes as the source does. `RbTree`, `RbInsert` and `RbErase`
describe the same steps on trees with a hole (the path to the current node), and `RbHeap` and `RbEraseHeap` connect the two.
After a rotation the source's grandparent and parent pointers are stale; the three phases of the insertion invariant say
what is still true of them. `RbTraversal` is the iterator with its path array, `RbOperations` the finite-map view.

**Collector (`Cycle*.dfy`).** `CycleGraph` is a finite multigraph with colours, counts and buffered flags, `CycleCollector`
the passes as methods of a class, `CyclePasses` the invariants of each pass and `CycleTheorems` what they amount to.

**Database (`Db*.dfy`).** `DbVerbs` is the object table with its verb cache, `DbAncestors` the two passes behind ancestor
lists, `DbProperties` the property-value arrays. `DbGraph`, `DbLinks`, `DbDescendants`, `DbLayout` and `DbSlots` hold what they
need of graphs and layouts; acyclic graphs are those with ranks that fall from child to parent. For changes of parents,
`DbJoin` is the algebra of joining lists without repeats, `DbChparent` and `DbCone` the objects below the moved one, `DbHybrid` the
lists that are put together from old and new ones, `DbFixing` the course of the fix-up, `DbGifts` what is given for newly
inherited properties, and `DbWideCone` three moves beyond the easy ones: two that go wrong and one in which two exchanges cancel.
`Options` is the one datatype the bytecode and database models share.

**HTTP (`Http*.dfy`).** `HttpSwitch` is what the strict parser does with one character in each state, `HttpParser` the loop
over a buffer as a class, `HttpFeed` the same parser fed one character at a time. `HttpPieces` compares ways of cutting a
stream; `HttpChunks`, `HttpNames`, `HttpHeaders` and `HttpMessages` write messages out and read them back.

## Findings

Seven properties one might expect of the code are false of it. Each has an input that shows it and the condition under
which the code is right. The conditions are exact except for the last one, where the reason is given.

| what goes wrong | where | input | when the code is right |
|---|---|---|---|
| the sweep that gives counts back walks into live nodes and leaves counts too high | garbage.cc:310-316 tests for pink only | `CycleTheorems.SweepCanHitLiveNodes`: a one-node garbage cycle holding a live list that holds an anonymous object | if and only if every live child of a garbage node has no children of its own: `CycleTheorems.RestoredExactly` |
| a live object is queued for destruction | the same sweep, and garbage.cc:343-382 queues whatever it has painted | `CycleTheorems.LiveObjectQueued`: a one-node garbage cycle holding a live anonymous object; here the counts do come back | if and only if every anonymous object the sweep reaches is garbage: `CycleTheorems.QueuedExactly`. Without live children at all both are right: `CycleTheorems.CleanCollection` |
| labels behind a stack operand are wrong and the code vector overruns its allocation | code_gen.cc:410-414 counts no stack operands | `MooRelocation.DeepStacksOverrun`: any program with a loop exit that needs more than 256 stack entries | if and only if stack operands are one byte wide or none comes before the label's target: `MooRelocation.LabelIsRight`, `MooRelocation.SizeIsRight` |
| a variable's slot is cut off | code_gen.cc:1191-1200 takes one byte for a maximum of 256 and two for 65536 | `MooRelocation.Slot256IsCut`: the program `x;` with `x` in slot 256 is compiled to read slot 0 | if and only if the slot is not the limit itself with the limit 256 or 65536: `MooRelocation.RefFits`, `MooRelocation.StmtToCode` |
| the stack level of a loop exit is cut off, so that the exit unwinds the whole stack | the same choice of width | `MooRelocation.Depth256IsCut`: 128 nested counted loops around one `continue` | if and only if the level is not the program's maximum itself with the maximum 256 or 65536: `MooRelocation.StmtToCode` |
| changing parents aborts the server | db_properties.cc:903 checks the number of values against a list of old ancestors that db_properties.cc:987 takes in part from the changed graph | `DbWideCone.DiamondFails`: an object with a diamond below it is given a parent that defines a property | if and only if every descendant with more than one parent inside the moved cone inherits properties from the same objects before and after: `DbProperties.PropertyDb.ChangeParents` |
| changing parents exchanges property values without a word | as above | `DbWideCone.LadderReorders`, `DbWideCone.ValuesExchanged`: five objects, two properties, one parent removed | when those descendants also inherit them in the same order: `DbProperties.PropertyDb.ChangeParents`. This is enough and not needed: in `DbWideCone.ForkCancels` the order changes, two visits exchange values, and the exchanges cancel, so whether a change of order does harm depends on all visits together |

## Model

| member | source | states |
|---|---|---|
| MooCompiler.CompilerIsCorrect | code_gen.cc:608-1183 | for every well-scoped program and either setting of the two fusions, the machine halts in a state if and only if the program's big-step meaning ends with that result and those variables; so it also runs on exactly when the program does not end |
| MooCompiler.FusionIsInvisible | execute.cc:925-944 | running IMM with the POP behind it, and PUT with the POP behind it, in one step reaches exactly the same final states as running them separately |
| MooCompiler.StackIsSafe | code_gen.cc:416-428 | in every state any run of generated code passes through, on normal, error, finally and exit paths, no step is stuck for want of stack entries or of a handler's pairs, and the stack is no higher than the recorded maximum |
| MooStacks.StacksAreSane | execute.cc:2152-2188 | in every such state each handler marker lies on its pairs of codes and address, which is what the unwinding theorems ask of a stack |
| MooCompiler.ProgramRuns | execute.cc:735-950 | the number of steps and the stack bound of a run, for programs that end and for those that do not |
| MooExprRuns.ExprRuns | code_gen.cc:608-955 | the code of every expression leaves its value on an otherwise unchanged stack, or raises its error, within its computed depth |
| MooStmtRuns.StmtRuns | code_gen.cc:960-1183 | the code of every statement does what the statement means from any stack and inside any loops, including leaving it by an error, return, break or continue |
| MooStmtRuns.CountedRuns | execute.cc:881-923 | a counted loop visits exactly the numbers from its lower to its upper bound, and ends without overflow when the upper bound is the largest integer |
| MooStmtRuns.FinallyRuns | execute.cc:2189-2226 | a FINALLY body runs once however the protected body is left, and then what it interrupted goes on |
| MooStmtRuns.HandlersRun | code_gen.cc:1089-1125 | a raised error enters the first handler whose codes match, with the stack as it was before the statement |
| MooStmtRuns.RaiseInExcept | execute.cc:214-272 | what raising does below a try-except: the first matching handler, or the same as raising outside |
| MooVm.Activation.Run | execute.cc:735-950 | the machine on an array of exactly the recorded maximum size, with no bounds checks, refines the abstract run for any number of ticks, and what it halts with is the program's meaning |
| MooVm.Activation.Execute | execute.cc:852-944 | one instruction on the array stack is one step of the abstract machine |
| MooVm.Activation.UnwindStack | execute.cc:213-272 | the unwinding loop on the array stack equals the recursive definition of unwinding |
| MooVm.Activation.RaiseCode | execute.cc:478-508 | raising an error looks for a handler first and unwinds or aborts accordingly |
| MooVm.Activation.FindHandler | execute.cc:383-404 | the scan of one activation finds a handler exactly when one of its active handlers takes the code |
| MooVm.Activation.ExecuteRange | execute.cc:881-923 | FOR_RANGE on the array stack: bad bounds raise, an empty range leaves, otherwise the variable is set and the counter moves on |
| MooVm.Activation.ExecuteContinue | execute.cc:2203-2226 | EOP_CONTINUE takes up the reason and value saved by the FINALLY body |
| MooUnwind.ErrorsTakeTheirCourse | execute.cc:478-508 | across any number of activations: with a handler, unwinding and resuming after each FINALLY body runs exactly the FINALLY bodies between the error and its handler, innermost first and once each, and enters that handler; without one the error is unwound as uncaught, runs all of them and enters no handler |
| MooUnwind.UncaughtRunsAll | execute.cc:214-272 | unwinding an uncaught error runs every FINALLY body of every activation and enters no handler, whatever codes the handlers take |
| MooUnwind.PickedFrame | execute.cc:383-404 | the activation found beforehand is the one whose handler is entered |
| MooUnwind.Task.FindHandlerActiv | execute.cc:383-404 | the loop returns the innermost activation with a matching handler, or -1 when there is none |
| MooUnwind.Task.UnwindStack | execute.cc:213-380 | for raised and for uncaught errors, the loop over activations pops frames as the recursive definition says |
| MooProgramRoundTrip.RoundTrip | decompile.cc:128-897 | decompiling the code of any parsed, well-scoped program gives back the same program, so none of the decompiler's consistency checks fails |
| MooGenerator.Generator.GenerateExpr | code_gen.cc:608-955 | the emitted bytes and fixups are those of the expression's instructions, every label that was opened is closed, and the stack counters follow |
| MooGenerator.Generator.GenerateStmts | code_gen.cc:960-1183 | the same for statements; the exits of enclosing loops stay chained and aim at their loop's ends |
| MooGenerator.Generator.DefineLabel | code_gen.cc:392-408 | every fixup on a chain comes to point at the current position and no other fixup changes |
| MooGenerator.Generator.CaptureLabel | code_gen.cc:371-390 | a captured label points at the current position, with the counts of operands before it |
| MooGenerator.Generator.AddLinkedLabel | code_gen.cc:222-236 | a new fixup is put in front of a chain that keeps its aim |
| MooGenerator.Generator.Finish | code_gen.cc:1225-1233 | at the end the bytes are those of the whole program and the counts are the numbers of its operands |
| MooRelocation.StmtToCode | code_gen.cc:1210-1386 | the produced vector holds every instruction at its relocated position with its operand; its length is the announced size if and only if stack operands are one byte wide or absent; a slot fits its width if and only if it is not the limit itself with the limit 256 or 65536, and a stack operand if and only if it is not the recorded maximum itself with the maximum 256 or 65536 |
| MooRelocation.Relocate | code_gen.cc:1332-1381 | the copying loop writes every raw byte and every operand, at its width, at its new position |
| MooRelocation.LabelIsRight | code_gen.cc:1352-1359 | a label with a right fixup is relocated to its target's new position if and only if stack operands are one byte wide or none comes before the target |
| MooRelocation.SizeIsRight | code_gen.cc:1246-1257 | the computed size is the length of the vector under the same condition, both ways |
| MooRelocation.ReadsBack | execute.cc:759-768 | reading an operand back from the vector gives it again if and only if it fits its width; stack operands are one byte wide or absent, as else the labels are wrong |
| MooRelocation.RefFits | code_gen.cc:1191-1200 | when the chosen width holds a value no larger than the maximum: always except for a maximum of exactly 256 or 65536 |
| MooRelocation.SizesSuffice | code_gen.cc:1239-1260 | the widths chosen for literals and labels hold all of them |
| MooLabels.LabelsNameInstructions | code_gen.cc:344-408 | every label of a program names one of its instructions, and no loop exit names more stack entries than the recorded maximum |
| MooRelocation.DeepStacksOverrun | code_gen.cc:410-414 | a break out of a loop in a program that needs more than 256 stack entries has two-byte stack operands that are not counted |
| MooRelocation.Slot256IsCut | code_gen.cc:1191-1200 | the operand of the program that reads slot 256 does not fit the width chosen for it |
| MooRelocation.Depth256IsCut | code_gen.cc:1191-1200 | 128 nested counted loops around a continue need 256 stack entries, and the operand of the exit, 256, does not fit the width chosen for it |
| MooRelocation.PseudoLabelsStayApart | code_gen.cc:344-360 | the 0 or 1 of a scattering target is not moved by relocation, and no real label is moved below where it was, so the two are told apart afterwards as before |
| MooScatter.Scatter | execute.cc:2075-2139 | for any pattern with at most one rest target and any value: fails, changing nothing, exactly when the value is no list or has too few or too many elements; otherwise the targets' parts put together are the list, the variables are assigned in order, and the code jumped to is exactly the default expressions of the optional targets that got nothing |
| MooScatter.PartsAreTheList | execute.cc:2075-2139 | cutting a list for a pattern loses, doubles and moves nothing, and gives each target its number of elements |
| MooScatter.AllDefaults | code_gen.cc:866-877 | behind the first optional target that gets nothing, all default expressions are needed |
| MooScatter.Operate | code_gen.cc:842-877 | the generator's loops write the counts, the variables and, for each default expression, the label of the place where its code comes to lie |
| RbMap.RbMap.RbInsert | map.cc:283-358 | inserting an absent key leaves a red-black tree in search order with a black root, one more node, and exactly that item added, despite stale helpers after rotations |
| RbMap.RbMap.RbErase | map.cc:365-455 | erasing removes exactly the item with the key, if there is one, and says so; the tree stays red-black, ordered and counted |
| RbMap.RbMap.RbSingle | map.cc:110-122 | whatever tree hangs at the given node, afterwards the rotated one does, with the same items in the same order (RbHeap.SingleTurns); its root is returned and no node outside it is touched |
| RbMap.RbMap.RbDouble | map.cc:130-136 | the same for the double rotation (RbHeap.DoubleTurns) |
| RbHeap.SingleTurns | map.cc:110-122 | the four assignments of a single rotation make the rotated tree of the nodes they find, with the same items in the same order, and write only to nodes of that tree |
| RbHeap.DoubleTurns | map.cc:130-136 | two single rotations in a row make the tree rotated twice, likewise |
| RbInsert.RotationIsPossible | map.cc:284-358 | when two reds meet there is a black grandparent with a black other child |
| RbInsert.FlipSingle | map.cc:314-331 | a colour flip repaired by a single rotation keeps the descent's invariant, the grandparent pointer being stale |
| RbInsert.FlipDouble | map.cc:314-331 | the same for a double rotation, both helpers being stale |
| RbInsert.WholeIsRedBlack | map.cc:348-355 | blackening the root completes the red-black tree without changing its items |
| RbErase.HelpedKeeps | map.cc:402-430 | pushing a red node down by any of the recolourings and rotations keeps black heights, order and what comes before and after the hole |
| RbErase.RemovedItems | map.cc:434-443 | unlinking the last node on the path and copying it over the found node removes exactly the found item |
| RbErase.NothingFound | map.cc:366-455 | when the descent met no equal key there is none in the tree |
| RbTree.HeightLimit | map.cc:55-62 | a red-black tree of fewer than 2^32 - 1 nodes is less than 64 high, so the path array cannot overflow |
| RbTraversal.Traversal.First | map.cc:483-499 | the iterator starts with all items in order before it |
| RbTraversal.Traversal.Seek | map.cc:247-276 | the iterator is placed at the key, with exactly the items from there on before it, if and only if the key is there |
| RbTraversal.Traversal.Next | map.cc:507-535 | moving on drops exactly the first of the items before it, and the end is reached when none is left |
| RbOperations.MapInsert | map.cc:662-700 | erasing and then inserting is the update of a finite map |
| RbOperations.MapLookup | map.cc:702-715 | a key is found exactly when the map holds it, with its value |
| RbOperations.MapDup | map.cc:615-633 | the copy has the same items in the same order in a fresh tree |
| RbOperations.SameMapSameItems | map.cc:507-535 | two maps with the same contents are traversed in the same order, however they were built |
| RbOperations.InsertedMap | map.cc:283-358 | adding an item to the ordered list is adding it to the map |
| RbOperations.ErasedMap | map.cc:365-455 | taking an item out of the ordered list is taking it out of the map |
| CycleTheorems.GarbageIsLargestClosedIsland | garbage.cc:207-304 | the nodes found white are the largest set of suspects all of whose references come from within the set |
| CycleTheorems.ResultHolds | garbage.cc:207-382 | the four passes in a row: colours, counts and the queue afterwards, for any graph |
| CycleTheorems.RestoredExactly | garbage.cc:306-341 | the sweep gives back exactly what trial deletion took if and only if every live child of a garbage node has no children of its own |
| CycleTheorems.QueuedExactly | garbage.cc:343-382 | the queue holds the anonymous garbage objects and nothing else if and only if every anonymous object the sweep reached is garbage |
| CycleTheorems.LiveObjectQueued | garbage.cc:310-316 | a state between collections in which a garbage cycle holds a live anonymous object: the condition for the counts holds, and the live object is swept though it is no garbage, so it is queued if it is anonymous |
| CycleTheorems.SweepCanHitLiveNodes | garbage.cc:310-316 | a state between collections in which a garbage cycle holds a live list: the live object in the list is swept and its count comes out one too high |
| CycleTheorems.CleanCollection | garbage.cc:306-405 | without live children: every count is as before but for the reference each queued object gains, and each anonymous garbage object is queued once |
| CycleTheorems.SuspectsCounted | garbage.cc:343-364 | every node the collector suspects had a reference, so the assertion on queued objects holds |
| CycleTheorems.RestAgain | garbage.cc:383-405 | the state between collections is reached again |
| CyclePasses.ScanRootsEnds | garbage.cc:269-304 | after the scan nothing is grey, and black are exactly the suspects reachable from one with an outside reference |
| CyclePasses.HeldFromOutside | garbage.cc:278-289 | a positive trial count means a reference from outside the suspects, or from one that is held from outside |
| CyclePasses.RootsFloodedEnd | garbage.cc:226-248 | the nodes marked from the roots are exactly those reachable from purple roots |
| CyclePasses.CollectingEnds | garbage.cc:343-382 | collecting in root order queues every pink anonymous object once, although buffered ones are passed over at first |
| CyclePasses.DeadRoot | garbage.cc:240-246 | a root found black with no count was so before the pass |
| CycleCollector.Collector.PossibleRoot | garbage.cc:142-157 | colouring and buffering a possible root keeps the state between collections |
| CycleCollector.Collector.MarkGray | garbage.cc:206-224 | paints everything reachable that was not grey, and takes one from a count for each reference it follows |
| CycleCollector.Collector.MarkRoots | garbage.cc:226-248 | all suspects are grey without their internal references; other roots leave the list, dead ones are freed |
| CycleCollector.Collector.ScanBlack | garbage.cc:250-267 | gives back the references of everything reachable that it paints black |
| CycleCollector.Collector.Scan | garbage.cc:269-289 | settles every grey node it can reach as white or black |
| CycleCollector.Collector.ScanRoots | garbage.cc:291-304 | afterwards exactly the garbage is white and counts lack exactly the references held by garbage |
| CycleCollector.Collector.ScanWhite | garbage.cc:306-323 | paints everything reachable that was not pink, and gives a reference for each it follows |
| CycleCollector.Collector.RestoreWhite | garbage.cc:325-341 | everything reachable from white roots is pink and has its references counted again |
| CycleCollector.Collector.CollectWhite | garbage.cc:343-364 | queues the anonymous objects it blackens, each once, and touches nothing else |
| CycleCollector.Collector.CollectRoots | garbage.cc:366-382 | empties the root list, clears every buffered flag and queues exactly the pink anonymous objects |
| CycleCollector.Collector.Collect | garbage.cc:383-405 | a whole collection, and the state between collections again when no garbage node has a live child |
| DbVerbs.Database.FindCallableVerb | db_verbs.cc:529-669 | the lookup with the cache returns what depth-first search from a valid receiver returns without it, and nothing for an invalid one, and keeps every cache entry, positive or negative, equal to that search |
| DbVerbs.Database.CachedSearch | db_verbs.cc:545-660 | one receiver's search: a hit or a miss, an entry made for either |
| DbVerbs.Database.FindCallableVerbdef | db_verbs.cc:484-525 | the loop over the work stack ends on any acyclic graph and is depth-first search |
| DbVerbs.Database.ChangeParents | db_objects.cc:864-934 | the links are changed on both sides and every cache entry stays right, also when the flush is skipped because the object has no children and no verbs |
| DbVerbs.Database.AddVerb | db_verbs.cc:200-226 | the verb is added behind the others and the cache stays right |
| DbVerbs.Database.DeleteVerb | db_verbs.cc:277-301 | exactly that verb goes and the cache stays right |
| DbVerbs.Database.ChangeVerb | db_verbs.cc:808-820 | renaming a verb or changing its flags keeps the cache right |
| DbVerbs.Database.CreateObject | db_objects.cc:207-216 | a new object makes no cache entry wrong |
| DbVerbs.Database.DestroyObject | db_objects.cc:218-275 | destroying an object keeps the cache right |
| DbVerbs.Database.FlushCache | db_verbs.cc:371-392 | the flush empties every chain |
| DbVerbs.ChainApart | db_objects.cc:877-890 | entries stay right when only an object without children and verbs changes its parents |
| DbGraph.SearchApart | db_verbs.cc:484-525 | depth-first search from elsewhere does not see such an object |
| DbGraph.SearchFolds | db_verbs.cc:545-570 | names that differ in case only are searched alike, so an entry may serve both |
| DbNames.MatchFolds | utils.cc:104-138 | matching a verb name does not depend on the case of the word |
| DbNames.HashFolds | utils.cc:140-149 | words that differ in case only have the same hash |
| DbAncestors.Lister.Ancestors | db_objects.cc:596-675 | both passes visit the same objects, so the list is as long as announced; it holds each ancestor once, and the first verb found along it is the one depth-first search finds |
| DbAncestors.Lister.Count | db_objects.cc:598-619 | counts the unmarked ancestors and marks them |
| DbAncestors.Lister.Add | db_objects.cc:621-643 | adds the unmarked ancestors in depth-first order and marks them |
| DbAncestors.FirstIsFound | db_verbs.cc:484-525 | the first match in the marked list is the result of the unmarked search |
| DbAncestors.VisitMarks | db_objects.cc:596-675 | a visit adds each unmarked ancestor once |
| DbDescendants.Descendants | db_objects.cc:596-676 | the descendants are the objects that have this one as an ancestor, each once |
| DbLinks.MovedLinked | db_objects.cc:892-918 | parents and children agree after a change of parents |
| DbLinks.MovedRanked | db_objects.cc:864-934 | the graph stays acyclic when no new parent descends from the object |
| DbLayout.AncFromParents | db_properties.cc:968-1000 | an ancestor list is the object and its parents' lists joined without repeats |
| DbProperties.PropertyDb.PropertiesOffset | db_properties.cc:46-66 | where an ancestor's values start, or -1 when it is no ancestor |
| DbProperties.PropertyDb.AddPropdef | db_properties.cc:171-213 | in any acyclic graph every array stays laid out by its ancestor list; the new slot is in its place, clear below the object, and all other values are kept |
| DbProperties.PropertyDb.InsertBelow | db_properties.cc:146-169 | the same for the descendants, in the order they are visited |
| DbProperties.PropertyDb.DeletePropdef | db_properties.cc:301-350 | exactly that slot goes in every descendant's array and all other values are kept |
| DbProperties.PropertyDb.RemoveBelow | db_properties.cc:279-299 | the same for the descendants |
| DbProperties.PropertyDb.ChangeParents | db_objects.cc:864-934 | for any acyclic graph: no check fails if and only if every descendant with more than one parent inside the cone keeps its set of property-defining ancestors; if it keeps their order too, values of definers inherited before and after are kept, and newly inherited ones are clear, with the permissions they have at the first parent that inherits them and its owner for them, or the object's own owner where the permissions ask for that; every array has its new length and objects outside the cone are untouched |
| DbProperties.PropertyDb.Fix | db_properties.cc:861-1006 | the recursion covers exactly the object and its descendants, each child from each parent, and reads only values that have been laid out anew |
| DbProperties.PropertyDb.Relay | db_properties.cc:893-949 | one array is laid out anew from the old one by both lists; what the old list does not have comes from the first parent that inherits it: clear, with its permissions, and with its owner or the object's as they say |
| DbGifts.GiftsMore | db_properties.cc:921-933 | when an object is fixed, those fixed before keep what they were given: their givers do not change any more |
| DbProperties.PropertyDb.ChildLists | db_properties.cc:968-1000 | the new list of a child is its real one; the old list is the join of its parent's old list and the other parents' new lists |
| DbSlots.InsertKeeps | db_properties.cc:112-138 | inserting a value at the computed place leaves every other definer's slots readable where they belong |
| DbSlots.RemoveKeeps | db_properties.cc:246-271 | the same for removing one |
| DbChparent.AncOutside | db_properties.cc:861-1006 | ancestor lists outside the cone do not change |
| DbHybrid.Twice | db_properties.cc:968-1000 | what descends from two children of a member of the cone inherits alike before and after, so a second visit finds what the first left |
| DbHybrid.OlderCalm | db_properties.cc:978-995 | an object whose sources and their order do not change is given the right list of old ancestors however old and new lists of its parents are mixed |
| DbJoin.Mixed | db_properties.cc:978-995 | joins without repeats: if taking the old list everywhere and the new list everywhere give the same, so does every mixture |
| DbHybrid.ChildVisitable | db_properties.cc:968-1000 | the recomputed old list of a child misses nothing it inherited and names nothing that is not an old or new ancestor; with two parents inside the cone it names all of both |
| DbCone.NarrowIsCalm | db_properties.cc:861-1006 | when every descendant has one parent inside the cone both conditions hold |
| DbFixing.FirstCheck | db_properties.cc:903 | the first check of an object with two parents inside the cone holds only if it gains no source |
| DbFixing.LaterCheck | db_properties.cc:903 | a later check holds only if it loses none |
| DbFixing.EvidenceKeeps | db_properties.cc:957-1003 | once every child has been visited from every parent, checks that held show that all sources are kept |
| DbFixing.AllFixed | db_properties.cc:861-1006 | when every member of the cone has been fixed, every array has the length of its new list, and if order is kept the right values |
| DbWideCone.DiamondFails | db_properties.cc:903 | giving the top of a diamond a parent with a property makes a descendant with two parents inside the cone gain a source, so that move fails |
| DbWideCone.LadderReorders | db_properties.cc:968-1000 | taking an object's one parent away is a move that every check lets pass, and after which one object is visited again with its sources in the wrong order |
| DbWideCone.ValuesExchanged | db_properties.cc:912-919 | whatever the two values are, that visit exchanges them |
| DbWideCone.ForkCancels | db_properties.cc:968-1000 | a move that changes the order of an object's sources, and whose two visits nevertheless leave every value where it belongs |
| HttpParser.HttpParser.Execute | http_parser.c:359-1716 | the loop with its marks and bulk reads does what feeding the characters one by one does: same fields, same callbacks with adjacent pieces joined, same error at the same place |
| HttpParser.HttpParser.Read | http_parser.c:419-1716 | the loop over a non-empty buffer, from any state reached before |
| HttpParser.HttpParser.Round | http_parser.c:419-1698 | one round of it, a character or a piece of a body, is what feeding its characters does |
| HttpParser.HttpParser.Perform | http_parser.c:59-76 | marks and deliveries of one character add up to the joined callbacks |
| HttpPieces.Compare | http_parser.c:370-417 | a stream given at once and in any non-empty pieces: same number of characters used, same error, and without error the same fields and the same joined callbacks |
| HttpPieces.ReadPieces | http_parser.c:359-1716 | reading pieces until an error or upgrade is reading their concatenation |
| HttpFeed.FedOn | http_parser.c:419-1698 | a stream is fed piece by piece as it is fed at once |
| HttpFeed.TakenAtOnce | http_parser.c:1578-1598 | a body piece handed over at once is what its characters would be one by one, up to and including the end of the message |
| HttpFeed.NeverAborts | http_parser.c:1600-1698 | no stream makes an assertion fail: chunk sizes start with a fresh count and the chunked flag, header states are known |
| HttpStream.ByteKept | http_parser.c:419-1698 | every character of every state keeps: the saved index fits one byte and the count four, marks are set exactly where a text is open, body lengths are positive |
| HttpChunks.ChunkedBody | http_parser.c:1600-1698 | any chunks written per section 3.6.1 of RFC 2616, with any hexadecimal spelling and parameters, are delivered as exactly their contents, and the message is complete once, at the end |
| HttpChunks.FedLine | http_parser.c:1600-1664 | a size line is read as its hexadecimal value; zero starts the trailer |
| HttpChunks.CountedBody | http_parser.c:1578-1590 | a body of announced length is delivered whole and ends the message |
| HttpNames.TracksMeaning | http_parser.c:1189-1300 | comparing a header name while it is read finds the header that comparing the whole name, in any case and with spaces behind it, would find |
| HttpNames.FieldTracks | http_parser.c:1193-1296 | one more character keeps what the header state says of the name so far |
| HttpNames.CharTracks | http_parser.c:1386-1466 | the same for values |
| HttpNames.LowerFolds | http_parser.c:311-312 | setting one bit folds case on every byte that matters |
| HttpHeaders.FedHeader | http_parser.c:1138-1501 | a header line is reported as its name and value and has the effect its name and value stand for |
| HttpHeaders.FedHeaders | http_parser.c:1138-1501 | the same for any list of header lines |
| HttpMessages.NextLetter | http_parser.c:691-743 | no letter of any of the 24 method names leads the guessing away from it |
| HttpMessages.RequestRoundTrip | http_parser.c:419-1698 | any request written out (any path, version, header lines, every method but CONNECT, no Upgrade header, and a body as section 4.4 of RFC 2616 measures it, or none if the callback asks for none) is read back: the same method, url, fields and body, in order and once each, and the parser is ready for the next message |
| HttpMessages.RequestSwitches | http_parser.c:1503-1550 | a request with the method CONNECT or an Upgrade header is read up to the end of its headers, and the parser stops there, whatever follows |
| HttpMessages.FedRequestLine | http_parser.c:650-1136 | a request line is read as its method, url and version |
| HttpMessages.FedRest | http_parser.c:1138-1598 | header lines, an empty line and a body of the length they announce, or none if the callback asks for none, when the protocol does not change |

## Left out

- Code outside the core language: built-in calls, verb calls, forks, `for` over lists and maps, property, index and range
  assignment and `$` (FIRST/LAST) need the object model. The rewriting of a variable's last use into PUSH_CLEAR
  (BYTECODE_REDUCE_REF) is left out with them, since it is visible only to code that reads the variables of its caller.
- Ticks, time limits and suspension: the machine model counts steps but has no limits.
- The error tuple holds only its code; message, value and traceback are not modelled.
- Codes of handlers are compared as values; the source's list membership ignores the case of strings, which error codes are not.
- The handler count of a try-except is one byte in the code; the model does not cut it at 256 handlers.
- MooProgramRoundTrip.RoundTrip: works on instructions with resolved labels, not on bytes, and leaves out the search for the
  node of a program counter and the line numbers.
- MooGenerator.Generator.GenerateStmts: handler lists are walked by recursion where the source loops; literals are compared by value.
- MooRelocation.StmtToCode: sizes are unbounded integers; what the source does beyond 2^32 bytes is not modelled.
- MooScatter.Scatter: stands beside the compiler proof; the default expressions are pieces of code that the machine model does not
  run.
- MooScatter.Operate: its labels are places before relocation and it makes no fixups; of their relocation only
  MooRelocation.PseudoLabelsStayApart is stated.
- MooUnwind.Task.UnwindStack: leaves out the frames of built-in functions, which the source resumes while unwinding.
- Collector: the list of pending roots is a sequence rather than linked cells with a free list, counts are unbounded, and the
  storage flags of freed objects are not modelled.
- Maps: keys are their rank in the comparison order and their spelling; reference counts, ranges of maps, comparison of maps,
  descending traversal and freeing are left out.
- RbMap.RbMap.RbInsert: requires an absent key, as its callers arrange; with a duplicate the source counts a node too many.
- Verb names: two names given by the same pointer match without comparison in the source; the model compares them.
- DbVerbs.Database.ChangeVerb: one method for all changes of a verb that the source makes by several setters.
- Anonymous objects, renumbering, and player lists: the database model has permanent objects only.
- DbProperties.PropertyDb.ChangeParents: requires what the source checks before it. That order is kept is proved to be enough for
  the values to be right, one way only: which reorderings do harm depends on all visits together (DbWideCone.ForkCancels).
- Property names: conflicts and lookups by name are left out, and so is the source's incomplete check for duplicate parents, which
  no result here relies on.
- HttpParser.HttpParser.Execute: callbacks succeed and on_headers_complete gives one fixed answer; lengths are unbounded
  integers. After an error or a change of protocol only the position and the error are stated.
- HttpMessages.RequestRoundTrip: requests that change the protocol are in HttpMessages.RequestSwitches; at most 80 KB of headers,
  which is where the parser stops; urls that start with `/` or `*`, one-digit version numbers, no folded header lines, no
  trailers; response lines are covered by HttpStream.ByteKept and HttpPieces.Compare only.
- Files, networking, JSON, cryptography, regular expressions and the command-line parts of the server.
