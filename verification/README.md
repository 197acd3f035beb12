# Folly's concurrent containers, strings and integer text

A model of five parts of the Folly C++ library, and proofs of what they promise.

- `HashProbing`, `HashMapState`, `HashMapInvariant`, `HashMapProof`, `HashMapTheorems`, `HashMapProgress`,
  `HashMapFlag`, `HashMapAssertion`, `HashMapRuns`: AtomicHashMap and its AtomicHashArray sub-maps. Any number of
  threads insert, find and erase; the map grows by sub-maps. A cell goes from empty to locked to a key to erased, or
  back from locked to empty when the constructor of the value throws.
- `UnorderedMapState`, `UnorderedMapProof`, `UnorderedMapTheorems`: AtomicUnorderedInsertMap, a chained map whose
  chain heads share a word with the allocation state of the slot they are stored in.
- `SkipListState` and the other `SkipList` modules: ConcurrentSkipList, with optimistic searches, node locks,
  marks, a growing head, and a recycler that counts accessors.
- `FbStringFind`, `FbStringModel`, `FbStringMemory`: the search of basic_fbstring, and the three storage categories
  of fbstring_core with copy on write.
- `IntrusiveListState`, `IntrusiveListTheorems`: AtomicIntrusiveLinkedList, where threads push and one sweeps.
- `IntegerText`, `IntegerPrinting`, `IntegerParsing`, `IntegerConversion`: integers to decimal text and back.

The concurrent parts are step systems: a state holds the shared memory and the registers and program counter of
every thread, and one step is one access to shared memory. A run is any sequence of steps of any threads, so a
lemma about `Run` speaks of every interleaving. Fields marked "history" only record the past for the proofs.
The sequential parts are methods with loops, proved against specifications.

`dafny verify dfyconfig.toml` checks everything.

## Findings

- The assertion at AtomicHashArray-inl.h:240, that an inspected cell is not empty, holds in every run if and only
  if constructors of values cannot throw. `HashMapAssertion.ThrowBreaksAssertion` gives a run of two threads that
  breaks it. The code behind it handles the empty cell correctly.
- An insert into an AtomicHashArray gives up after as many probes as there are cells. With quadratic probing it has
  then looked at every cell if and only if the capacity is a power of two (`HashProbing.CoversIffPow2`). With other
  capacities cells are missed; three cells are enough (`HashProbing.ThreeCellsMissed`), and "full" may be reported
  while cells are empty. Keys are still found, and still live in at most one cell.
- `isFull_` may go from 2 back to 1: the store at AtomicHashArray-inl.h:233 can follow the one at line 188.
  `HashMapFlag.FlagGoesBack` gives the run. From a state in which it is 2 that can happen if and only if some insert
  has succeeded on the array and has not come past that store (`HashMapFlag.GoesBackIff`). It never returns to 0
  (`HashMapTheorems.FullFlagNeverCleared`).
- When creating a sub-map throws, its entry in the table stays locked, and every insert that waits for the sub-map
  waits for ever (AtomicHashMap-inl.h:160-195). `HashMapProgress.LossIffCreateThrows` gives the run, and
  `HashMapProgress.GetsOnIff` says when a waiting insert can still get on. In all other waits
  some thread that does not wait has a step to make (`HashMapProgress.SomeoneMoves`).
- A slot of AtomicUnorderedInsertMap whose functor threw is lost: it stays CONSTRUCTING for ever
  (`UnorderedMapTheorems.AbandonedForever`).
- ConcurrentSkipList: a remove may return false for a key that is in the set during the whole call, and that a find
  just returned, because the node is still being linked (`SkipListRefusal.RemoveRefusesLiveKey`). The comment at
  ConcurrentSkipList.h:449 calls the search like lower_bound but not exact; on a list at rest it is exact.
- The documentation of digits_to says an empty range gives an appropriate error. For a signed type the code looks at
  the character behind the range, and reports an overflow if that is a sign (`IntegerParsing.EmptyRangeReadsBeyond`).
  It reports the empty range as such if and only if the type is unsigned or that character is a digit
  (`IntegerParsing.EmptyRangeIsReportedIff`). For other ranges the result depends on the range only
  (`IntegerParsing.RangeDecides`).

## Model

| member | source | states |
|---|---|---|
| HashProbing.ProbeWalksDistance | Folly/folly/AtomicHashArray.h:46-64 | After n probes both functors, which subtract instead of dividing, stand exactly n cells (linear) or 1 + 2 + … + n cells (quadratic) from the anchor, modulo the capacity. |
| HashProbing.CoversIffPow2 | Folly/folly/AtomicHashArray-inl.h:258-264 | Giving up after as many probes as there are cells means that every cell was looked at, if and only if probing is linear or the capacity is a power of two. |
| HashProbing.ProbesDistinct | Folly/folly/AtomicHashArray.h:46-64 | Linearly, or quadratically in a power of two of cells, no two of these probes try the same cell. |
| HashProbing.ThreeCellsMissed | Folly/folly/AtomicHashArray.h:56-64 | With three cells and quadratic probing the third probe returns to the anchor, and one cell is never tried. |
| HashProbing.OneTurnApart | Folly/folly/AtomicHashArray.h:56-64 | For every other capacity there are two quadratic probes exactly one turn of the array apart, which is why a cell is missed. |
| HashMapProof.ThreadStepKeeps | Folly/folly/AtomicHashArray-inl.h:158-268 | Every step of insert, find, erase and growth keeps the invariant of the shared arrays and of its own thread, and changes memory only in ways that keep the invariants of all other threads. |
| HashMapTheorems.AtMostOneLiveCell | Folly/folly/AtomicHashMap-inl.h:131-204 | In every state of every run a key is live in at most one cell over all sub-maps. |
| HashMapTheorems.InsertReachesOnlyAfterFull | Folly/folly/AtomicHashMap-inl.h:136-149 | An insert that works on a later sub-map has found every earlier one full for its key, and none of those holds the key now. |
| HashMapTheorems.FullStaysFull | Folly/folly/AtomicHashMap-inl.h:144-146 | "Full for this key" is permanent: in all later states the array is full for the key and no cell of it holds the key. |
| HashMapTheorems.FreezeIsPermanent | Folly/folly/AtomicHashArray-inl.h:173-193 | Once an insert has passed the wait on isFull_, every cell of that array that is empty then is empty in all later states, and isFull_ is not 0 in any of them. |
| HashMapTheorems.FullFlagNeverCleared | Folly/folly/AtomicHashArray-inl.h:188-233 | From the moment isFull_ is not 0 it is not 0 in any later state. |
| HashMapFlag.FlagGoesBack | Folly/folly/AtomicHashArray-inl.h:188-233 | A run of two threads, with constructors that do not throw, in which isFull_ is 2 and is 1 in the next state. |
| HashMapFlag.GoesBackIff | Folly/folly/AtomicHashArray-inl.h:230-234 | From a reachable state in which isFull_ is 2 some continuation makes it 1 if and only if some insert on that array stands between its success and the store of 1. |
| HashMapFlag.TwoStays | Folly/folly/AtomicHashArray-inl.h:188-233 | With no such insert isFull_ is 2 in all later states. |
| HashMapTheorems.GivingUpMeansSettled | Folly/folly/AtomicHashArray-inl.h:256-264 | For every content of an array, giving up on it means that every cell is settled with another key or erased, if and only if probing is linear or the capacity is a power of two. |
| HashMapTheorems.SubMapPublication | Folly/folly/AtomicHashMap-inl.h:154-192 | Sub-maps below numMapsAllocated_ are real arrays, all slots above that index are null, at most one thread is creating a sub-map, and it works on that index. |
| HashMapTheorems.AccessesAreSafe | Folly/folly/AtomicHashMap-inl.h:196-198 | No thread is ever about to use a null or locked sub-map pointer or a cell index outside its array. |
| HashMapTheorems.ValuesNeverChange | Folly/folly/AtomicHashArray-inl.h:199-223 | The value of a cell that has or had a key was constructed, and is the same in all later states, after an erase too. |
| HashMapTheorems.KeySetChanges | Folly/folly/AtomicHashArray-inl.h:216-319 | The set of keys changes at two kinds of steps only: the unlock of a cell adds a key that was absent, a successful erase removes one that was present; each call has at most one such step. |
| HashMapTheorems.ReturnsAreTruthful | Folly/folly/AtomicHashArray-inl.h:235-246 | A hit or a collision names a cell that holds the key at that step; an insert that reports success has put its key and its value into the cell it names; a call changed the map exactly if it reports a change. |
| HashMapTheorems.MissesAreTruthful | Folly/folly/AtomicHashArray-inl.h:97-116 | A find that misses, or an erase that returns 0, is right about some moment between its call and its return: the key was in no sub-map then. |
| HashMapAssertion.ThrowBreaksAssertion | Folly/folly/AtomicHashArray-inl.h:217-240 | If constructors may throw there is a run of two threads that ends in a state where the asserted cell is empty. |
| HashMapAssertion.AssertionIffNoThrow | Folly/folly/AtomicHashArray-inl.h:240 | The assertion holds in every state of every run if and only if no constructor throws. |
| HashMapProgress.SomeoneMoves | Folly/folly/AtomicHashArray-inl.h:183-245 | Whenever a thread is blocked by inserts pending on a full array, by a locked cell or by a sub-map being created, another thread in the middle of a call is not blocked and has a step to make, unless the sub-map waited for is lost. |
| HashMapProgress.GetsOnIff | Folly/folly/AtomicHashMap-inl.h:188-195 | An insert that waits for a sub-map can get on in some continuation if and only if the creation of that sub-map has not failed. |
| HashMapProgress.WaitsForever | Folly/folly/AtomicHashMap-inl.h:188-195 | If it has failed, the insert waits in all later states. |
| HashMapProgress.LossIffCreateThrows | Folly/folly/AtomicHashMap-inl.h:160-184 | A run loses a sub-map if and only if creating one may throw. |
| UnorderedMapState.KeyToSlotIdx | Folly/folly/AtomicUnorderedMap.h:410-417 | The loop of subtractions yields the home slot; by ReduceIsRemainder that is the remainder of the hash. |
| UnorderedMapState.ReduceIsRemainder | Folly/folly/AtomicUnorderedMap.h:413-415 | Repeated subtraction yields the remainder of the division by the number of slots. |
| UnorderedMapTheorems.NoKeyLinkedTwice | Folly/folly/AtomicUnorderedMap.h:276-307 | In every state of every run a key is linked at most once, and in the chain of its home slot. |
| UnorderedMapTheorems.SlotOwnership | Folly/folly/AtomicUnorderedMap.h:341-384 | Every nonzero slot is EMPTY and nobody's; or CONSTRUCTING and owned by one insert in flight and no other, unless its functor threw; or LINKED, at exactly one place of one chain. Slot 0 is never allocated or linked. |
| UnorderedMapTheorems.AbandonedForever | Folly/folly/AtomicUnorderedMap.h:272-274 | A slot whose functor threw is CONSTRUCTING, unowned and unlinked in all later states. |
| UnorderedMapTheorems.NextDescends | Folly/folly/AtomicUnorderedMap.h:277-304 | The next_ of a linked slot leads to the slot that was linked just before it in the same chain, and that of the first to 0. |
| UnorderedMapTheorems.WalkShrinks | Folly/folly/AtomicUnorderedMap.h:422-426 | Each turn of the loop of find has one element fewer ahead, so it ends however many inserts run beside it. |
| UnorderedMapTheorems.AccessesAreSafe | Folly/folly/AtomicUnorderedMap.h:386-394 | Indices are in range, find compares keys only in slots that are not EMPTY, and every word leaves room for its two state bits. |
| UnorderedMapTheorems.KeySetChanges | Folly/folly/AtomicUnorderedMap.h:288-294 | The set of keys changes only at a successful compare-and-swap of a head, which adds the key of that insert, absent until then. |
| UnorderedMapTheorems.FindTakesEffectAtHeadLoad | Folly/folly/AtomicUnorderedMap.h:419-428 | The answer of find, alone or inside findOrConstruct, is the truth about the map at the step where it loaded the head. |
| UnorderedMapTheorems.LinkedForever | Folly/folly/AtomicUnorderedMap.h:276-307 | What is linked keeps its key, value and successor in all later states, and chains grow only at their heads. |
| UnorderedMapTheorems.ResultsHoldTheKey | Folly/folly/AtomicUnorderedMap.h:263-308 | The slot returned holds the key of the call; a slot reported as new holds its value. |
| SkipListWriters.ThreadStepKeeps | Folly/folly/ConcurrentSkipList.h:279-407 | Every step of add, remove, find and growHeight keeps the invariant of the list and of its own accessor, and changes the list only in ways that keep those of all others. |
| SkipListTheorems.LayersAreSorted | Folly/folly/ConcurrentSkipList.h:222-249 | In every state of every run the links of each layer lead from the head through strictly increasing keys to the end, over exactly the nodes linked there; each layer has only nodes of the one below. |
| SkipListTheorems.NoTwoNodesShareAKey | Folly/folly/ConcurrentSkipList.h:314-354 | No two nodes linked on a layer have the same key. |
| SkipListTheorems.FullyLinkedEverywhere | Folly/folly/ConcurrentSkipList.h:346-351 | A fully linked, unmarked node is met on each of its layers by the walk from the current head, even while the head grows. |
| SkipListTheorems.KeySetChanges | Folly/folly/ConcurrentSkipList.h:346-388 | The set changes at two kinds of steps only: linking on the bottom layer adds a key that was absent, marking removes one that was present. |
| SkipListTheorems.HitsAreTruthful | Folly/folly/ConcurrentSkipList.h:268-274 | When find or add reads the mark of the node found and it is not set, the key is in the set at that step, at that node. |
| SkipListSearch.FindMissesAreTruthful | Folly/folly/ConcurrentSkipList.h:458-482 | A find that misses has a moment between its head load and its return at which the key was not in the set. |
| SkipListSearch.RemoveFailsTruthfully | Folly/folly/ConcurrentSkipList.h:374-388 | A remove that returns false has a moment of its first attempt at which no fully linked, unmarked node had the key. |
| SkipListRefusal.RefusedExactlyWhen | Folly/folly/ConcurrentSkipList.h:376-387 | A step of a first attempt ends remove with false if and only if the search found nothing, or a read of okToDelete or the check of the mark under the lock failed. |
| SkipListRefusal.RemoveRefusesLiveKey | Folly/folly/ConcurrentSkipList.h:429-433 | A run in which a find returns a key's node, and a remove of the key by the same accessor, begun after that, returns false, though the key is in the set in every state of both calls. |
| SkipListFind.FindNodeDownRight | Folly/folly/ConcurrentSkipList.h:458-482 | On every list that keeps the invariant: the first node of the bottom layer whose key is not below the argument, or null, and whether its key equals it. |
| SkipListFind.FindNodeRightDown | Folly/folly/ConcurrentSkipList.h:486-500 | The same node and the same answer, by the other order of steps. |
| SkipListFind.OneLowerBound | Folly/folly/ConcurrentSkipList.h:446-453 | That node is unique, so both searches return the same pair. |
| SkipListFind.LowerBound | Folly/folly/ConcurrentSkipList.h:502-508 | The first unmarked node of the bottom layer whose key is not below the argument. |
| SkipListProgress.WaitsDescend | Folly/folly/ConcurrentSkipList.h:287-301 | If an accessor waits for the lock of x, and its holder waits for that of y, then y comes before x: along a wait the wanted nodes strictly descend, across add, remove and growHeight. |
| SkipListProgress.NoWaitCycle | Folly/folly/ConcurrentSkipList.h:384-396 | No chain of waits of any length is a cycle: its first accessor never has the lock that its last one waits for. |
| SkipListProgress.SomeoneMoves | Folly/folly/ConcurrentSkipList.h:329-353 | Whenever an accessor is blocked by a node lock, by the recycler's lock or by a node still being linked, another one in the middle of its work is not blocked and has a step to make. |
| SkipListTheorems.AccessesAreSafe | Folly/folly/ConcurrentSkipList-inl.h:298-333 | No step of any run dereferences null, a destroyed node or a link above a node's height, and no node is destroyed twice. |
| SkipListTheorems.ReachableIsClosed | Folly/folly/ConcurrentSkipList-inl.h:294-328 | From a node that a live accessor may use, every link leads to a node it may use, and none of them is destroyed, though addRef takes no lock. |
| SkipListTheorems.RefsCountAccessors | Folly/folly/ConcurrentSkipList-inl.h:294-307 | refs_ is the number of live accessors. |
| SkipListSize.SizeNeverNegative | Folly/folly/ConcurrentSkipList.h:352-402 | size_ never wraps below zero, so that the size an add reports is positive: it is positive when a remove is about to subtract, and an add counts a node that is not counted yet. |
| SkipListSize.QuietSize | Folly/folly/ConcurrentSkipList.h:251-253 | With no add or remove in progress, size() is the number of linked nodes. |
| SkipListMarks.MarkedAreLocked | Folly/folly/ConcurrentSkipList.h:381-400 | A marked node that is still linked is locked by the accessor that marked it. |
| SkipListMarks.SizeIsExact | Folly/folly/ConcurrentSkipList.h:251-253 | With no add or remove in progress, every linked node is unmarked and size() is the number of keys in the set. |
| FbStringFind.Find | Folly/folly/FBString.h:2090-2150 | For all texts, needles and positions, npos included: the least index from pos at which the needle occurs, or npos if and only if there is none; both loops end, and the unsigned additions wrap as in the code. |
| FbStringFind.FindIsFunction | Folly/folly/FBString.h:2090-2150 | The specification, that of section 21.4.7.2 of ISO/IEC 14882:2011, admits one result only. |
| FbStringModel.ReleaseKeeps | Folly/folly/FBString.h:387-392 | Destroying a string keeps the counting invariant and the values of all others, also of those that share its block. |
| FbStringMemory.BlocksAreCounted | Folly/folly/FBString.h:549-617 | A block exists if and only if some string points at it, its count is the number of strings that do, and only large strings share. |
| FbStringMemory.ZeroTerminated | Folly/folly/FBString.h:448-453 | In all three categories the storage begins with the value and goes on with a zero character. |
| FbStringMemory.AliasesAgree | Folly/folly/FBString.h:741-747 | Strings with the same storage have the same value. |
| FbStringMemory.Memory.Init | Folly/folly/FBString.h:371-385 | A new string has the value given, in the category its length asks for; no other value changes. |
| FbStringMemory.Memory.Copy | Folly/folly/FBString.h:345-362 | The copy has the value and the category of the original; a large one shares its block, whose count goes up by one; no other value changes. |
| FbStringMemory.Memory.Move | Folly/folly/FBString.h:364-369 | The new string takes over the representation, the old one is empty, blocks and counts stay as they are. |
| FbStringMemory.Memory.Destroy | Folly/folly/FBString.h:387-392 | Only this value disappears, and its block is freed if and only if its count was one. |
| FbStringMemory.Memory.Swap | Folly/folly/FBString.h:425-429 | Two strings exchange values and representations; blocks do not change. |
| FbStringMemory.Memory.Unshare | Folly/folly/FBString.h:827-841 | The string has a block of its own with at least its old capacity; all values stay. |
| FbStringMemory.Memory.MutableData | Folly/folly/FBString.h:436-446 | All values stay, and nobody else uses the storage that the caller may now write. |
| FbStringMemory.Memory.SetChar | Folly/folly/FBString.h:844-850 | Writing one character through mutableData changes that character of that string, and no other value, whoever shared the block. |
| FbStringMemory.Memory.Shrink | Folly/folly/FBString.h:455-464 | The string loses its last delta characters, and no other value changes. |
| FbStringMemory.Memory.Reserve | Folly/folly/FBString.h:467-482 | All values stay; the capacity suffices and the storage is the string's own. |
| FbStringMemory.Memory.ExpandNoinit | Folly/folly/FBString.h:943-975 | The string is longer by delta, begins with its old value and has storage of its own; no other value changes. |
| FbStringMemory.Memory.Append | Folly/folly/FBString.h:1976-2005 | The string ends with the text given, and no other value changes. |
| FbStringMemory.Memory.AppendPart | Folly/folly/FBString.h:1964-2005 | Appending a part of any string, of the string itself or of one that shares its block too, appends those characters; it fails if and only if the position is past the end, and then changes nothing. |
| FbStringMemory.Execute | Folly/folly/FBString.h:345-482 | Every operation does to the values of all strings what it does to plain value strings. |
| FbStringMemory.ExecuteAll | Folly/folly/FBString.h:827-1003 | Over every sequence of operations on any number of strings the values are those of plain value strings, and the counting invariant holds: copy on write is not seen. |
| IntrusiveListTheorems.StepShape | Folly/folly/AtomicIntrusiveLinkedList.h:80-175 | Every step of an insert, of the exchange, of reverse and of unlinkAll keeps the list and the sweeper's fragment well-formed chains without common elements. |
| IntrusiveListTheorems.CallsFollowInsertions | Folly/folly/AtomicIntrusiveLinkedList.h:102-122 | While nobody calls reverseSweep, the elements inserted are, in the order of the successful swaps, those called, then those in the sweeper's hands, then those in the list. |
| IntrusiveListTheorems.BatchesAreHandedOver | Folly/folly/AtomicIntrusiveLinkedList.h:124-141 | In general each exchange takes a batch, sweep calls it oldest first and reverseSweep newest first, and the batches come one after the other. |
| IntrusiveListTheorems.EveryInsertionOnce | Folly/folly/AtomicIntrusiveLinkedList.h:80-141 | At every moment each insertion has been called once, or waits in the sweeper's hands, or in the list. |
| IntrusiveListTheorems.HooksAreNull | Folly/folly/AtomicIntrusiveLinkedList.h:81-175 | An element handed to the callback has a null hook, and so has every element that may be inserted, as insertHead asserts. |
| IntrusiveListTheorems.TruesCountBatches | Folly/folly/AtomicIntrusiveLinkedList.h:80-109 | The calls of insertHead that return true are as many as the exchanges that found a list, plus one if the list is not empty now. |
| IntrusiveListTheorems.TrueMeansAlone | Folly/folly/AtomicIntrusiveLinkedList.h:76-97 | insertHead returns true if and only if its element is alone in the list. |
| IntegerText.TextReads | Folly/folly/Conv.h:383-400 | The decimal text of a number consists of digits, has that number's value, and has no leading zero unless the number is 0. |
| IntegerText.TextIsCanonical | Folly/folly/Conv.h:383-400 | A run of digits without a superfluous zero is the text of its value. |
| IntegerPrinting.Digits10Fast | Folly/folly/Conv.h:295-341 | For every 64-bit number the estimate from the number of leading zero bits, with one comparison, is the length of its decimal text. |
| IntegerPrinting.EstimateIsClose | Folly/folly/Conv.h:331-341 | For every number of bits the length 1 + 77 * bits / 256 is never too long, and too short by at most one. |
| IntegerPrinting.Digits10Loop | Folly/folly/Conv.h:343-367 | The loop that divides by 10000 yields the length of the decimal text. |
| IntegerPrinting.Uint64ToBuffer | Folly/folly/Conv.h:383-400 | The buffer begins with the decimal text and keeps its rest; its record of stores grows by each of those positions once, last to first. |
| IntegerPrinting.ToAppend | Folly/folly/Conv.h:568-606 | Appends the decimal text of every value of every signed or unsigned type, the least value included; twenty characters are always enough. |
| IntegerParsing.MaxStringIsMax | Folly/folly/Conv.cpp:47-75 | The maximum strings are the texts of the largest unsigned values, one digit longer than what always fits. |
| IntegerParsing.OverlongIffTooLarge | Folly/folly/Conv.cpp:555-574 | For every run of digits of any length the test on length and strncmp rejects it if and only if its value does not fit the type. |
| IntegerParsing.GroupStep | Folly/folly/Conv.cpp:581-596 | In each turn of the loop over four characters no product or sum reaches the modulus of the type, and the sum of the table entries reaches 10000 exactly if one of them is not a digit. |
| IntegerParsing.Accumulate | Folly/folly/Conv.cpp:579-634 | For what the test lets through: the exact value if all characters are digits, and NON_DIGIT_CHAR otherwise. |
| IntegerParsing.Finalize | Folly/folly/Conv.cpp:489-507 | Negating in the unsigned type and looking at the sign afterwards accepts a value if and only if the signed type holds it, the least value included. |
| IntegerParsing.DigitsTo | Folly/folly/Conv.cpp:536-637 | For every text: the exact value if it is a numeral the type holds, overflow of the right sign if it is one the type does not hold, and the error the code reports for each other text; an empty range of a signed type is included, with the character behind it. |
| IntegerParsing.EmptyRangeReadsBeyond | Folly/folly/Conv.cpp:528-551 | Inputs on which a signed type reports an empty range as negative overflow, positive overflow or an invalid leading character: before a minus, a plus and a letter, and at the end of the text with a minus behind it. |
| IntegerParsing.EmptyRangeIsReportedIff | Folly/folly/Conv.cpp:528-551 | An empty range is an error, and the error is NO_DIGITS if and only if the type is unsigned or the character behind the range is a digit. |
| IntegerParsing.RangeDecides | Folly/folly/Conv.cpp:536-637 | The result for a range that is not empty depends on the characters of the range only. |
| IntegerConversion.StrToIntegral | Folly/folly/Conv.cpp:689-736 | Gives what Parse gives in unbounded integers, and removes from the string exactly what it read, nothing on an error. |
| IntegerConversion.NumeralIsRead | Folly/folly/Conv.cpp:692-733 | White space, an optional sign and the longest run of digits are read to their end and no further if the type holds the value; otherwise overflow of the right sign is reported. |
| IntegerConversion.TryTo | Folly/folly/Conv.h:1478-1489 | Gives what ParseAll gives: an error if anything but white space follows. |
| IntegerConversion.AcceptedExactly | Folly/folly/Conv.h:1469-1489 | A string is accepted with value n if and only if it is white space, an optional sign for a signed type, digits of value n up to sign, and white space, and the type holds n. |
| IntegerConversion.RoundTrip | Folly/folly/Conv.h:568-606 | The text of every value of every type, after any white space, is read back as that value and to its end, whatever follows that is not a digit. |
| IntegerConversion.PrintAndParse | Folly/folly/Conv.cpp:689-736 | toAppend followed by tryTo gives the value back. |

## Left out

- Memory orders: every atomic access is sequentially consistent.
- ThreadCachedInt: its counters are atomic numbers; whether numEntries_.readFast() has reached maxEntries_ is open at
  each step. The properties hold either way; the run of HashMapFlag.FlagGoesBack has a maximum of one entry.
- AtomicHashMap: the sizes of new sub-maps (any positive number), `clear`, `spaceRemaining`, index encoding, lookup by
  another key type, `size` and iterators. Keys are integers other than the three reserved ones. Constructing the value
  is one step, which may fail if constructors may throw, and so is creating a sub-map.
- AtomicUnorderedInsertMap: which slots are tried for allocation (any), iteration, and the destructor. Constructing key
  and value is one step, which may fail.
- ConcurrentSkipList: the comparator is the order of the integers, heights and size limits are open within their
  bounds, and the first head has at most the maximal height. Iterators and Skipper, `first` and `last` are not modelled,
  nor a recycler that destroys nothing. Accesses to a node that the thread has locked, or that nobody else can reach
  yet, are joined to the step beside them, and so are those of NodeRecycler::add, which all happen under its lock.
- SkipListSearch.RemoveFailsTruthfully: speaks of fully linked nodes only, since the stronger claim is false
  (SkipListRefusal.RemoveRefusesLiveKey).
- SkipListFind.FindNodeDownRight: speaks of a list that nobody changes meanwhile; the concurrent search is in the step
  system.
- fbstring_core: strings and blocks have numbers for addresses. Packing of the category into the last byte, byte order,
  `disableSSO`, and the constructor that takes over a malloced buffer are not modelled. An allocation returns at least
  the room asked for, reallocation keeps contents, and neither fails.
- basic_fbstring: operations other than find and append, such as insert from a pointer into the same string, which has
  no check for aliasing.
- AtomicIntrusiveLinkedList: moving a list, and more than one sweeper at a time. Elements have numbers, and a map gives
  their hooks. The program inserts only elements that nobody else is inserting and that are in no list.
- Integer text: characters count as unsigned, white space is that of the C locale, and 128-bit, floating-point and bool
  conversions are not modelled. The shift tables are a function of the character.
- The JavaScript, Ruby and TypeScript parts of the repository: user interface, command line and continuous integration.
