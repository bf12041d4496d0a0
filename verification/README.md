# A verified model of the cord rope

A cord is a byte string of up to 15 bytes stored inline, or a reference to a *rep* on a heap that all
cords share: a flat or external buffer, a substring of one, or a b-tree whose nodes have up to six
edges. Reps are reference counted. A node is written in place only if its count is one and so are the
counts of all nodes above it on the path that was walked; otherwise it is copied.

The model keeps that heap as a mutable map from ids to cells (class `Arena`): kind, stored length,
height, `[begin, end)` window, six edge slots, payload and stored count, together with a ghost bag of
the handles held from outside. The operations are methods on it, in the order of the source's steps.

What holds of every heap (`Inv` and `AllSettled`): edges lead to live cells of the right height, a
substring's child is a flat or external buffer, no data edge is empty, every stored length is the sum
of the edges' lengths, and every stored count is the number of edges and handles that refer to the
cell. `Leaves(h, x)` is the list of data edges of a rep, `Bytes(h, x)` what they hold, and
`BackPath(h, x)` the way down its back to the last of them. A buffer that has been taken owns its flat,
which has left the heap: nothing there can refer to it.

The main results:

* over every run of operations on any number of cords that share reps, each cord holds what a plain
  byte sequence put through the same operations holds, and no other cord changes; a run stops only at
  an operation that would make more than 6^12 data edges, or that takes a buffer from a tree that
  cannot be folded safely (`Pools.Pool.Run`);
* giving up references frees exactly what no remaining handle reaches (`Arenas.Unref`), and counts of
  one along a held leg mean that no path from any other handle leads into it
  (`Legs.OwnedIsUnreachable`);
* adding data of any length, up to 6^12 data edges, merging any two trees, cutting out any part and
  removing any suffix give valid trees with exactly the right bytes and conserved counts (`Trees`,
  `SubTrees`, `Crops`);
* what propagating an edit to the root does to the form of a tree is a function on forms
  (`Unwinding.Unwind`), from which follows that trees built by adding data at both ends are full off
  their two outer legs (`DataRuns.AddAll`);
* the path stack of a navigator is a place in the list of data edges, and reading from it gives a tree
  of exactly the next bytes (`Navigators`, `Readers`);
* bytes are written in place, or a flat is taken out, exactly if every count on the way down to the
  last flat is one (`Buffers`); cutting, slicing and joining copies no bytes (`SubTrees`, `Crops`,
  `CordEdits`);
* the iterators over chunks and bytes, with a reader at each end, are double-ended queues, of the
  chunks as they are stored (`CordIters`, `ByteIters`);
* search, comparison and hashing depend on the bytes only (`CordQueries`);
* fair shares add up to the sizes of all live cells (`FairShare`), and the drop that brings the drops
  of a shared counter to one more than its clones destroys (`Refcounts`).

The directory is one Dafny project: `dafny verify dfyconfig.toml` checks it. The modules build on each
other in this order: `Heap`, `Counts`, `Arena`, `Substrings`, `Legs`, `Nodes`, `Edits`, `Climbs`,
`Steps`, `Rebuilds`, `Forms`, `FormSteps`, `Unwinding`, `PackedTrees`, `Trees`, `DataRuns`, `Indexing`,
`Copies`, `SubTrees`, `Crops`, `Buffers`; then `Paths`, `Reads`, `Navigator`, `ChunkLists`, `Readers`,
`Chunks`, `Pieces`, `CordIters`, `ByteIters`, `Compare`, `Search`; then `Cords`, `CordEdits`,
`CordQueries`, `Pool`, `SharedFold`; and `FairShare` and `Refcounts` beside them.

## Findings

Two promises of the source do not hold as stated. The model keeps the code as it is.

| what fails | source | condition |
|---|---|---|
| Taking an append buffer can free a node that another cord uses. After the last flat has been cut out, the remaining tree is folded: nodes with a single edge are deleted from the top, and their counts are not looked at. | src/rep/btree.rs:2361-2372 | `Buffers.ExtractAppendBuffer` is sound exactly if `SafeToTake` holds: no node with a single edge in the chain at the top of what remains is shared. Otherwise a cell is missing to which another handle or cell still refers. `SharedFold.SharedRemainder` is a heap for which it fails, with a run of nine public operations that leads to it; `SharedFold.SharedStops` is the state of the cords, in which a run stops at the tenth. |
| `CordRepBtreeReader::read` is documented to return no tree if `n` exceeds the remaining data. With `chunk_size` 0 at the end of the tree there is no next edge, the navigator stays on the last one, and that edge is read again. | src/rep/reader.rs:214-250 | `Readers.Reader.Read` meets its description for every `n` exactly if `size > 0` or `remaining > 0`. Otherwise it meets it just for `n` equal to 0 or beyond the length of the last edge; for an `n` in between it returns a tree of the first `n` bytes of that edge. `Readers.ReadAgain` is such a call, on a leaf with one edge. The callers in src/iter.rs:277-320 exclude the case. |

The branch of `next_back` that keeps the unsplit part of a chunk (src/iter.rs:455-483) is never taken: a
chunk is split only where the two ends meet (`CordIters.Chunks.StepBack`).

## Model

| member | source | states |
|---|---|---|
| Pools.Pool.Run | src/cord.rs:350-463 | for every list of operations on any number of cords: each state passed through is the one the operation gives on plain sequences, all other cords and buffers unchanged; the run ends early only at an operation that, in the concrete state in which it ended, would make a cord of more than 6^12 data edges, or that takes a buffer from a tree that cannot be folded safely |
| Pools.Pool.Apply | src/cord.rs:1105-1304 | one operation: the new bytes of every cord and buffer are those of the plain operation; operations out of bounds change nothing; it fails exactly for those two reasons, except that for a short cord that is copied the number of data edges is an upper bound; a taken buffer is made of what `CordEdits.TakeAppendBuffer` says |
| Pools.Bounds | src/cord.rs:1105-1110 | which operations are out of bounds: a cord or buffer is missing, both cords are the same, or the cord cannot be cut into parts of the lengths asked for |
| Pools.Pool.TakeAndGiveBack | src/cord.rs:1048-1086 | a buffer that is taken and appended again restores every cord; this works exactly if folding frees no shared node, and there is always room for the flat |
| Pools.NothingLeaks | src/rep.rs:395-399 | at every moment of a run each live cell is reached from a cord |
| Counts.FreedExactlyTheUnreachable | src/rep.rs:410-468 | when references were given up and the counts are exact again, the cells that are gone are exactly those that no remaining handle reaches |
| Counts.LiveIsReachable | src/rep.rs:395-399 | nothing leaks: every cell with an exact, positive count is reached from a handle |
| Arenas.Unref | src/rep.rs:410-421 | gives up one handle and frees exactly what no remaining handle reaches; counts stay exact, what remains is unchanged but for counts, cells above its rank are left alone |
| Arenas.Destroy | src/rep.rs:431-468 | the loop over substrings and the node destructors keep the counts exact |
| Arenas.DestroyTree | src/rep/btree.rs:1122-1172 | the two-level destructor gives up every grandchild once and frees every child of which it held the last reference |
| Legs.OwnedIsClosed | src/rep/btree.rs:746-773 | if all nodes of a held leg down to some depth have count one, no other cell and no other handle refers to any of them |
| Legs.OwnedIsUnreachable | src/rep/btree.rs:746-773 | and no path from any other handle leads to one of them, so that nobody else sees it being written |
| Legs.LegGrows | src/rep/btree.rs:897-943 | data edges added at the end of a leg are added to every node of the leg |
| Substrings.SubstringImpl | src/rep.rs:513-547 | a new substring of a flat, external or substring: its child is never a substring, and it holds exactly the bytes asked for |
| Substrings.ResizeEdge | src/rep/btree.rs:203-217 | the first bytes of a data edge, in place only if allowed |
| Nodes.AlignBegin | src/rep/btree.rs:1323-1344 | moves the window to the start of the slots, same edges |
| Nodes.AddEdgesFrom | src/rep/btree.rs:1414-1434 | the edges of both nodes in order, also if both are the same node |
| Nodes.AddEdge | src/rep/btree.rs:1451-1466 | which of in place, copied and popped happens, and the resulting edges and length |
| Nodes.SetEdge | src/rep/btree.rs:1479-1504 | the outermost edge is replaced, in place or on a copy that never refers to the old edge |
| Unwinding.BuildStack | src/rep/btree.rs:785-805 | the leg, and the depth at which sharing starts |
| Unwinding.Unwind | src/rep/btree.rs:897-943 | the result holds old and new data edges in order, with correct lengths and counts and other handles untouched; its form is that of the same edit on forms (`Forms.Graft`), unless it was rebuilt; it is aborted exactly if there are more than 6^12 data edges |
| Unwinding.Propagate | src/rep/btree.rs:897-959 | the same, and the new stack is a leg of which every node is owned |
| Trees.AddCordRep | src/rep/btree.rs:1539-1551 | one more data edge at either end; exact condition for the abort; packed trees stay packed |
| Trees.AddData | src/rep/btree.rs:1668-1716 | for data of any length, either end and any sharing: old bytes and data in order, the old data edges still there and one new one for every 4083 bytes begun, other handles untouched, the new leg private, packed trees stay packed; aborted exactly if there would be more than 6^12 data edges |
| Trees.AddDataToLeaf | src/rep/btree.rs:1628-1658 | fills the leaf in place or on a copy; stops only when the data is used up or the leaf is full |
| Trees.CapacityRounds | src/rep/flat.rs:66-86 | a flat is the smallest that holds what is asked for, in steps of 8 bytes, or of 64 above 512 |
| Trees.BuildOwnedStack | src/rep/btree.rs:816-832 | after a popped unwind the outer leg is all count one |
| Trees.Merge | src/rep/btree.rs:1727-1766 | the data edges of both in order, none of them copied, for any heights, also if both handles are on one node; counts conserved; aborted exactly above 6^12 data edges |
| Trees.MergeTrees | src/rep/btree.rs:1775-1783 | left data edges and right data edges, for either being the higher tree |
| DataRuns.AddAll | src/rep/btree.rs:3-8 | after any run of appends and prepends of data to a leaf: the bytes are those of the plain sequence, and the number of data edges is the sum; aborted exactly if that is above 6^12; with fewer than 5 * 6^11 + 2 data edges (so that nothing was rebuilt) every node off the two outer legs is full, and height k > 0 means at least 5 * 6^(k-1) + 2 data edges |
| Forms.GraftPacked | src/rep/btree.rs:1451-1466 | an edit at the end of a leg keeps a packed form packed; the root pops only if all nodes of the leg are full |
| PackedTrees.UnwoundPacked | src/rep/btree.rs:897-943 | the same for trees on the heap, with the number of data edges below which no rebuild can have happened |
| Rebuilds.Rebuild | src/rep/btree.rs:2394-2493 | same data edges in the same order, every node off the back leg has six edges, height h > 0 means more than 6^h data edges; aborted exactly above 6^12 |
| Indexing.IndexOf | src/rep/btree.rs:438-448 | the edge that holds an offset, and the offset within it |
| Indexing.IndexBeforeFrom | src/rep/btree.rs:463-473 | the edge in which a range ends |
| Indexing.IndexOfLength | src/rep/btree.rs:484-495 | the edge in which the first n bytes end, searched from the back |
| Indexing.IndexBeyond | src/rep/btree.rs:507-517 | the first edge at or beyond an offset |
| Copies.CopySpan | src/rep/btree.rs:1962-1997 | a tree of the same height with exactly the first or last n bytes, n being less than the length (the whole is shared by `SubTrees.CopyEnd`); only fresh nodes, at most one per level and one substring |
| SubTrees.CopyEnd | src/rep/btree.rs:1868-1927 | the same with folding: no higher than the source, a data edge or a root with more than one edge; no bytes are copied |
| SubTrees.SubTree | src/rep/btree.rs:2012-2082 | exactly bytes [offset, offset + n) as a data edge or a tree with more than one edge at its root, no higher than the source, which is unchanged; no bytes are copied; at most two new cells per level below its root, the root, and no more |
| Crops.RemoveSuffix | src/rep/btree.rs:2094-2163 | exactly the remaining bytes as a tree with more than one edge at its root, or a data edge, or nothing, mixing in-place crops with copies below the first shared edge; no bytes are copied; other handles untouched |
| Crops.ConsumeBeginTo | src/rep/btree.rs:1274-1289 | the node keeps its first edges, in place if its count is one |
| Crops.ExtractFront | src/rep/btree.rs:1300-1312 | the front edge of a node that is given up |
| Buffers.AppendInPlace | src/rep/btree.rs:2259-2290 | if every cell on the way down to the last data edge has count one and that is a flat, as many bytes as fit are written behind those in it; otherwise nothing changes; lengths on the path are right |
| Cords.PrepareAppendRegion | src/cord.rs:183-215 | the same for a cord's root of any kind: written exactly if it ends in a flat to which nothing else leads, and then as much as fits |
| Buffers.ExtractAppendBuffer | src/rep/btree.rs:2306-2377 | the last flat is extracted exactly if every cell on the way down to it has count one and it has the room asked for; otherwise the tree is untouched; the remaining data edges and bytes followed by the flat are the old ones; sound if and only if folding frees no shared node |
| Buffers.BackPathIs | src/rep/btree.rs:2318-2330 | each cell on the way down is the last edge of the one before, and the last is a data edge |
| Buffers.HasBufferIs | src/rep/btree.rs:2326-2336 | the condition for an extraction, in the counts, the kind and the capacity of the cells on the way down |
| SharedFold.SharedRemainder | src/rep/btree.rs:2361-2372 | a heap with exact counts and lengths where a private last flat cannot be taken soundly |
| SharedFold.SharedStops | src/rep/btree.rs:2361-2372 | the same as a valid state of four cords, in which taking the buffer of one is a reason for a run to stop |
| Cords.AppendSlice | src/cord.rs:408-463 | old bytes then data, for inline, flat and tree cords, shared or not; inline exactly up to 15 bytes; the cord itself if the data fits in place; old data edges kept and all others new, and their exact number after spare room was filled; aborted exactly if that is above 6^12 |
| Cords.SpareIs | src/cord.rs:183-215 | the room that is filled first, in the counts, the kind and the capacity of the cells on the way down |
| Cords.PrependSlice | src/cord.rs:466-492 | data then old bytes; inline exactly up to 15 bytes; old data edges kept and all others new; aborted exactly above 6^12 data edges |
| Cords.KeepsEdges | src/cord.rs:408-492 | after adding bytes at either end: when the result is inline, which data edges are the old ones, and that all others are new |
| Cords.AddTree | src/cord.rs:350-400 | the tree's data edges at either end of the cord's, none of them copied; aborted exactly if the data edges of both exceed 6^12 |
| Cords.SharesTree | src/cord.rs:350-400 | after adding a tree at either end: its data edges come last or first and the cord's own fill the rest, or one new flat for inline bytes |
| Cords.Subcord | src/cord.rs:1233-1260 | exactly the bytes asked for, inline exactly up to 15 bytes or from an inline cord, and otherwise without copying any; source and all others unchanged |
| Cords.StaticCord | src/cord.rs:876-883 | inline up to 15 bytes, above one new external rep and nothing else |
| Cords.ReadInline | src/iter.rs:240-272 | the bytes gathered over as many chunks as they lie in |
| Cords.ChunksAreValue | src/iter.rs:105-117 | the chunks of every cord are non-empty and make up its bytes |
| CordEdits.Advance | src/cord.rs:1105-1148 | the bytes from n on, for every representation; none are copied |
| CordEdits.Truncate | src/cord.rs:1163-1202 | the first bytes, for every representation; none are copied |
| CordEdits.AppendCord | src/cord.rs:536-573 | a source of up to 511 bytes is copied into new data edges or spare room, a longer one or one put into an empty cord shares its data edges; the source cord is unchanged; aborted only if the data edges of both exceed 6^12, and exactly then if the source is shared |
| CordEdits.PrependCord | src/cord.rs:611-623 | at the front inline bytes are copied and trees are shared; aborted exactly above 6^12 data edges |
| CordEdits.TakeAppendBuffer | src/cord.rs:1048-1086 | an inline cord is taken whole; a flat exactly if it is where the cord ends, every count on the way to it is one, and it has the room; otherwise the cord stays as it is. The buffer alone owns its flat; cord and buffer together are the old cord, in bytes and in data edges; sound if and only if folding frees no shared node |
| CordEdits.AppendBuffer | src/cord.rs:701-713 | cord bytes then buffer bytes; aborted exactly if there is no room for one more data edge |
| Navigators.Navigator.Init | src/rep/navigator.rs:192-219 | stands at the first or last data edge |
| Navigators.Navigator.Step | src/rep/navigator.rs:305-428 | moves to the next or previous data edge of the list, or stays exactly if there is none |
| Navigators.Navigator.Seek | src/rep/navigator.rs:269-295 | stands at the data edge that holds the byte; none exactly if the offset is beyond the tree, and then nothing moves |
| Navigators.Navigator.Skip | src/rep/navigator.rs:445-496 | the same relative to the current edge; beyond the tree it says by how much |
| Navigators.Navigator.Read | src/rep/navigator.rs:509-615 | a fresh tree of exactly the next n bytes, none of them copied; none exactly if n is 0 or fewer remain, and then heap and handles are exactly as before; the path stands where the read ended with the returned number of bytes used, unless the tree was used up |
| Paths.WholeTree | src/rep/navigator.rs:80-93 | at every height, what lies behind the path, the edge it takes and what lies ahead make up the list of data edges |
| Reads.Restored | src/rep/navigator.rs:549-556 | giving up what was newly built restores the very heap from before |
| Readers.Reader.Next | src/rep/reader.rs:109-122 | the next chunk of the list, and the count of remaining bytes stays exact |
| Readers.Reader.Previous | src/rep/reader.rs:128-137 | the previous chunk of the list |
| Readers.Reader.Seek | src/rep/reader.rs:184-199 | the rest of the chunk that holds the byte, with an exact count; nothing beyond the end |
| Readers.Reader.Skip | src/rep/reader.rs:155-174 | the chunk that many bytes further, with an exact count |
| Readers.Reader.Read | src/rep/reader.rs:214-250 | tree, rest of the chunk and count after a read; exact condition under which the description holds, and which bytes the tree holds when it does not |
| Readers.ReadAgain | src/rep/reader.rs:214-250 | for every non-empty flat in a leaf of its own: nothing remains after the first chunk, and a read with size 0 returns the bytes once more |
| CordIters.Drain | src/iter.rs:418-483 | for every interleaving of calls from both ends, on an iterator that may have been advanced: front chunks, those left and reversed back chunks are the chunks there were, each whole; every call yields one while there are any |
| CordIters.Chunks.Next | src/iter.rs:418-449 | the first of the chunks still to come |
| CordIters.Chunks.NextBack | src/iter.rs:455-483 | the last of the chunks still to come, from a reader of its own that is started at the first call |
| CordIters.Chunks.AdvanceBytes | src/iter.rs:385-411 | skipping bytes drops whole chunks and the first part of one |
| Pieces.CutDrop | src/iter.rs:385-411 | the same for any part of a list of chunks |
| ByteIters.Bytes.Nth | src/iter.rs:545-570 | the byte iterator is a double-ended queue, also for skipping |
| ByteIters.NthIsNexts | src/iter.rs:545-570 | skipping k bytes and taking one is k + 1 single steps: the same byte and the same rest |
| ChunkIters.GatherInline | src/iter.rs:240-272 | the next n bytes over several chunks, and the position behind them |
| Search.Find | src/cord.rs:1536-1576 | the least position at which the needle occurs, or none, for every chunking of both |
| Search.FirstIs | src/cord.rs:1536-1576 | what is returned is an occurrence, and wherever the needle occurs it is found there or before |
| Search.FindImpl | src/cord.rs:1767-1806 | moves to the least match of a one-chunk needle at or behind the position |
| CordQueries.FindInCord | src/cord.rs:1536-1576 | the same on the bytes of cords in any representation |
| CordQueries.CompareCords | src/cord.rs:1632-1652 | lexicographic byte order for every pair of representations |
| CordQueries.EqualCords | src/cord.rs:1658-1669 | equality of bytes |
| CordQueries.HashCord | src/cord.rs:1953-1989 | the length and the blocks written to a hasher depend on the bytes only |
| CordQueries.ByteRef | src/cord.rs:1474-1519 | the byte at an index, found by stored lengths |
| CordQueries.BytesOfCord | src/cord.rs:1413-1424 | the queue of bytes of every cord is its bytes |
| CordQueries.ChunksOfCord | src/cord.rs:1413-1416 | the chunks still to come of a new iterator are the data edges of the cord, one chunk each, in order |
| Comparing.CompareSlowPath | src/cord.rs:1686-1734 | comparing chunk by chunk is comparing the bytes |
| Comparing.CompareInline | src/inline_data.rs:364-381 | two overlapping big-endian words over zero-tailed storage, and then the sizes, give the lexicographic order |
| FairShare.FairSharesAddUp | src/rep/analysis.rs:38-105 | in exact arithmetic, the fair shares of all handles add up to the sizes of all live cells, each counted once |
| FairShare.Analyze | src/rep/analysis.rs:56-118 | the walk computes the total, the total with shared cells counted once, or the fair share, as defined without the walk |
| Refcounts.DestroyedExactlyOnce | src/rep.rs:105-133 | for every interleaving of clones, sends and two-step drops: destruction is reported exactly once, and only when no reference is left |
| Refcounts.DestroyedByTheLastDrop | src/rep.rs:105-133 | along every such run the references left and the drops are one more than the clones, and destruction has been reported exactly when the drops are one more than the clones |
| Refcounts.StepMoves | src/rep.rs:105-133 | what each step does to the count and to the references of each thread |
| Refcounts.SeesOneIsAlone | src/rep.rs:144-146 | a thread that sees a count of one holds the only reference |

## Left out

- Raw pointers, uninitialised memory and union layouts: cells have ids that are never reused.
- Memory orderings: the counter's steps are sequentially consistent.
- The immortal flag and the abort on counter overflow.
- Machine integer overflow: lengths are unbounded.
- The order of writes within one step: a freed cell leaves the heap before its edges are given up, and slots are written together with the counts they change; the states before and after each step are those of the source.
- An aborted operation is a flag, and nothing is promised about the heap after it.
- The downward half of `read` in src/rep/navigator.rs builds the right side of the new tree and moves the path in one loop; the model builds it with the same loop as `copy_prefix` and then moves the path.
- Search, comparison, hashing and `Cords.ReadInline` go through `ChunkIters.ForwardChunks`, a place in the list of chunks; the iterators themselves (`CordIters.Chunks`) hold readers.
- CordEdits.AppendCord: for a short cord that is copied chunk by chunk, the number of data edges is an upper bound, because each chunk first fills the room that the last one left.
- The packed form after a rebuild: a rebuild that happens while data is left to be added can leave a leaf next to one that is not full.
- The address of a taken flat: appended again, it is a cell with a new id.
- Writing into a taken buffer before it is appended (src/buffer.rs:540-600): buffers are appended as they were taken.
- Block sizes and large flats (src/buffer.rs:413-442, src/rep/flat.rs:39-106): a flat has a capacity; a new buffer's capacity is left open. That `append_slice` asks for about a tenth of the length as spare room is in the code of `Cords.GrowTree`, not in its contract.
- `append_owned_cord` (src/cord.rs:576-609) and owned external sources (src/cord.rs:641-700): appending shares the source; consuming it would add a removal.
- External owners and their release: an external rep is its bytes.
- `memchr` and `memmem` are plain loops with the same contracts.
- `read_bytes` and the cursor of src/iter.rs, `make_contiguous`, and the adapters in src/io.rs, src/bytes_impl.rs, src/source.rs and src/serde_impl.rs: thin over what is modelled.
- Rounding in memory totals: shares are exact reals.
- `check_valid`, dumping and debugging output: what they check is part of `Inv` and `AllSettled`.
