# A model of the waprox WAN-optimizing proxy

waprox sits at both ends of a slow link. The sending proxy cuts what a user writes into blocks with a
rolling Rabin fingerprint, names the chunks of each block at several resolutions, sends names instead
of bytes for chunks it expects the other side to have, and keeps a window of unacknowledged bytes. The
receiving proxy rebuilds the blocks from a reference-counted chunk table and writes them to its user.
The receiving user must see exactly the bytes that the sending user wrote.

This project models that chain, from carry-less arithmetic on 64-bit words up to whole runs of one
direction of a connection, and proves that the pieces compose. Two parts of the HashCache block
store, the load-shedding scheduler, the peer choice, the hash table and the memory cache are modelled
beside it.

How the modules build on each other:

* `Gf2`, `Word64`: polynomials over GF(2) as sets of exponents, with division and its uniqueness; a
  64-bit word is the set of its one bits, so shifts drop bits explicitly.
* `Fingerprint`, `Rabin`, `Boundary`, `Chunker`: reduction and product, the table-driven rolling
  fingerprint, chunk boundaries.
* `Levels`, `PreMrc`, `MrcTree`, `Resolve`, `Candidates`, `CandidateList`, `CandidateOrder`, `Sender`:
  the multi-resolution chunk tree, resolution against name hints, choice of what to send.
* `Delivery`, `ChunkTable`, `Receiver`, `Transparency`: message layout and parsing, the reference
  counts, reassembly, and end-to-end transparency of one block.
* `Described`, `Link`, `LinkSafety`, `Outgoing`, `Incoming`: one direction of a connection as a step
  system over arbitrary interleavings, and the connection objects whose methods are runs of it.
* `PutMissing`: the chunks of a rebuilt block that are put to disk, under the names the sender uses.
* `FullTree`, `TreeLookup`, `TreeCover`: the mode in which the whole tree is sent.
* `Populate`, `Ils`, `Shedding`: which blocks are scheduled, over which queues their chunks are spread, and
  where they are then requested.
* `Peer`, `Rendezvous`, `HashTable`, `MemCache`, `Clocks`, `LogAlloc`: the supporting parts.

SHA-1 is a function parameter. It is never assumed injective: the statements ask for no collision
among the blocks in play only (`Transparency.NoCollision`, `Described.Hashing.Injective`).

Results worth knowing:

* `LinkSafety.Safety`: in every run, whatever the partial writes, arriving chunks, hints and ends of
  connections, the counters are ordered, the window is never full, and a close on the announced total
  means that everything was written. The bytes written are a prefix of the bytes the user wrote, with one
  exception, which `LinkSafety.StrayedBreaks` reaches. The chunk table of the receiving proxy is part of
  the system: contents that come with a delivery, from peers or from disk are put into it, and other
  connections take from it. `LinkSafety.TotalCloses` is the converse for the close: an announced total that
  is reached does close.
* `Transparency.TransferBlock`: one block through chunking, tree, resolution, message, parsing, chunk
  table and reassembly comes out as the sender's bytes, exactly when the table can serve it; without hints
  at once. `Transparency.SendBlock` says which chunks go without their bytes.
* `PreMrc.DoPreMRC` and `CandidateOrder.GetCandidateList2`: where exactly each level of the tree cuts, and
  exactly which chunks are chosen from it.
* `Rabin.RabinPoly.ConcatByte`: the two tables implement exact slide-out and append of the remainder.
* `TreeCover.ResolveTree`: in full-tree mode the flat list is recovered, looked up and turned into a
  byte-ordered exact cover.
* `PutMissing.ActualPutMissingChunks`: exactly the missing chunks of a block are put, each under the hash
  of its own bytes; by `PutMissing.PutAsSent` that is the name the sender sends for it, and by
  `PutMissing.EverythingStored` every byte is then in a small chunk or in one that is known.
* `Populate.ScheduledAtMostOnce`: in every run of a connection a block is scheduled at most once, and not
  rebuilt before. A block whose last answer comes from the local disk cache is never scheduled
  (`Populate.MissedForGood`, `Populate.MissedReached`).
* `Shedding.Shedder.IntelligentLoadShedding`: every chunk is requested once and in order, of the origin or
  of a disk as the schedule chose.
* `LogAlloc.AcceptedExactly`: an entry that `checkVersion` accepts has not been overwritten if and only if
  it is of the present lap or its own disk has not reached it again.
  `LogAlloc.AcceptedThoughOverwritten` is an input where it has: the check looks at disk 0 only.
* `HashTable.Table.Insert`: a duplicate key is found newest first until the table grows, which turns the
  order round (`HashTable.GrowingReorders`); without duplicates the table is a finite map
  (`HashTable.DistinctIsMap`).
* `Rendezvous.WeightsDistinct`: two peers weigh the same for a chunk if and only if their address hashes
  agree in 31 bits, so the tie condition of the peer choice does not depend on the chunk.

Where the code and what one would expect of it differ, the model follows the code:

* A user who ends the stream in order without having written anything is announced as an abnormal end
  (waprox/waprox.c:2972-2976). `LinkSafety.EmptyStreamAborts` is such a run; by `LinkSafety.FinishTotal`
  the announcement is taken for an abnormal end if and only if the stream is empty.
* `ProcessUserData` announces the total plus the bytes still in the buffer; the model proves that none
  are left at that point (waprox/waprox.c:2043-2047).
* The end of the user's stream is forgotten when the block status is set again
  (waprox/waprox.c:2030-2038), and takes effect when the stream is read again.
  `Outgoing.UserConn.ProcessUserData` proves that this happens if and only if the buffer is not empty and
  takes the outstanding bytes over the high-water mark; `LinkSafety.EndForgotten` is a run where it does.
* A connection that has been marked dead still sends what is in its read buffer, and one dead in order
  still writes what it is sent, until it is cleaned up (waprox/waprox.c:4033-4058, 4178-4215). An abnormal
  end discards messages still queued (waprox/connection.c:649-660), so data sent after it can be written
  without what came before: `LinkSafety.StrayedBreaks`. `LinkSafety.Safety` proves that this takes both.
* `PostProcessCachePEEK` resolves a name but does not look whether its list is complete now
  (waprox/waprox.c:742-761), as the other answers and deliveries do (waprox/waprox.c:113-129). A list that
  the local disk cache completes is therefore never scheduled and blocks those behind it; by
  `Populate.LocalAnswerMisses` exactly such answers do this. The Makefile builds without peeks
  (`Populate.ReadyExactly`).
* A request for more blocks than a disk has in a lap is handed out past the end of the log
  (HashCache/src/hcfs.c:371-382); `LogAlloc.LastInside` proves that its last block is inside if and only
  if the request fits into one lap.
* `discardHeaders` leaves the header of the least recent way in place (HashCache/src/index.c:326-329).
* `g_CacheSize` is not decreased by the size of the value record on eviction
  (waprox/chunkcache.c:163), so it exceeds the bytes held by that size for every eviction.
* `FlushChildren` puts the parent in place of children that are all hits even if the parent is not
  known itself (waprox/mrc_tree.c:1541-1546); nothing is claimed about bandwidth being minimal. By
  `Candidates.RootAlone` a block whose smallest chunks are all known is sent as one if and only if every
  family in it is of one kind; in `Candidates.AllHitsApart` one is not.
* A write event that completes no message does not test for the announced total; when that was reached by
  the writes of a reconstruction, the test after it closes (waprox/waprox.c:3922-3927,
  waprox/reassemble.c:110).

## Model

| member | source | states |
|---|---|---|
| `Gf2.RemainderUnique` | waprox/rabinfinger2.c:58-83 | two polynomials of degree below that of the modulus and congruent to the same one are equal |
| `Gf2.RemUnique` | waprox/rabinfinger2.c:58-83 | the remainder of long division is the only polynomial of low degree in its class |
| `Fingerprint.GetDegree` | waprox/rabinfinger2.c:43-56 | the position of the highest one bit of a nonzero word |
| `Fingerprint.FoldHigh` | waprox/rabinfinger2.c:66-77 | the high word is folded away without leaving the residue class |
| `Fingerprint.GetFingerprint` | waprox/rabinfinger2.c:58-83 | the unique remainder of the 128-bit value; a zero modulus returns the low word |
| `Fingerprint.MultiplyPoly` | waprox/rabinfinger2.c:85-107 | the exact 128-bit carry-less product |
| `Rabin.AppendByte` | waprox/rabinfinger2.c:116 | shifting a byte in and correcting with the modulo table is multiplication by x^8, addition and reduction |
| `Rabin.DropByte` | waprox/rabinfinger2.c:112-114 | the region table removes exactly the oldest byte from the remainder |
| `Rabin.FillModulo` | waprox/rabinfinger2.c:137-142 | every modulo entry cancels the top byte it stands for and adds its remainder |
| `Rabin.WindowShift` | waprox/rabinfinger2.c:143-145 | the remainder of x to the power eight times the window less one byte |
| `Rabin.FillRegion` | waprox/rabinfinger2.c:146-149 | every region entry is the remainder of its byte at the far end of the window |
| `Rabin.RabinPoly.constructor` | waprox/rabinfinger2.c:120-150 | both tables for any modulus of degree 63 and any window of 1 to 256 bytes |
| `Rabin.RabinPoly.ZeroRegionBuf` | waprox/rabinfinger2.c:152-156 | the window becomes all zero, whatever the position |
| `Rabin.RabinPoly.ConcatByte` | waprox/rabinfinger2.c:109-117 | the finger stays below 2^63 and equals the remainder of the window, which drops its oldest byte and gains the new one |
| `Rabin.DefaultModulus` | waprox/rabinfinger2.c:130 | the built-in modulus has degree 63 |
| `Boundary.ScanLocated` | waprox/rabinfinger2.c:275-307 | boundaries ascend and carry the finger at their offset |
| `Boundary.ScanCuts` | waprox/rabinfinger2.c:279-303 | only offsets whose finger matches the small mask, or the end, are boundaries |
| `Boundary.ScanComplete` | waprox/rabinfinger2.c:279-296 | every matching offset up to the stop is a boundary |
| `Boundary.ScanPrefix` | waprox/rabinfinger2.c:279-303 | boundaries of a prefix that ends at the stop are the same |
| `Boundary.ScanRight` | waprox/rabinfinger2.c:279-303 | the scan ends at the first offset with all bits of a nonzero large mask, or else with the input; up to there exactly the offsets with all bits of the small mask are boundaries, and the end of the input when there is none |
| `Chunker.RabinCtx.GetRabinChunkSizeEx` | waprox/rabinfinger2.c:264-307 | size and boundaries are a function of the bytes alone, independent of earlier context state, and are those which the bits of fingers and masks ask for, no more and no less |
| `Chunker.Rechunk` | waprox/mrc_tree.c:1024-1034 | chunking an emitted block again gives the same boundaries and fingers and consumes all of it |
| `Chunker.GetMRCMask` | waprox/rabinfinger2.c:158-189 | for a power of two the mask of all lower bits |
| `Levels.LevelTiles` | waprox/mrc_tree.c:1987-2034 | one level tiles the block with positive lengths, fresh indices and its level number |
| `Levels.LevelRefines` | waprox/mrc_tree.c:1993-2025 | every chunk end of a level is a chunk end of the next, also for chunks too small to be cut there anew |
| `Levels.LevelCutsAt` | waprox/mrc_tree.c:1997-2027 | a level ends at a boundary if and only if it hits it and it is far enough behind the end before, or already cut |
| `PreMrc.FillLevel` | waprox/mrc_tree.c:1993-2034 | one level ends at boundary k if and only if the low bits of its finger are set or it is last, and it is marked or more than 30 bytes behind every earlier end and the start; it ends nowhere else, and marks exactly where it ends |
| `PreMrc.NameLevels` | waprox/mrc_tree.c:1982-2053 | the level loop yields all levels, down to the smallest chunk size |
| `PreMrc.BuildForest` | waprox/mrc_tree.c:1982-2053 | all levels tile the block and refine each other |
| `PreMrc.BuildCuts` | waprox/mrc_tree.c:1982-2053 | the same for every level, what is cut already being the ends of the level above |
| `PreMrc.RootLevel` | waprox/mrc_tree.c:2009-2011 | the first level is the whole block |
| `PreMrc.DoPreMRC` | waprox/mrc_tree.c:1902-2063 | for every buffer the boundaries its bytes ask for; levels that tile the emitted block, nested, root first, one for each chunk size down to the minimum, each ending at exactly the boundaries that its chunk size, the small-chunk rule and the level above ask for; one level only for one way |
| `PreMrc.RechunkNames` | waprox/mrc_tree.c:1024-1027 | chunking an emitted block again gives the same boundaries, hence the same levels and places of all names |
| `MrcTree.Adopt` | waprox/mrc_tree.c:2081-2089 | the unbounded inner loop stops in range, at the child with which the parent ends |
| `MrcTree.LinkLevels` | waprox/mrc_tree.c:2073-2091 | every chunk of a level gets a parent that contains it |
| `MrcTree.MakeTree` | waprox/mrc_tree.c:2065-2097 | a tree; nothing but parents is changed |
| `MrcTree.ParentUnique` | waprox/mrc_tree.c:2065-2097 | the parent is the only chunk of the level above that contains the child |
| `Resolve.HitMeansKnownAncestor` | waprox/mrc_tree.c:1418-1487 | a hit is a small chunk or one whose name, or that of a chunk around it, is known |
| `Resolve.ResolveStep` | waprox/mrc_tree.c:1418-1487 | skipping, copying and hashing agree with the definition of a hit, and a ready hash is that of the chunk's bytes |
| `Resolve.ResolveLevel` | waprox/mrc_tree.c:1410-1500 | one level resolved, and whether all of it hit |
| `Resolve.ResolveWithHint` | waprox/mrc_tree.c:1400-1512 | all levels down to the returned one resolved; the others untouched |
| `Candidates.MergeCovers` | waprox/mrc_tree.c:1514-1555 | replacing all children by their parent keeps an exact cover |
| `Candidates.FlushedSolid` | waprox/mrc_tree.c:1541-1546 | a family is replaced by its parent if and only if all families of the parent and below, down to the lowest level, are of one kind |
| `Candidates.NoFamilyLeft` | waprox/mrc_tree.c:1541-1546 | in the end no chunk above the lowest level has only candidates of one kind as children |
| `Candidates.RootAlone` | waprox/mrc_tree.c:1557-1625 | the root is the only candidate if and only if every chunk above the lowest level has children of one kind |
| `Candidates.NoHitsRoot` | waprox/mrc_tree.c:1557-1625 | so it is when nothing on the lowest level is a hit |
| `Candidates.AllHitsApart` | waprox/mrc_tree.c:1541-1546 | but not always when everything there is: a tree of which two parts of the root stay apart |
| `CandidateList.FlushChildren` | waprox/mrc_tree.c:1514-1555 | if all children are candidates, and all hits or all misses, they give way to their parent; if they are candidates of both kinds the parent is none; else nothing changes |
| `CandidateList.MergeLevel` | waprox/mrc_tree.c:1591-1624 | one level merged family by family, keeping the cover |
| `CandidateList.ChooseCandidates` | waprox/mrc_tree.c:1557-1625 | the marked chunks are an exact cover of the block and exactly the largest chunks whose families, down to the lowest resolved level, are of one kind; no family is left to merge |
| `CandidateOrder.SortedCoverTiles` | waprox/mrc_tree.c:1624-1673 | an exact cover in offset order is contiguous from the first to the last byte |
| `CandidateOrder.GetCandidateList2` | waprox/mrc_tree.c:1557-1681 | the candidates tile the block in order, each a copy of a marked name and each marked name among them; no family is left to merge; the root alone when nothing on the lowest level is a hit |
| `Sender.ChosenNamed` | waprox/mrc_tree.c:1590-1673 | a candidate has its hash, of exactly its own bytes, although names below hits are skipped |
| `Sender.PrepareBlock` | waprox/waprox.c:1752-1812 | for every buffer, configuration and hint table an ordered, correctly named candidate list of the emitted block: its tree resolved down to the first level of hits or the last, and of that exactly the largest chunks with families of one kind |
| `Delivery.EntryRoundTrip` | waprox/waprox.c:2274-2318 | one chunk entry is read back as written, wherever it stands |
| `Delivery.MessageRoundTrip` | waprox/waprox.c:2229-2330 | a delivery at the front of a stream parses to its entries and consumes exactly its header length |
| `Delivery.GetCandidateMessageLength` | waprox/protocol.c:689-708 | the precomputed length equals the bytes of the encoded entries |
| `Delivery.BuildWANameTreeDelivery3` | waprox/protocol.c:173-230 | the message of the announced length from which the receiver parses, for every candidate, name, length, and its bytes unless it is a hit of more than 30 bytes |
| `Delivery.ParseNames` | waprox/waprox.c:2274-2323 | the chunk walk decodes the same entries and end offset as the recursive definition |
| `Delivery.ParseMessage` | waprox/waprox.c:2232-2323 | header checks and chunk walk decode what the recursive definition does |
| `ChunkTable.TempCache.RefPut` | waprox/chunkcache.c:566-589 | one more reference, a new block with one; empty blocks ignored |
| `ChunkTable.TempCache.RefFlush` | waprox/chunkcache.c:426-455 | one reference less; the entry goes with the last |
| `ChunkTable.TempCache.CheckOneChunkTree` | waprox/reassemble.c:125-178 | all counts restored; the total length if and only if no name is needed more often than it is referenced |
| `ChunkTable.ReleaseHas` | waprox/reassemble.c:225-255 | the flush loop always finds its chunk with a reference left |
| `ChunkTable.TempCache.ReconstructOneChunkTree` | waprox/reassemble.c:180-257 | succeeds exactly for a non-empty available list; output is the blocks in order; every occurrence of a name takes one reference, and exactly the entries that reach zero are gone |
| `Receiver.AvailableAfterDelivery` | waprox/waprox.c:2264-2318 | after a delivery the block is available if and only if the table already had the names sent without content, as often as they occur |
| `Receiver.AvailableAfterArrivals` | waprox/waprox.c:2264-2318 | the same with blocks that arrive later: table and arrivals together must have the names sent without content, as often as they occur |
| `Receiver.ProcessNameTreeDelivery2` | waprox/waprox.c:2229-2330 | names queued in order and contents put, message consumed |
| `Receiver.PutAll` | waprox/waprox.c:2301-2311 | the contents of a delivery are put in order, under their names |
| `Transparency.Transparent` | waprox/reassemble.c:224-257 | whatever the sound table that can serve the names, the rebuilt bytes are the sender's and every announced length is right |
| `Transparency.BlockFits` | waprox/protocol.c:173-230 | every delivery of a block fits the 32-bit length field |
| `Transparency.SendBlock` | waprox/waprox.c:1752-1829 | the message on the wire for the front of a buffer: it parses to one entry for each chosen chunk, without content if and only if the chunk has more than 30 bytes and its name, or that of a chunk around it in the tree, is in the hint table |
| `Transparency.TransferBlock` | waprox/reassemble.c:224-257 | the whole chain returns the sender's first bytes exactly when the chunks are available, which is when the table and what arrives have the names sent without content; without hints always |
| `Described.Rebuilt` | waprox/reassemble.c:224-257 | a list that names the parts of a block is rebuilt to that block from any trusted table |
| `Described.BlockDescribed` | waprox/protocol.c:173-230 | the names of a prepared block name its consecutive parts |
| `PutMissing.ActualPutMissingChunks` | waprox/mrc_tree.c:1004-1068 | a block as emitted is cut whole again; with parents linked, exactly its missing chunks of resolved levels are put, each under the hash of its own bytes |
| `PutMissing.PutMisses` | waprox/mrc_tree.c:1037-1063 | the loop over the names stops at the level after the lowest one resolved and puts each miss whose name is not in the table at that moment |
| `PutMissing.DiskHints.PutDiskHint` | waprox/chunkcache.c:270-300 | the name goes to the end of the table, which forgets its oldest one when it is full |
| `PutMissing.PutOnce` | waprox/mrc_tree.c:1045-1059 | unless one block fills the table, no name is put twice |
| `PutMissing.PutAsSent` | waprox/mrc_tree.c:1047-1052 | name and bytes put for an index are those of the candidate the sender sends for that index |
| `PutMissing.EverythingStored` | waprox/mrc_tree.c:1032-1063 | afterwards every byte is in a small chunk or in a chunk around which a name was known or has just been put |
| `PutMissing.EmittedWhole` | waprox/mrc_tree.c:1024-1027 | every block the sender emits is cut whole when it is chunked again, with the same names |
| `LinkSafety.WriteLoopWrote` | waprox/waprox.c:3766-3901 | partial writes move bytes from queue to socket in order and count whole messages only |
| `LinkSafety.WriteLoopEnds` | waprox/waprox.c:3775-3818 | the loop ends with the queue, with the outcomes, or at a message that is not taken whole; what is taken of that counts for the next time |
| `LinkSafety.AllWritten` | waprox/waprox.c:3922-3934 | reaching the announced total means that queue and reassembly list are empty and everything is written |
| `LinkSafety.TotalCloses` | waprox/waprox.c:2976-2993 | in every run in which an open receiver takes a nonzero total, and nothing else closes it afterwards, the write event or test with which that total is reached closes it as complete |
| `LinkSafety.OrderlyEnd` | waprox/waprox.c:3922-3934 | for every block a run in which it is sent, announced, written and acknowledged, and both sides close |
| `LinkSafety.RebuiltNext` | waprox/reassemble.c:97-108 | the first list of the reassembly queue is rebuilt, from the table as it then is, to the next block sent |
| `LinkSafety.ContentsTrusted` | waprox/waprox.c:2264-2318 | putting the contents of a delivery from the sender keeps the table trusted |
| `LinkSafety.StepKeeps` | waprox/waprox.c:1967-2047 | every step keeps the invariant of the link: of both sides in any life until they are cleaned up, of the chunk table with contents that arrive in deliveries, from peers or from disk, and of releases by other connections |
| `LinkSafety.Safety` | waprox/waprox.c:2875-2946 | in every run: written is a prefix of what the user wrote, unless the sender died abnormally and a receiver dead in order took data sent after that; lastAcked <= acks in flight <= bytesRX <= bytesTX; numSent = bytesTX - lastAcked < window; a close on the total only after all is written; the table holds blocks in play under their own names |
| `LinkSafety.StrayedBreaks` | waprox/connection.c:636-671 | the exception is reached: for any two blocks a run in which the second is written and the first is not |
| `LinkSafety.WriteBufferNeverFull` | waprox/waprox.c:1115-1128 | a rebuilt block never reaches the limit that ends the process, in any life of the connection |
| `LinkSafety.RawNeverFull` | waprox/waprox.c:1115-1128 | nor does a raw message |
| `LinkSafety.FinishTotal` | waprox/waprox.c:2972-2976 | the total announced is the length of the user's stream; a receiver takes it for an abnormal end if and only if the stream is empty |
| `LinkSafety.EmptyStreamAborts` | waprox/waprox.c:2972-2976 | a run with an orderly end of an empty stream after which the receiver is closed as abnormal |
| `LinkSafety.EndForgotten` | waprox/waprox.c:2030-2038 | a run after which the end of the stream is forgotten: 232 full buffers, one more, the end, and the send that goes over the high-water mark leave the connection blocked and no total announced |
| `Outgoing.UserConn.EventRead` | waprox/waprox.c:1248-1283 | bytes from the user join the read buffer, at its end |
| `Outgoing.UserConn.NextMessage` | waprox/waprox.c:1974-2013 | all of the buffer raw without chunking, else its first block: raw for the first chunk when that is asked for, else the entries that the tree of the block and the hints ask for |
| `Outgoing.UserConn.ProcessUserData` | waprox/waprox.c:1896-2050 | a run of sends until the buffer is empty, too short or the window is full; after the end of the stream the exact total is announced, unless the rest goes over the high-water mark, and exactly then the end is forgotten; a dead connection sends all it has, and becomes blocked exactly when that goes over the mark |
| `Outgoing.UserConn.CloseConnection` | waprox/waprox.c:1304-1334 | the rest is sent and the total announced, unless it goes over the high-water mark; with an empty buffer the connection closes at once if and only if nothing is outstanding |
| `Outgoing.UserConn.ProcessNameAck` | waprox/waprox.c:2851-2928 | in any state: outstanding bytes never negative; resumes if and only if they are at most 0.8 of the window; closes when all is acknowledged |
| `Outgoing.UserConn.SetDead` | waprox/connection.c:636-671 | the first cause counts; an abnormal end is announced by a zero total |
| `Incoming.PeerConn.ActualWrite` | waprox/waprox.c:3841-3901 | whole, partial, busy and failed writes, and where the next write starts |
| `Incoming.PeerConn.WriteMessages` | waprox/waprox.c:3775-3818 | the loop of writes agrees with the recursive definition |
| `Incoming.AttemptWrites` | waprox/waprox.c:3766-3936 | whole messages are counted and acknowledged, a write event that reaches the total closes, and a failed write counts nothing and closes as abnormal |
| `Incoming.PeerConn.Write` | waprox/waprox.c:3766-3936 | for every sequence of outcomes the records, the queued acknowledgements and the bytes written are those of the system's write step; a failed write discards the acknowledgements |
| `Incoming.PeerConn.SendDataPrivate` | waprox/waprox.c:1061-1148 | queued and written as far as possible; the limit is reported |
| `Incoming.PeerConn.ProcessMessage` | waprox/waprox.c:2952-3071 | names with their contents, raw bytes and closes as steps of the system, also for a dead connection; a nonzero total not reached yet is kept, one that is closes, and zero is an abnormal end; a raw message never overtakes a list of names |
| `Incoming.PeerConn.RebuildFirst` | waprox/reassemble.c:97-108 | succeeds exactly when the table of the system can serve the first list; then a rebuild step and the write that follows |
| `Incoming.PeerConn.ReconstructOriginalData` | waprox/reassemble.c:89-118 | in any life, a run of rebuild and write steps over the scheduled lists up to the first that has to wait; then the close test |
| `FullTree.InitChunkTreeInfo` | waprox/mrc_tree.c:404-482 | from indices and lengths in any order, the levels, level information and parents of the original tree |
| `FullTree.FillLevels` | waprox/mrc_tree.c:425-448 | the level information of the original tree |
| `FullTree.AdoptByLength` | waprox/mrc_tree.c:470-479 | the children of a parent are those of the original tree |
| `TreeLookup.ExposedAll` | waprox/mrc_tree.c:599-674 | the chunks below missing chunks make up exactly the missing bytes |
| `TreeLookup.HitIsKnownAround` | waprox/mrc_tree.c:599-674 | a chunk counts as a hit if and only if it, or a chunk around it, is known and differs in length from its parent |
| `TreeLookup.ChunkTreeInfo.UpdateLookupResult` | waprox/mrc_tree.c:577-597 | hit and missing bytes keep their sum and the missing bytes are those of the level |
| `TreeLookup.ChunkTreeInfo.ResolveOneLevel` | waprox/mrc_tree.c:599-674 | the chunks to look up are those with a missing parent of another length |
| `TreeLookup.NoHitsMore` | waprox/mrc_tree.c:704-715 | a level without hits has at least as many missing chunks as the one above |
| `TreeLookup.ChunkTreeInfo.ResolveLevel` | waprox/mrc_tree.c:692-721 | one level looked up, with balanced bytes |
| `TreeLookup.ChunkTreeInfo.ResolveMRCTreeInMemory` | waprox/mrc_tree.c:676-734 | states of all visited levels, hits plus misses equal the root, and an early stop only when nothing is missing |
| `TreeCover.SelectedCover` | waprox/mrc_tree.c:769-838 | the selected chunks cover every byte exactly once |
| `TreeCover.GetChunkNameList2` | waprox/mrc_tree.c:769-838 | exactly the selected chunks, although the loop stops as soon as the lengths add up |
| `TreeCover.ClimbOrders` | waprox/mrc_tree.c:133-172 | for chunks without common bytes the comparison by climbing is the order of their offsets and never equality |
| `TreeCover.CompareChunkIndex` | waprox/mrc_tree.c:133-172 | the loop computes that comparison |
| `TreeCover.MissingChunkPolicy` | waprox/mrc_tree.c:736-767 | the selection in byte order, contiguous from first to last byte |
| `TreeCover.ResolveTree` | waprox/mrc_tree.c:404-838 | recovery, lookup and selection composed: of the levels looked up, requested are exactly the hits and leaves that have no hit around them, in byte order, each byte covered once |
| `Populate.PopulateILSQueue` | waprox/ils.c:239-316 | for connections as any run leaves them: the ready lists of the open ones are marked and no others; of their chunks not in memory the hits of each peer are in its disk queue, the misses in the network queue and all in the send queue, in order, flagged by their queue |
| `Populate.EnqueueNames` | waprox/ils.c:273-297 | the chunks of one list are added to what the queues hold, hits and misses apart |
| `Populate.NamesGathered` | waprox/ils.c:239-271 | gathered are exactly the names of the ready lists of open connections |
| `Populate.FetchedExactly` | waprox/ils.c:272-297 | fetched are exactly the chunks not in memory |
| `Populate.MissesExactly` | waprox/ils.c:287-293 | the network queue takes exactly those not expected on a disk |
| `Populate.HitsExactly` | waprox/ils.c:280-286 | the disk queue of a peer takes exactly those expected there |
| `Populate.ScheduledAtMostOnce` | waprox/ils.c:252-310 | in every run of deliveries, answers from peers and from the local disk cache, schedules, rebuilds and closes no list is scheduled twice, every list rebuilt was scheduled, and ready are exactly the lists resolved and not scheduled whose last answer was not local |
| `Populate.LocalAnswerMisses` | waprox/waprox.c:742-761 | an answer of the local disk cache leaves no list behind if and only if it is not the last one of its list |
| `Populate.ReadyExactly` | waprox/waprox.c:113-129 | in every run without answers of the local disk cache the ready list is exactly what is resolved and not scheduled |
| `Populate.MissedForGood` | waprox/reassemble.c:191 | a list left behind is never scheduled, and neither it nor a list behind it is ever rebuilt |
| `Populate.MissedReached` | waprox/waprox.c:742-761 | a run that leaves a list behind: one name, answered by the local disk cache |
| `Ils.Scheduler.SortQueues` | waprox/ils.c:146-186 | queues sorted largest first, with their latencies |
| `Ils.FindSlowest` | waprox/ils.c:200-208 | the queue of maximal latency |
| `Ils.SmallestMoved` | waprox/ils.c:216-223 | what left a queue is no larger than what remains |
| `Ils.Scheduler.FindBestSchedule` | waprox/ils.c:142-237 | ends; chunks conserved; a chunk that moves was not flagged before and flags match queues after; chunks leave the slowest queue only; network at least as slow as every disk queue or the slowest queue empty; network latency bounded by the initial one or an initial disk latency plus one chunk |
| `Shedding.FilledDistinct` | waprox/ils.c:273-297 | queues filled from separate records satisfy what the schedule asserts of a chunk that moves |
| `Shedding.RequestsFollow` | waprox/ils.c:492-525 | the origin is asked for exactly the chunks of the network queue, each peer or this host for exactly those of the disk queue of that peer |
| `Shedding.Shedder.IntelligentLoadShedding` | waprox/ils.c:318-394 | a round without news changes nothing; else the lists are marked, the chunks of ready blocks of open connections that are not in memory and no others are requested, once and in order, from the place in whose queue the schedule put them, at this host when it is the peer or the peer is the destination proxy; no disk queue left is slower than the network unless a slowest one is empty |
| `Peer.ScanUp` | waprox/peer.c:548-551 | the scan from the left stops at the pivot |
| `Peer.ScanDown` | waprox/peer.c:552-556 | the scan from the right, unbounded by the part, stops in range |
| `Peer.Partition` | waprox/peer.c:544-561 | a split around the last element that rearranges only the part |
| `Peer.QuickSort` | waprox/peer.c:539-565 | descending, a permutation of the part, in place |
| `Rendezvous.WeightsDistinct` | waprox/peer.c:518-529 | weights are equal if and only if the address hashes agree in 31 bits |
| `Rendezvous.ChunksSpread` | waprox/peer.c:518-529 | one peer weighs the same for two chunks if and only if the chunk hashes agree in 31 bits |
| `Rendezvous.RhrwPickPeer` | waprox/peer.c:567-635 | a live peer other than the local one of maximal weight; -1 if and only if there is none |
| `Rendezvous.PickUnique` | waprox/peer.c:567-635 | with distinct addresses the choice is unique |
| `Rendezvous.PickStable` | waprox/peer.c:567-635 | losing another peer leaves the choice; gaining one moves it only to that peer |
| `HashTable.PickPrime` | waprox/hashtable.c:34-40 | the first prime above the requested size, none above 2^30 |
| `HashTable.MoveHead` | waprox/hashtable.c:89-94 | moving one entry keeps, for every key, the entries left in reverse before those moved |
| `HashTable.EntriesAreMap` | waprox/hashtable.c:163-177 | the value of every chained entry is among those stored for its key |
| `HashTable.Table.Expand` | waprox/hashtable.c:71-126 | the same entries, the values of each key in reverse order, every entry in the bucket of its hash; no change at the largest size |
| `HashTable.Table.Insert` | waprox/hashtable.c:137-159 | one more value in front of those of its key, present or not; growth exactly when the load limit is passed and a larger size exists; count and load limit kept |
| `HashTable.Table.Search` | waprox/hashtable.c:163-177 | the first value of the key, none if and only if it has none |
| `HashTable.Table.Remove` | waprox/hashtable.c:181-211 | takes the first value of the key out and returns it; the others stay in order |
| `HashTable.DistinctIsMap` | waprox/hashtable.c:137-211 | with unique keys inserting, removing, growing and counting are those of a finite map |
| `HashTable.ValuesByKey` | waprox/hashtable.c:137-211 | with duplicate keys too: insertion puts a value in front of those of its key, removal takes the first, growth reverses them, and other keys keep theirs |
| `HashTable.GrowthAnswer` | waprox/hashtable.c:87-94 | growing leaves the answer for a key as it is if and only if the key has no value or its first and last are equal |
| `HashTable.SearchAcrossGrowth` | waprox/hashtable.c:71-177 | a search before and one after growth agree exactly then |
| `HashTable.GrowingReorders` | waprox/hashtable.c:87-94 | an inserted value is the answer for its key, and still is after growing if and only if it is equal to the oldest one |
| `MemCache.Cache.ChooseVictims` | waprox/chunkcache.c:137-153 | the shortest prefix of the oldest entries that frees twice the needed size, or all |
| `MemCache.Cache.CheckCache` | waprox/chunkcache.c:130-173 | the victims leave list and table; the counter drifts by one value record each |
| `MemCache.RoomMade` | waprox/chunkcache.c:130-168 | the bytes held stay within the limit unless a single entry remains |
| `MemCache.Cache.PutMemory` | waprox/chunkcache.c:302-319 | list and table hold the same keys; the counter never under-counts |
| `Clocks.GetSet` | HashCache/src/index.c:559-572 | a field reads back what was set |
| `Clocks.SetLayout` | HashCache/src/index.c:565-572 | setting a field changes that field only |
| `Clocks.InitClocks` | HashCache/src/index.c:104-110 | disjoint fields inside the word for every way |
| `Clocks.SetHeader.constructor` | HashCache/src/index.c:186-191 | way j starts with age j |
| `Clocks.SetHeader.UpdateClocks` | HashCache/src/index.c:499-557 | ages stay a permutation; the way becomes the most recent; order of the others and other bits kept |
| `Clocks.SetHeader.DiscardHeaders` | HashCache/src/index.c:312-349 | ages stay a permutation; the way becomes the least recent; order of the others and other bits kept |
| `LogAlloc.PlacesDistinct` | HashCache/src/hcfs.c:241-244 | different block numbers have different disks or byte offsets |
| `LogAlloc.LastInside` | HashCache/src/hcfs.c:371-382 | the last block of a request is inside the log if and only if the request fits into one lap |
| `LogAlloc.LogFile.BeginAllocCycle` | HashCache/src/hcfs.c:414-429 | the next disk unless the cycle is untouched |
| `LogAlloc.LogFile.GetFromOneDisk` | HashCache/src/hcfs.c:365-412 | for every request the blocks, version and remaining cycle, and the whole new state; the last block inside the log if and only if the request fits one lap |
| `LogAlloc.BlockInside` | HashCache/src/hcfs.c:365-412 | every block is on the returned disk, and inside the log when the request fits one lap |
| `LogAlloc.NoBlockTwice` | HashCache/src/hcfs.c:365-412 | no block number twice within one version |
| `LogAlloc.LogFile.CheckVersion` | HashCache/src/hcfs.c:317-333 | the test, and for an accepted entry of any disk exactly when it has not been overwritten; of disk 0 it never has |
| `LogAlloc.IntactBehind` | HashCache/src/hcfs.c:317-333 | an entry of the previous lap is intact if and only if its disk has not reached it again |
| `LogAlloc.AcceptedExactly` | HashCache/src/hcfs.c:317-333 | an accepted entry has not been overwritten if and only if it is of the present lap or its own disk has not reached it again |
| `LogAlloc.AcceptedThoughOverwritten` | HashCache/src/hcfs.c:324-328 | two disks, cycles of 16 blocks and three requests after which an overwritten entry is accepted |

## Left out

- SHA-1 is a function parameter; hex printing and hash computation are not modelled.
- Sockets, event dispatch, SCTP, DNS and disk helper processes, configuration files and logging; what they deliver (bytes read, outcomes of writes, hints, arriving chunks) are parameters.
- Capacities of the static boundary, name and queue arrays, and out-of-memory paths.
- The sizes `g_ChunkSize`, `g_MinChunkSize` and `g_NumMRCWays` are given by their binary logarithms; values that are no powers of two are not modelled.
- The fields type and rindex of a chunk name, and the buffers kept until acknowledgement (CreateNewChunkBuffer2, DestroyChunkBufferList).
- The library sorts: qsort is an insertion sort with the same comparison.
- 32-bit overflow of bytesTX, bytesRX and of byte counters elsewhere; only the unsigned subtraction of the resume test is modelled with its width.
- A dead sending connection whose read buffer takes it over the high-water mark becomes blocked, and the clean-up then stops at its assertion (waprox/waprox.c:4196-4203); such sends are no steps of the system. Nor is the byte that a failed read takes off the count of the read buffer (waprox/waprox.c:1284).
- The second direction of a connection; it enters only as a reason for either side to die.
- The pseudo connection before the destination is known, HTTP proxy parsing and the retry of GetDestinationConnection.
- The messages of peek requests (their answers are events in Populate), body requests and their references; chunks that arrive from peers or disk are arbitrary blocks put into the table. Whom a put is sent to (DistributePutRequest) and the queue of blocks waiting to be put are not modelled.
- Liveness: nothing is said about chunks arriving eventually.
- Message merging, the older candidate list and the raw and mixed tree messages, whose writer and size function disagree.
- TreeLookup and TreeCover use the offset that InitChunkTreeInfo sums up but does not store; the model stores it in the name.
- HashTable: chains are sequences; next pointers, the failure of malloc (with the realloc path of expansion) are not modelled, and the hash function is a parameter that includes the bit mixing.
- HashTable.LoadLimit: the load limit uses the exact fraction 0.65, not its floating-point approximation.
- Populate: built with _WAPROX_REASSEMBLE_OPTIMIZE, as the Makefile sets; a connection is a value, and its lists are found by sequence number.
- Ils: latencies are reals; floating-point rounding is not modelled. The counts of pending chunks and bytes are parameters: the answer to a network request takes off less than the request added (waprox/chunkrequest.c:117-120, waprox/waprox.c:2573-2576), and the Makefile builds a scheduler that ignores them.
- Shedding: requests are a list; what a local request does next (chunks waiting to be put, disk, or the origin after all) is not modelled. That no record of a name is met twice is a condition of what is said about the places.
- MemCache: record sizes are parameters; the table of send hints is not modelled, that of disk hints as its list only (PutMissing).
- Clocks: only the variant with a full in-memory index.
- LogAlloc: the version counter is unbounded; block size and cycle length are parameters; saving and reloading the log state are not modelled.
- HashCache HTTP parsing, linked lists, elevator, locks and object cache.
