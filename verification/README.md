# Verified model of the BCU control firmware

The BCU is the control box of a train public-address system. This project models the parts of its firmware whose
correctness rests on more than one function at a time, and proves what they keep. `dafny verify dfyconfig.toml`
checks everything.

## What is modelled

**Data path.**
`CharBuffer` is the byte ring with its memory and offsets; every operation is proved against the bounded queue it
stands for. `CharBufferRace` runs the write and the read loop of that ring as two threads that interleave at every
shared access. `BlockBuffer` is the block queue without a mutex, `BlockBufferRace` its writer and reader interleaved
statement by statement. `Packets` is the packetiser and the receive path in use, `NetCache` the older receive path with
six slots and a rotating pointer array.

Two kinds of player share a pending ring (`AudioFlow`). `Playback` is `PlayAudioTwice`, which keeps what the device does
not take; its only caller hands it the alarm ring with the built-in clip (bcu_main.cxx:1293,1301), and that caller, with
its rewinding of the ring, is modelled too. `VoicePlayback` is the pair `PlayAudioTwice_D2P` and `PlayAudioTwice_D2D`,
the only readers of the ring that network packages reach (bcu_main.cxx:1165,1211,1255): they cut a backlog, fill up with
blanks, and forget what the device leaves. `EndToEnd` follows what is sent: into the network ring, where any reads of any
size get exactly what arrived, and through the voice players to the sound card, where the voice heard is what was sent
with bytes left out (`Subsequence`), blanks are put in, and it is exactly what was sent if and only if each call of the
player meets a condition that is spelled out.

**State machines.**
`Events` holds the ids and the decisions read off a command. `Intercom` is the ownership machine: live announcement,
D2D, D2P and hang-up, with the rule table, the enter and exit actions and the handlers, as functions over the state of
the box, and what every run of those handlers keeps. `ControlUnit` is the same machine as the code writes it, field by
field, each method proved equal to its function, and run over any events. `Announce` is the announcement machine with its
priority list, to which received rows are appended one by one, or which is built from a whole table, searched by id.

**Database sync.**
`GdSync` is the sync thread: one iteration of its endless loop is a step, the network may deliver any packet or none,
the alarm may fire wherever the code looks at it, and the send queue may refuse. `GdSyncThread` is the loop field by
field, and carries the completion results over to the object.

**Station navigation.**
`Stations` holds the forward and the backward search over the table of skipped stations, with real termination
measures, and shows that each undoes the other.

Where a function specifies a method, the method's contract ties the whole new state to the function, and the results
about runs are lemmas about the functions.

## Where code and documentation differ

The model follows the code.

- `BlockBufferFull` never answers 1 (the header says it does when the queue is full), because it compares with all
  blocks and one is never used (`BlockBuffer.Queue.Full`).
- `SingleThreadCharBufferBackWrite` returns 0 also on success; its header promises the length (`CharBuffer.Ring.BackWrite`).
- The receive cache does not sort by counter: every package that reaches the insertion loop goes to the end
  (`NetCache.Cache.KeepLate`).
- The name table compiled with `WITH_DB` calls the outer microphone `Outer3D5`, the built-in priority table calls it
  `MIC_3D5`. With the built-in table the microphone would therefore have no priority and its commands would be ignored
  (`Announce.DefaultTableIgnoresMicrophone`).
- The return value -6, which the player calls unlikely, comes with a clear of either ring at the wrong moment, and what
  was read by then is lost with it (`Playback.UnlikelyIffTooLittleLeft`).
- When the alarm clip starts over, the part of the first chunk that the device leaves is cleared away
  (`Playback.RestartIsGaplessIff`).
- The voice players compute what the device left of a frame and do nothing with it (`VoicePlayback.FaithfulIff`).
- `d2p_button_state` stays 1 after hang-up has timed out, and the next press of the button connects nobody
  (`Intercom.FlagAgreesIffNoTimeOutSince`).
- The built-in priority table is never installed: `BcuAnnStateCreatePriorityList` and the table are reached from
  `BcuSimulateStateInit` alone, which has no caller. The list grows by `BcuAnnStateCreatePriorityNode`, which appends
  every row received and never clears, so a row sent again with a new priority has no effect
  (`Announce.RowTakesEffectIffNew`).
- A READY request can go out in phases 0 and 1, when the alarm fires again between the two tests at the end of a turn
  (`GdSync.RequestsAtEndOfTurn`).
- Three READY responses open the table phase, but they need not answer three requests
  (`GdSync.TablesNeedThreeReadyResponses`).
- Putting back the old offsets at the end of `CharBufferUpdateCurrentReadPointer2` undoes a clear that happened during
  the call (`CharBuffer.Ring.UpdateCurrentReadPointer2`).
- Phase 2 of the sync does not count unanswered requests, only late answers (`GdSync.TimeoutCountedIffLateResponse`).
- The byte ring is safe without a lock only if the wrap of an offset cannot be observed apart from its increment; in
  the C text these are two statements (`CharBufferRace.SafeIffBothWrapsAreAtomic` is the exact condition). The block
  queue needs no such assumption, because it refuses an offset that stands outside the memory.

## Assumptions

Memory is sequentially consistent and single accesses are indivisible. Buffer ids are valid references. `int` counters
that only grow (the package counter, sequence numbers of packages) are unbounded; the conversion to `unsigned int` is
modelled. While a player runs, other threads may clear the pending ring, clear the main ring and write to the main ring
between any two statements of the call that look at either ring, in this order and each at most once per point; they
never write to the pending ring. Single operations of a ring are taken as whole there; their interleaving is the subject
of `CharBufferRace`. The blank sound is any 3072 bytes, and the stack bytes behind it are any bytes.
`send_len` of a package is the length of
its data.

## Model

| member | source | states |
|---|---|---|
| CharBuffer.SpanPush | 1.0.x/ProdExplUnits/sourcecode/buffer_read_write_fun.cxx:306-356 | storing at the write offset and advancing it, with the wrap, appends one byte to the content, unless the two offsets would meet |
| CharBuffer.SpanAdvance | 1.0.x/ProdExplUnits/sourcecode/buffer_read_write_fun.cxx:357-402 | moving the read offset on by k, across the wrap, drops the k oldest bytes and nothing else |
| CharBuffer.SpanRetreat | 1.0.x/ProdExplUnits/sourcecode/buffer_read_write_fun.cxx:714-759 | moving the read offset back within the free space keeps the content and puts k cells in front of it |
| CharBuffer.PushBackUndoesRead | 1.0.x/ProdExplUnits/sourcecode/buffer_read_write_fun.cxx:714-759 | after a read of k bytes with no write between, giving back k bytes always fits and restores offset and content exactly |
| CharBuffer.StoreKeepsReplayable | 1.0.x/ProdExplUnits/sourcecode/buffer_read_write_fun.cxx:761-788 | what was written since a clear is always some earlier part, which used up the memory at least once if it is anything, followed by the cells before the writer |
| CharBuffer.PutPut | 1.0.x/ProdExplUnits/sourcecode/buffer_read_write_fun.cxx:306-356 | two writes behave like one write of the concatenation, also when the ring fills up in between |
| CharBuffer.PutIsConcatenationIffItFits | 1.0.x/ProdExplUnits/sourcecode/buffer_read_write_fun.cxx:306-356 | a write takes all bytes if and only if they fit |
| CharBuffer.Ring.constructor | 1.0.x/ProdExplUnits/sourcecode/buffer_read_write_fun.cxx:264-304 | a new ring is empty and holds one byte less than its size |
| CharBuffer.Ring.StoreByte | 1.0.x/ProdExplUnits/sourcecode/buffer_read_write_fun.cxx:306-356 | one turn of the write loop appends one byte to the content |
| CharBuffer.Ring.Write | 1.0.x/ProdExplUnits/sourcecode/buffer_read_write_fun.cxx:306-356 | appends the longest prefix that fits; -1 exactly when the ring is full, else the number of bytes taken |
| CharBuffer.Ring.TakeByte | 1.0.x/ProdExplUnits/sourcecode/buffer_read_write_fun.cxx:357-402 | one turn of the read loop removes the oldest byte |
| CharBuffer.Ring.Read | 1.0.x/ProdExplUnits/sourcecode/buffer_read_write_fun.cxx:357-402 | removes and returns the oldest bytes, as many as the destination holds; -2 exactly when the ring is empty |
| CharBuffer.Ring.IsFull | 1.0.x/ProdExplUnits/sourcecode/buffer_read_write_fun.cxx:404-445 | returns the free space, or -1 when there is none |
| CharBuffer.Ring.CurrentReadPointer | 1.0.x/ProdExplUnits/sourcecode/buffer_read_write_fun.cxx:527-570 | the length of the content, and a contiguous piece of memory that holds its beginning and is cut only at the end of the memory |
| CharBuffer.Ring.UpdateCurrentReadPointer | 1.0.x/ProdExplUnits/sourcecode/buffer_read_write_fun.cxx:572-632 | drops exactly min(origin - left, length) bytes, across the wrap; if more is left than there was, the read offset of a nonempty ring moves back by the difference without a check |
| CharBuffer.Ring.UpdateCurrentReadPointer2 | 1.0.x/ProdExplUnits/sourcecode/buffer_read_write_fun.cxx:634-703 | the same, unless the clear count has changed; then both offsets are put back, so a clear of a nonempty ring that falls between reading the offsets and the last look at the count is undone, and one in front of the test for an empty ring stands |
| CharBuffer.Ring.BackWrite | 1.0.x/ProdExplUnits/sourcecode/buffer_read_write_fun.cxx:714-759 | takes effect if and only if the length fits into the free space, and then re-exposes that many cells in front of the content; a negative length moves the read offset on unchecked; returns 0 in every case |
| CharBuffer.Ring.Clear | 1.0.x/ProdExplUnits/sourcecode/buffer_read_write_fun.cxx:761-775 | empties the ring and changes the clear count, which is a byte |
| CharBuffer.Ring.Brush | 1.0.x/ProdExplUnits/sourcecode/buffer_read_write_fun.cxx:777-788 | replays the last bytes accepted since the last clear, as many as lie before the writer, and all of them while the memory has not been used up |
| CharBufferRace.EveryInterleavingIsFifo | 1.0.x/ProdExplUnits/sourcecode/buffer_read_write_fun.cxx:306-402 | one writer and one reader, interleaved at every shared access with stale comparisons: bytes consumed are always a prefix of bytes produced, and the rest lies between the offsets |
| CharBufferRace.StepKeepsInv | 1.0.x/ProdExplUnits/sourcecode/buffer_read_write_fun.cxx:306-402 | every single step of either thread keeps the invariant behind that result |
| CharBufferRace.LateWriterWrapBreaks | 1.0.x/ProdExplUnits/sourcecode/buffer_read_write_fun.cxx:339-349 | if the writer's offset can be seen between increment and wrap, a run exists in which the reader consumes a stale byte |
| CharBufferRace.LateReaderWrapBreaks | 1.0.x/ProdExplUnits/sourcecode/buffer_read_write_fun.cxx:385-394 | if the reader's offset can be seen there, a run exists in which the writer overruns a full ring, however the writer wraps |
| CharBufferRace.SafeIffBothWrapsAreAtomic | 1.0.x/ProdExplUnits/sourcecode/buffer_read_write_fun.cxx:306-402 | all interleavings are safe if and only if neither wrap can be seen apart from its increment (or the ring has one cell) |
| CharBufferRace.EveryByteWasOffered | 1.0.x/ProdExplUnits/sourcecode/buffer_read_write_fun.cxx:306-356 | under every interleaving the bytes produced are bytes with which the writer came to its comparison, in order and each at most once |
| CharBufferRace.ThreadAloneSucceedsIffItCan | 1.0.x/ProdExplUnits/sourcecode/buffer_read_write_fun.cxx:306-402 | from every state that a run can reach, a writer left alone transfers exactly its byte iff the ring is not full, and a reader left alone exactly the oldest byte iff it is not empty |
| BlockBuffer.GapReachesWriter | 1.0.x/ProdExplUnits/sourcecode/buffer_read_write_fun.cxx:1222-1251 | the counting walk meets the writer after exactly the number of waiting blocks |
| BlockBuffer.BusyIffSeenAtTail | 1.0.x/ProdExplUnits/sourcecode/buffer_read_write_fun.cxx:841-904 | with at most 256 blocks the validation refuses exactly an offset standing at the tail, that is between increment and wrap |
| BlockBuffer.OffsetIsValid | 1.0.x/ProdExplUnits/sourcecode/buffer_read_write_fun.cxx:841-904 | the walk over block starts accepts exactly the offsets inside the memory, up to position 256 |
| BlockBuffer.Count | 1.0.x/ProdExplUnits/sourcecode/buffer_read_write_fun.cxx:1222-1251 | the loop returns the number of waiting blocks, or gives up beyond 255 |
| BlockBuffer.ScanFor | 1.0.x/ProdExplUnits/sourcecode/buffer_read_write_fun.cxx:1199-1251 | a snapshot of both offsets leads to busy, or to the exact number of waiting blocks |
| BlockBuffer.RecordsPush | 1.0.x/ProdExplUnits/sourcecode/buffer_read_write_fun.cxx:1148-1162 | filling the block at the write offset and advancing appends one record |
| BlockBuffer.RecordsPop | 1.0.x/ProdExplUnits/sourcecode/buffer_read_write_fun.cxx:1365-1372 | advancing the read offset removes the oldest record, which then lies in the block just entered |
| BlockBuffer.Queue.constructor | 1.0.x/ProdExplUnits/sourcecode/buffer_read_write_fun.cxx:1093-1147 | a new queue is empty; one block always stays unused, so a size of one becomes two |
| BlockBuffer.Queue.Write | 1.0.x/ProdExplUnits/sourcecode/buffer_read_write_fun.cxx:1163-1275 | appends the record, cut to the block size; full and busy are returned exactly when no block is left or the scan gives up, and then nothing changes |
| BlockBuffer.Queue.PopBlock | 1.0.x/ProdExplUnits/sourcecode/buffer_read_write_fun.cxx:1365-1372 | the reader moves on before it copies and stands on the oldest record |
| BlockBuffer.Queue.Read | 1.0.x/ProdExplUnits/sourcecode/buffer_read_write_fun.cxx:1276-1387 | removes the oldest record and returns it cut to the caller's room; empty and busy exactly as above |
| BlockBuffer.Queue.Cnt | 1.0.x/ProdExplUnits/sourcecode/buffer_read_write_fun.cxx:1471-1516 | the number of records, which equals items_waiting |
| BlockBuffer.Queue.Empty | 1.0.x/ProdExplUnits/sourcecode/buffer_read_write_fun.cxx:1517-1562 | true exactly when no record waits |
| BlockBuffer.Queue.Full | 1.0.x/ProdExplUnits/sourcecode/buffer_read_write_fun.cxx:1425-1470 | never true: it compares with all blocks although one is never used; the header promises 1 for a full queue |
| BlockBuffer.Queue.Clear | 1.0.x/ProdExplUnits/sourcecode/buffer_read_write_fun.cxx:1388-1406 | empties the queue |
| BlockBufferRace.EveryInterleavingDeliversInOrder | 1.0.x/ProdExplUnits/sourcecode/buffer_read_write_fun.cxx:1148-1383 | under every statement-level interleaving of one writer and one reader the records returned are the records accepted, in order, untorn, each cut only to its caller's room |
| BlockBufferRace.WriterNeverTouchesBlocksInUse | 1.0.x/ProdExplUnits/sourcecode/buffer_read_write_fun.cxx:1148-1383 | although the reader advances before it copies, no writer step changes the block being copied or a block still queued |
| BlockBufferRace.FilledBlockIsFree | 1.0.x/ProdExplUnits/sourcecode/buffer_read_write_fun.cxx:1148-1271 | the block being filled is never one that is being copied or waits |
| BlockBufferRace.WriterBacksOff | 1.0.x/ProdExplUnits/sourcecode/buffer_read_write_fun.cxx:1206-1220 | a writer that catches the read offset between increment and wrap gives up with no shared change |
| BlockBufferRace.ReaderBacksOff | 1.0.x/ProdExplUnits/sourcecode/buffer_read_write_fun.cxx:1319-1333 | the same for a reader that catches the write offset there |
| BlockBufferRace.BusyOnlyBetweenIncrementAndWrap | 1.0.x/ProdExplUnits/sourcecode/buffer_read_write_fun.cxx:841-904 | with at most 256 blocks busy is answered if and only if such an offset was caught |
| BlockBufferRace.StepKeepsInv | 1.0.x/ProdExplUnits/sourcecode/buffer_read_write_fun.cxx:1148-1383 | every step of either thread keeps offsets, memory, the block being filled and the returned records consistent |
| BlockBufferRace.EveryCallGetsItsOwn | 1.0.x/ProdExplUnits/sourcecode/buffer_read_write_fun.cxx:1148-1383 | under every interleaving the accepted records are the first bytes, at most item_size of each, of the sources of the calls that were granted, in call order and each call once, and each read returns the next record cut to the room of that very read |
| BlockBufferRace.WriteAloneSucceedsIffFree | 1.0.x/ProdExplUnits/sourcecode/buffer_read_write_fun.cxx:1163-1275 | from every such state a write left alone, with the reader not between increment and wrap, accepts exactly that iff a block is free, and else changes nothing |
| BlockBufferRace.ReadAloneSucceedsIffWaiting | 1.0.x/ProdExplUnits/sourcecode/buffer_read_write_fun.cxx:1276-1387 | and a read left alone returns exactly the oldest waiting record, cut to its room, iff one waits, and else changes nothing |
| AudioFlow.PassIsSound | 1.0.x/ProdExplUnits/sourcecode/buffer_read_write_fun.cxx:306-356 | whatever another thread does at one point, clear either ring or write, what was heard and is on its way stays left over, in order, from what the main ring was fed; without a clear nothing more is missing |
| AudioFlow.ClearedIsSound | 1.0.x/ProdExplUnits/sourcecode/buffer_read_write_fun.cxx:761-775 | a clear of either ring loses exactly what that ring held |
| AudioFlow.FillIsSound | 1.0.x/ProdExplUnits/sourcecode/audio_sample.cxx:209-249 | filling the chunk from the pending ring and then from the main ring moves bytes and changes no order, for any size of either ring |
| AudioFlow.DoneIsSound | 1.0.x/ProdExplUnits/sourcecode/audio_sample.cxx:284-312 | a call that keeps the end of the chunk and drops a middle piece loses exactly that piece |
| AudioFlow.ReadChunk | 1.0.x/ProdExplUnits/sourcecode/audio_sample.cxx:209-249 | the code of both reads, with other threads in front of each, never fails and fills the chunk as Fill says |
| AudioFlow.QuietFill | 1.0.x/ProdExplUnits/sourcecode/audio_sample.cxx:209-249 | with nobody in between the chunk is the oldest bytes of pending followed by waiting ones, and the rest stays in order |
| Playback.Play | 1.0.x/ProdExplUnits/sourcecode/audio_sample.cxx:170-321 | what a call keeps back never exceeds the chunk and so always fits the pending ring, under any interference |
| Playback.PlayIsSound | 1.0.x/ProdExplUnits/sourcecode/audio_sample.cxx:170-321 | with clears of either ring and writes between any two statements of a call, what is played and kept is left over, in order, from what the main ring was fed; a call that no clear disturbs neither loses, doubles nor reorders a byte |
| Playback.PlayedIffEnough | 1.0.x/ProdExplUnits/sourcecode/audio_sample.cxx:192-202 | a call that no clear disturbs plays iff it measured more than the border, else it returns -5 and plays nothing; what it plays and keeps back is as much as is there, up to one chunk |
| Playback.QuietCall | 1.0.x/ProdExplUnits/sourcecode/audio_sample.cxx:170-321 | with nobody in between: up to border bytes are left alone with -5; otherwise of the first 3072 bytes of pending followed by waiting ones the device hears all but the last ones that it says it left, exactly these are pending afterwards, and the rest waits; a left value above the chunk counts as nothing left |
| Playback.PlaysWhatTheDeviceTakes | 1.0.x/ProdExplUnits/sourcecode/audio_sample.cxx:170-321 | the same while other threads write during the call |
| Playback.ReturnCodes | 1.0.x/ProdExplUnits/sourcecode/audio_sample.cxx:170-321 | which of the five ways a call ends, for any clears and writes, and what each leaves pending |
| Playback.ClearsCutOnlyTheEnds | 1.0.x/ProdExplUnits/sourcecode/audio_sample.cxx:170-321 | if nothing is written during the call, clears of either ring at any of the eight points cut the stream at its ends only |
| Playback.UnlikelyIffTooLittleLeft | 1.0.x/ProdExplUnits/sourcecode/audio_sample.cxx:202-255 | with the borders in use, -6 is returned iff the call measured enough, no clear of the main ring came before the first look at the clear count, and what is left of both rings when they are read, after any clear of either and any writes, is below the border; all of it is lost then |
| Playback.UnlikelyNeedsAClear | 1.0.x/ProdExplUnits/sourcecode/audio_sample.cxx:202-255 | that takes a clear of the nonempty pending ring after it was measured, or of the main ring after that look |
| Playback.UnlikelyIffBorderExceedsChunk | 1.0.x/ProdExplUnits/sourcecode/audio_sample.cxx:232-255 | without a clear the return value -6 needs a border larger than the 3072-byte chunk |
| Playback.EveryRunPlaysAPrefix | 1.0.x/ProdExplUnits/sourcecode/audio_sample.cxx:170-321 | over any run without a clear or rewind, of writes and calls with other threads writing inside the calls, the device hears a prefix of what was written, and at most one chunk plus the main ring is outstanding |
| Playback.EveryRunPlaysASubsequence | 1.0.x/ProdExplUnits/sourcecode/bcu_main.cxx:1293-1303 | over any run, with clears of either ring between and inside calls, rewinds of the clip and whole turns of the caller, what is played is a subsequence of what the main ring was fed, replays included |
| Playback.CompleteIffRoom | 1.0.x/ProdExplUnits/sourcecode/buffer_read_write_fun.cxx:306-356 | the main ring has taken everything that was offered iff it had room at every write, between calls and inside them |
| Playback.RunIsSound | 1.0.x/ProdExplUnits/sourcecode/audio_sample.cxx:170-321 | over any run played, pending and waiting bytes are left over, in order, from what was fed, and exactly that if every event is undisturbed |
| Playback.StepIsSound | 1.0.x/ProdExplUnits/sourcecode/audio_sample.cxx:170-321 | each event keeps that |
| Playback.TurnIsSound | 1.0.x/ProdExplUnits/sourcecode/bcu_main.cxx:1293-1303 | the caller's turn keeps it too: a call, and after -5 a rewind, a skip of 48 bytes, a second call and a clear of the pending ring |
| Playback.RestartIsGaplessIff | 1.0.x/ProdExplUnits/sourcecode/bcu_main.cxx:1299-1302 | in such a restart the clip is heard without a gap iff the device leaves nothing of the second call's chunk, because the rest of the chunk is cleared away; if that call finds too little, iff nothing was pending |
| Playback.QuietTurn | 1.0.x/ProdExplUnits/sourcecode/bcu_main.cxx:1293-1303 | a whole turn of the caller over a clip that fits the ring: after -5 the clip comes again without its first 48 bytes, behind what was pending, the device hears what it takes of the first 3072 bytes, and nothing stays pending |
| Playback.PushBack | 1.0.x/ProdExplUnits/sourcecode/audio_sample.cxx:294-311 | stores the bytes the device left, completely |
| Playback.PlayAudioTwice | 1.0.x/ProdExplUnits/sourcecode/audio_sample.cxx:170-321 | the whole call, with other threads clearing either ring and writing at every point: too little to play leaves the pending bytes alone, a clear of the main ring seen before the read keeps them, one seen later drops the chunk; the same for both borders |
| Playback.OfferToDevice | 1.0.x/ProdExplUnits/sourcecode/audio_sample.cxx:257-312 | what the device accepted, what is kept as pending and the return code, for every value the device leaves and for clears and writes before and after the last look at the clear count |
| Playback.AlarmTurn | 1.0.x/ProdExplUnits/sourcecode/bcu_main.cxx:1293-1303 | the only caller's code is Turn, and its rewind reaches back to the last clear unless the clip used up the memory |
| VoicePlayback.FrameParts | 1.0.x/ProdExplUnits/sourcecode/audio_sample.cxx:602-613 | what is offered begins with the voice, cut to 3000 bytes in D2P, and goes on with blanks up to 3000 bytes in D2P and 3072 in D2D |
| VoicePlayback.SpokenIsHeard | 1.0.x/ProdExplUnits/sourcecode/audio_sample.cxx:602-621 | what the device hears begins with voice, and is voice only iff it accepts no more than there is |
| VoicePlayback.QuietCall | 1.0.x/ProdExplUnits/sourcecode/audio_sample.cxx:466-844 | with nobody in between: after ten frames a backlog above 3000 bytes is cut to the last 3000 of the main ring (unless it holds 6024 or more) and the pending bytes go if it holds 3000; then up to 64 bytes are left alone with -2; otherwise the oldest bytes are framed, the device hears the frame without what it says it left, and what had no room waits on |
| VoicePlayback.ReturnCodes | 1.0.x/ProdExplUnits/sourcecode/audio_sample.cxx:466-844 | which of the ways a call ends, for any clears and writes, how much the device hears, and what the call makes of the two speaker variables |
| VoicePlayback.LooksAtBacklogIffTenFrames | 1.0.x/ProdExplUnits/sourcecode/audio_sample.cxx:490-496 | over every run with no clear inside a call, the next call looks at the backlog iff ten frames were offered since the conversation began |
| VoicePlayback.OnePackageIsPadded | 1.0.x/ProdExplUnits/sourcecode/audio_sample.cxx:602-621 | a single 1024-byte package in D2P is heard with 1976 blank bytes behind it |
| VoicePlayback.OnePackageInD2D | 1.0.x/ProdExplUnits/sourcecode/audio_sample.cxx:790-808 | in D2D it is heard with 2048 blank bytes and 428 bytes of uninitialised memory behind it |
| VoicePlayback.TrimmedKeeps | 1.0.x/ProdExplUnits/sourcecode/audio_sample.cxx:496-511 | cutting a backlog loses exactly the pending bytes and the oldest waiting bytes above 3000, and keeps the order of the rest |
| VoicePlayback.PlayKeeps | 1.0.x/ProdExplUnits/sourcecode/audio_sample.cxx:466-844 | whatever other threads clear and write, and wherever, the voice heard and what is kept is left over, in order, from what the ring was fed, and what the device hears is that voice with something behind it |
| VoicePlayback.FaithfulIff | 1.0.x/ProdExplUnits/sourcecode/audio_sample.cxx:466-844 | a call that no clear disturbs loses no byte and adds none iff it does not cut the backlog, and either finds at most 64 bytes or the device accepts exactly as many bytes as there are, up to the size of tmp_buff |
| VoicePlayback.StepIsFaithfulIff | 1.0.x/ProdExplUnits/sourcecode/audio_sample.cxx:466-844 | the same for each event of a run; a clear is harmless iff its ring is empty |
| VoicePlayback.RunKeeps | 1.0.x/ProdExplUnits/sourcecode/audio_sample.cxx:466-844 | over any run nothing that is missing comes back and nothing that was added is taken back |
| VoicePlayback.EveryRunSpeaksASubsequence | 1.0.x/ProdExplUnits/sourcecode/audio_sample.cxx:466-844 | over any run, with clears anywhere, the voice heard is a subsequence of what the ring was fed and of what the device heard |
| VoicePlayback.EveryRunIsFaithfulIff | 1.0.x/ProdExplUnits/sourcecode/audio_sample.cxx:466-844 | over any run without a clear inside a call, the device heard nothing but voice, and heard, pending and waiting bytes are everything fed, iff every call was faithful and every clear met an empty ring |
| VoicePlayback.BuildFrame | 1.0.x/ProdExplUnits/sourcecode/audio_sample.cxx:602-613 | the two copies into tmp_buff build the frame, whatever lay there, also after a backlog was read into it |
| VoicePlayback.Player.PlayVoice | 1.0.x/ProdExplUnits/sourcecode/audio_sample.cxx:466-844 | the whole call of either player, for any interference: state of the speaker, both rings, return code and what the device hears |
| VoicePlayback.Player.Judge | 1.0.x/ProdExplUnits/sourcecode/audio_sample.cxx:490-526 | after ten calls the speaker counts as stable, a backlog above 3000 bytes is cut and both rings are measured again |
| VoicePlayback.Player.TestAndSpeak | 1.0.x/ProdExplUnits/sourcecode/audio_sample.cxx:529-635 | -1 if the main ring was cleared so far, -2 for at most 64 bytes, else the frame is offered; what the device leaves is not kept |
| Packets.FragmentsAreFaithful | 1.0.x/ProdExplUnits/sourcecode/network/udp_send_fun.cxx:60-125 | cutting a buffer loses and adds nothing, counters run on without a gap, only the last package is short and none is empty |
| Packets.FragmentsOfAllAreFaithful | 1.0.x/ProdExplUnits/sourcecode/network/udp_send_fun.cxx:60-125 | the same for any sequence of calls, with the counter running on from call to call |
| Packets.Sender.SendBuffer | 1.0.x/ProdExplUnits/sourcecode/network/udp_send_fun.cxx:60-125 | sends exactly these packages in order up to the first failing one, returns -1 exactly then, and leaves the counter behind the last package built |
| Packets.PutAllIsOnePut | 1.0.x/ProdExplUnits/sourcecode/network/udp_recv_fun.cxx:514-557 | writing packages one after the other into the ring is one write of their concatenation |
| Packets.DesiredIsOneAboveLargest | 1.0.x/ProdExplUnits/sourcecode/network/udp_recv_fun.cxx:514-537 | under any order and loss, as long as the counter 2^32 - 1 does not arrive, desired_value is one above the largest counter seen, as an unsigned int, or where it stood |
| Packets.DesiredGoesBackIffTop | 1.0.x/ProdExplUnits/sourcecode/network/udp_recv_fun.cxx:514-537 | a single package takes desired_value back iff its counter is 2^32 - 1, and then to 0 |
| Packets.DesiredRestarts | 1.0.x/ProdExplUnits/sourcecode/network/udp_recv_fun.cxx:514-537 | what arrived up to such a package is forgotten |
| Packets.DesiredFollowsStream | 1.0.x/ProdExplUnits/sourcecode/network/udp_recv_fun.cxx:514-537 | after a gapless stream of any length it is the counter the sender will use next, also across an overflow |
| Packets.DirectReceiver.SortAlgorithm2 | 1.0.x/ProdExplUnits/sourcecode/network/udp_recv_fun.cxx:266-303 | the package's bytes go straight to the ring and the cache count stays 0 |
| Packets.DirectReceiver.PushToDataBuffer2 | 1.0.x/ProdExplUnits/sourcecode/network/udp_recv_fun.cxx:514-557 | appends what fits, maintains desired_value, and returns -1 exactly when the ring is full |
| Packets.DirectReceiver.ReceiveAll | 1.0.x/ProdExplUnits/sourcecode/network/udp_recv_fun.cxx:212-261 | a whole stream through this path, package by package, equals PutAll |
| Packets.SendThenReceiveDirect | 1.0.x/ProdExplUnits/sourcecode/network/udp_send_fun.cxx:60-125 | sending any buffers and receiving the packages in order leaves exactly the concatenated bytes, if and only if they fit |
| EndToEnd.NetworkRingDeliversWhatWasSent | 1.0.x/ProdExplUnits/sourcecode/network/udp_recv_fun.cxx:514-557 | for any buffers sent and the first packages arriving anywhere in a run of arrivals and reads of any size: while the ring has room, what the readers removed followed by what waits is exactly the bytes of these packages, a prefix of what was sent and in the end all of it |
| EndToEnd.NetworkRingDeliversNothingElse | 1.0.x/ProdExplUnits/sourcecode/network/udp_recv_fun.cxx:514-557 | with packages lost, the ring too full and clears at any point, it is a subsequence of what was sent |
| EndToEnd.StepKeepsInv | 1.0.x/ProdExplUnits/sourcecode/buffer_read_write_fun.cxx:306-402 | one arrival, read or clear keeps removed and waiting bytes in order, and without a clear complete |
| EndToEnd.VoiceIsWhatWasSent | 1.0.x/ProdExplUnits/sourcecode/bcu_main.cxx:1143-1257 | through the two players that read this ring, whatever they drop and put in and whatever is lost or cleared, the voice the device hears is a subsequence of what was sent, behind what the box itself put in front |
| EndToEnd.CardHearsWhatWasSentIff | 1.0.x/ProdExplUnits/sourcecode/bcu_main.cxx:1143-1257 | with packages in order, room in the ring and no clear inside a call, the device has heard exactly what was sent, up to what the rings still hold, iff every call was faithful and every clear met an empty ring |
| EndToEnd.LostPackages | 1.0.x/ProdExplUnits/sourcecode/network/udp_recv_fun.cxx:514-557 | losing packages loses bytes and nothing else |
| EndToEnd.ArrivedIsPrefix | 1.0.x/ProdExplUnits/sourcecode/network/udp_send_fun.cxx:60-125 | the packages that have arrived in order carry a prefix of what was sent |
| NetCache.ReceiveConserves | 1.0.x/ProdExplUnits/sourcecode/network/udp_recv_fun.cxx:650-716 | one package: what is pushed followed by what waits is what waited followed by the package if it was accepted; at most three wait |
| NetCache.EveryRunConserves | 1.0.x/ProdExplUnits/sourcecode/network/udp_recv_fun.cxx:130-165 | over every run of arrivals and forced flushes delivered ++ waiting equals the accepted packages, each once, in order |
| NetCache.ArrivalDoes | 1.0.x/ProdExplUnits/sourcecode/network/udp_recv_fun.cxx:650-716 | exactly which packages are taken, and exactly what one arrival passes on, from every reachable state |
| NetCache.RunFlagTells | 1.0.x/ProdExplUnits/sourcecode/network/udp_recv_fun.cxx:650-716 | over every run the push flag is up between calls only while three packages wait |
| NetCache.ContinuationIsAccepted | 1.0.x/ProdExplUnits/sourcecode/network/udp_recv_fun.cxx:889-941 | the package that continues the queue is never abandoned |
| NetCache.StreamIsAccepted | 1.0.x/ProdExplUnits/sourcecode/network/udp_recv_fun.cxx:650-716 | a gapless stream is accepted completely |
| NetCache.SendThenReceiveCached | 1.0.x/ProdExplUnits/sourcecode/network/udp_recv_fun.cxx:130-165 | the older path, flushed at the end, delivers the same bytes as the path in use |
| NetCache.Cache.constructor | 1.0.x/ProdExplUnits/sourcecode/network/udp_recv_fun.cxx:84-102 | six slots, pointed to in order, nothing waiting |
| NetCache.Cache.AddPakageToCache | 1.0.x/ProdExplUnits/sourcecode/network/udp_recv_fun.cxx:965-980 | takes the package at the receive pointer exactly when it is newer than the oldest one waiting (or nothing waits), and moves the pointer to the next free slot |
| NetCache.Cache.ArrayMoveSort | 1.0.x/ProdExplUnits/sourcecode/network/udp_recv_fun.cxx:944-962 | the insertion loop as written, when some waiting package is not older than the new one: entries older than it move up and it stops at the newest that is not |
| NetCache.Cache.KeepLate | 1.0.x/ProdExplUnits/sourcecode/network/udp_recv_fun.cxx:944-962 | for the packages that reach it the loop stops at once, so a late package goes to the end: the cache does not sort |
| NetCache.Cache.AddOrAbandonFun | 1.0.x/ProdExplUnits/sourcecode/network/udp_recv_fun.cxx:889-941 | which packages are taken, and when the push flag is raised |
| NetCache.Cache.SortAlgorithm | 1.0.x/ProdExplUnits/sourcecode/network/udp_recv_fun.cxx:868-887 | the decision by fill level, with the push flag as SortedFlag says |
| NetCache.Cache.ArraySort | 1.0.x/ProdExplUnits/sourcecode/network/udp_recv_fun.cxx:824-836 | rotates the first six pointers by one and loses none |
| NetCache.Cache.WriteTobuffer | 1.0.x/ProdExplUnits/sourcecode/network/udp_recv_fun.cxx:752-782 | passes on the oldest package, rotates, and clears the push flag when the cache runs empty |
| NetCache.Cache.DataRecvAndHandle | 1.0.x/ProdExplUnits/sourcecode/network/udp_recv_fun.cxx:650-716 | one arrival, from any reachable slot arrangement: no waiting package is overwritten, what is pushed and what waits is as on the queue view, the pointers stay a permutation of the six slots, the receive pointer is entry `counter`, at most three packages wait |
| NetCache.Cache.Drain | 1.0.x/ProdExplUnits/sourcecode/network/udp_recv_fun.cxx:693-701 | an end flag passes on everything |
| NetCache.Cache.ForcePush | 1.0.x/ProdExplUnits/sourcecode/network/udp_recv_fun.cxx:130-165 | delivers everything waiting; together with the reset at the next arrival the cache is empty afterwards |
| Announce.ChangeIsTakeoverOrOwnOver | 1.0.x/ProdExplUnits/sourcecode/bcu_function.cxx:1461-1492 | where different events are found with different priorities, a command changes the running announcement only by a strictly more important one taking over, or by its own over-package leading to idle |
| Announce.CommandDoes | 1.0.x/ProdExplUnits/sourcecode/bcu_function.cxx:1461-1492 | exactly what a command about an announcement does: with the intercom idle a request for another one starts it iff it is listed and strictly more important (and, for a live one, the microphone is free), the over-package of the running one leads to idle, everything else changes nothing |
| Announce.NameResolvesByPrefix | 1.0.x/ProdExplUnits/sourcecode/bcu_state_machine.cxx:204-224 | a name resolves to the first option that is a beginning of it or of which it is one, and to 0xFFFFFFFF if there is none |
| Announce.LinkedAt | 1.0.x/ProdExplUnits/sourcecode/bcu_state_machine.cxx:284-379 | a list built from a table holds the idle node and then the rows from the last to the first |
| Announce.TakeoversAreBoundedByEvents | 1.0.x/ProdExplUnits/sourcecode/bcu_state_machine.cxx:554-630 | in any run in which commands and further rows arrive, between two idle periods there are never more takeovers than different events in all the rows; rows may repeat |
| Announce.AskKeepsInv | 1.0.x/ProdExplUnits/sourcecode/bcu_state_machine.cxx:554-630 | each command keeps takeovers plus the number of more important events below the number of events |
| Announce.ArrivalKeepsInv | 1.0.x/ProdExplUnits/sourcecode/bcu_state_machine.cxx:250-283 | and so does each row that arrives meanwhile |
| Announce.RowTakesEffectIffNew | 1.0.x/ProdExplUnits/sourcecode/bcu_update_table_from_ccu.cxx:236-253 | a row received changes some search iff its event was not listed yet; a row sent again, with whatever priority, changes none |
| Announce.FindInLonger | 1.0.x/ProdExplUnits/sourcecode/bcu_state_machine.cxx:250-283 | what was listed first decides every search, however much is appended |
| Announce.PriorityListIsListOf | 1.0.x/ProdExplUnits/sourcecode/bcu_state_machine.cxx:284-379 | the list built from a table holds the idle node first and exactly the nodes of the rows besides |
| Announce.UsableTableIsWellBuilt | 1.0.x/ProdExplUnits/sourcecode/bcu_state_machine.cxx:284-352 | rows about different events with different priorities, none as low as idle, received in any order and any number of times, give a list in which different events are found with different priorities, with sound state pointers and the idle node in front |
| Announce.FoundIffNamed | 1.0.x/ProdExplUnits/sourcecode/bcu_state_machine.cxx:491-507 | a search finds an event iff it is idle or some row's name resolves to it |
| Announce.StartableIffNamed | 1.0.x/ProdExplUnits/sourcecode/bcu_state_machine.cxx:554-630 | an announcement can be started from idle, by some command, iff some row names it |
| Announce.UnnamedEventIsIgnored | 1.0.x/ProdExplUnits/sourcecode/bcu_state_machine.cxx:554-630 | a command about an event no row names changes nothing, whatever is running |
| Announce.SearchIgnoresTableOrder | 1.0.x/ProdExplUnits/sourcecode/bcu_state_machine.cxx:284-352 | with distinct ids the list built from any permutation of the table answers every search with the same priority and state |
| Announce.DefaultTableIsSound | 1.0.x/ProdExplUnits/sourcecode/bcu_state_machine.cxx:53-109 | the built-in table, which no code of this commit installs, meets the conditions of these results although names are matched by prefix and one name is unknown |
| Announce.DefaultIds | 1.0.x/ProdExplUnits/sourcecode/bcu_state_machine.cxx:53-109 | each name of the built-in table resolves to the event it names, except MIC_3D5, which the compiled option table does not know |
| Announce.DefaultTableIgnoresMicrophone | 1.0.x/ProdExplUnits/sourcecode/bcu_state_machine.cxx:53-109 | so with the built-in table no command about the outer microphone ever changes the running announcement |
| Announce.DynamicStateSort | 1.0.x/ProdExplUnits/sourcecode/bcu_state_machine.cxx:141-185 | on a nonempty table: sorted by priority, a permutation, and with distinct ids every search of the list built from it answers as before |
| Announce.BubblePass | 1.0.x/ProdExplUnits/sourcecode/bcu_state_machine.cxx:162-173 | one pass of the inner loop settles one more row |
| Announce.Machine.CreatePriorityList | 1.0.x/ProdExplUnits/sourcecode/bcu_state_machine.cxx:284-379 | the rows follow the idle node in reverse table order, each with its id, priority and state, and cut off an older list; an empty table leaves the older list in place |
| Announce.Machine.CreatePriorityNode | 1.0.x/ProdExplUnits/sourcecode/bcu_state_machine.cxx:250-283 | the row received becomes the last node, whatever is listed already |
| Announce.Machine.MakeNode | 1.0.x/ProdExplUnits/sourcecode/bcu_state_machine.cxx:300-346 | a row becomes a node with the id its name resolves to and the state object of that id, or none |
| Announce.Machine.FindId | 1.0.x/ProdExplUnits/sourcecode/bcu_state_machine.cxx:308-327 | the first compiled option whose name is a prefix of, or has as a prefix, the given name, or 0xFFFFFFFF |
| Announce.Machine.FindState | 1.0.x/ProdExplUnits/sourcecode/bcu_state_machine.cxx:333-346 | the first state object with the id |
| Announce.Machine.Search | 1.0.x/ProdExplUnits/sourcecode/bcu_state_machine.cxx:491-507 | the first node with the id |
| Announce.Machine.DynamicStateExchange | 1.0.x/ProdExplUnits/sourcecode/bcu_state_machine.cxx:554-630 | the active announcement is replaced only if the wanted event is listed and at least as important; an over-package acts only on its own announcement |
| Announce.Machine.ANNStateHangle | 1.0.x/ProdExplUnits/sourcecode/bcu_function.cxx:1461-1492 | additionally a live request is ignored while the microphone is taken |
| Intercom.RulesAreDeterministicAndClosed | 1.0.x/ProdExplUnits/sourcecode/bcu_function.cxx:749-762 | at most one of the seven rules fires, and it leads to another intercom object |
| Intercom.SearchFindsEdge | 1.0.x/ProdExplUnits/sourcecode/bcu_function.cxx:883-908 | the search through the 50 records, by state id and trigger, finds exactly the edges of the rule graph |
| Intercom.StepKeepsInv | 1.0.x/ProdExplUnits/sourcecode/bcu_function.cxx:1731-1833 | every handler keeps ownership, flags, identities and recording brackets |
| Intercom.PaButtonDoes | 1.0.x/ProdExplUnits/sourcecode/bcu_function.cxx:2755-2784 | with the intercom idle a press leads to a live announcement and a release to none; every other edge, and every edge outside idle, changes nothing |
| Intercom.RequestButtonDoes | 1.0.x/ProdExplUnits/sourcecode/bcu_function.cxx:1273-1297 | a press marks this box as the one that asks iff neither an announcement nor an intercom is active, and changes nothing else |
| Intercom.NetworkRequestDoes | 1.0.x/ProdExplUnits/sourcecode/bcu_function.cxx:1731-1833 | a request without an announcement leads from idle, live or not, to D2D with no live announcement, from D2P to hang-up with the same PCU, and leaves D2D and hang-up alone; the recording commands of both states are handed out |
| Intercom.NetworkOverDoes | 1.0.x/ProdExplUnits/sourcecode/bcu_function.cxx:1731-1833 | an over leads from D2D to idle and from hang-up to D2P with the same PCU; it changes nothing elsewhere, and a command that is neither changes nothing at all |
| Intercom.LocalEventsDo | 1.0.x/ProdExplUnits/sourcecode/bcu_function.cxx:862-1010 | the local button and the break do the same as an over; a time-out leads from hang-up to D2D and is consumed everywhere |
| Intercom.PcuButtonDoes | 1.0.x/ProdExplUnits/sourcecode/bcu_function.cxx:2645-2725 | with its flag off an effective press connects the first waiting PCU from idle, ending a live announcement; with the flag on it leads to idle |
| Intercom.FirstWaitingIs | 1.0.x/ProdExplUnits/sourcecode/bcu_function.cxx:2654-2666 | the first waiting PCU is the first entry that is 1, and 0 means there is none |
| Intercom.CallIsRecordedIffRequested | 1.0.x/ProdExplUnits/sourcecode/bcu_intercom.cxx:204-327 | a D2D call is recorded from its begin to its end iff this box asked for it |
| Intercom.EveryRunKeepsOwnership | 1.0.x/ProdExplUnits/sourcecode/bcu_intercom.cxx:204-581 | over every run the two active states determine microphone owner and audio destination, live and intercom never coexist, and the live and D2D button flags tell the state |
| Intercom.EveryRunKeepsIdentities | 1.0.x/ProdExplUnits/sourcecode/bcu_ann.cxx:88-97 | no run changes any state object's id, although two enter actions write ids through the active pointer |
| Intercom.EnteringIdleThroughAnotherObjectWouldRenameIt | 1.0.x/ProdExplUnits/sourcecode/bcu_intercom.cxx:115-150 | that write keeps all ids if and only if the active pointer already is the idle object |
| Intercom.EveryRunBracketsRecordings | 1.0.x/ProdExplUnits/sourcecode/bcu_intercom.cxx:204-581 | begin and over of each recording kind alternate; D2P's is open iff the state is D2P, D2D's iff the state is D2D or hang-up and this box requested it |
| Intercom.BracketedAlternates | 1.0.x/ProdExplUnits/sourcecode/bcu_intercom.cxx:233-236 | what bracketing means for single commands: neighbours of one kind differ, and the first is a begin |
| Intercom.FlagAgreesIffNoTimeOutSince | 1.0.x/ProdExplUnits/sourcecode/bcu_function.cxx:2645-2725 | over every run d2p_button_state tells whether a PCU is connected iff hang-up has not timed out since the last effective press; after a time-out it stays 1 with nobody connected, and the next effective press connects nobody from idle and ends a D2D call |
| Intercom.StepKeepsFlag | 1.0.x/ProdExplUnits/sourcecode/bcu_function.cxx:2667-2723 | each event keeps that: an effective press and a time-out of hang-up alone change the flag or the connection it tells about |
| Intercom.RequestFlagIsFrozen | 1.0.x/ProdExplUnits/sourcecode/bcu_function.cxx:1273-1297 | this_bcu_request does not change while the box stays in D2D or hang-up |
| Intercom.HangUpRoundTrip | 1.0.x/ProdExplUnits/sourcecode/bcu_intercom.cxx:372-581 | D2P, hang-up and back, by whatever events, resumes with the same PCU, and while hung up hang_up_pcu_no is that PCU |
| Intercom.HangUpStepKeepsPcu | 1.0.x/ProdExplUnits/sourcecode/bcu_function.cxx:949-1010 | no event that stays in D2P or hang-up changes recept_pcu_no |
| Intercom.OverNamesConnectedPcuIffStillFirst | 1.0.x/ProdExplUnits/sourcecode/bcu_function.cxx:2645-2725 | ending D2P by its button names the connected PCU in the over command if and only if that PCU still is the first one waiting |
| ControlUnit.AddedAt | 1.0.x/ProdExplUnits/sourcecode/bcu_function.cxx:635-649 | a rule goes into the first empty record |
| ControlUnit.FullTableIgnores | 1.0.x/ProdExplUnits/sourcecode/bcu_function.cxx:635-649 | a full table ignores it |
| ControlUnit.ControlUnit.constructor | 1.0.x/ProdExplUnits/sourcecode/bcu_function.cxx:834-847 | the initial box: idle, rules installed |
| ControlUnit.ControlUnit.RuleInit | 1.0.x/ProdExplUnits/sourcecode/bcu_function.cxx:624-633 | all 50 records become empty |
| ControlUnit.ControlUnit.AddRule | 1.0.x/ProdExplUnits/sourcecode/bcu_function.cxx:635-649 | the first empty record takes the rule and the others stay |
| ControlUnit.ControlUnit.RuleTableInit | 1.0.x/ProdExplUnits/sourcecode/bcu_function.cxx:733-763 | the table afterwards holds the seven rules in order |
| ControlUnit.ControlUnit.EnterAnn | 1.0.x/ProdExplUnits/sourcecode/bcu_ann.cxx:88-171 | the enter actions of idle and live announcement |
| ControlUnit.ControlUnit.ExitAnn | 1.0.x/ProdExplUnits/sourcecode/bcu_ann.cxx:173-204 | the exit action of live announcement |
| ControlUnit.ControlUnit.IdleIntercomEnter | 1.0.x/ProdExplUnits/sourcecode/bcu_intercom.cxx:115-150 | writes the id through the active pointer |
| ControlUnit.ControlUnit.D2DEnter | 1.0.x/ProdExplUnits/sourcecode/bcu_intercom.cxx:204-262 | microphone to the intercom, destination CC 230, D2D button on; a begin command exactly if this box requested |
| ControlUnit.ControlUnit.D2DExit | 1.0.x/ProdExplUnits/sourcecode/bcu_intercom.cxx:265-327 | an over command exactly if this box requested, the microphone back to an announcement that is still active, button and request flag off |
| ControlUnit.ControlUnit.D2PEnter | 1.0.x/ProdExplUnits/sourcecode/bcu_intercom.cxx:372-435 | a begin command for the connected PCU, microphone to the intercom, destination that PCU |
| ControlUnit.ControlUnit.D2PExit | 1.0.x/ProdExplUnits/sourcecode/bcu_intercom.cxx:438-476 | an over command for recept_pcu_no as it stands then; the microphone is handed back |
| ControlUnit.ControlUnit.HangUpEnter | 1.0.x/ProdExplUnits/sourcecode/bcu_intercom.cxx:486-544 | stores the PCU number unless it is 0; otherwise as entering D2D |
| ControlUnit.ControlUnit.HangUpExit | 1.0.x/ProdExplUnits/sourcecode/bcu_intercom.cxx:547-581 | an over command exactly if this box requested; microphone free, destination empty, D2D button off, request flag kept |
| ControlUnit.ControlUnit.StateMachineExchange | 1.0.x/ProdExplUnits/sourcecode/bcu_function.cxx:883-908 | exit, repoint, enter along the first rule that fires; nothing when none does |
| ControlUnit.ControlUnit.ExitFromLiveWithoutTS | 1.0.x/ProdExplUnits/sourcecode/bcu_function.cxx:2741-2754 | exit first, then repoint, then enter idle: live ends and the idle object keeps its id |
| ControlUnit.ControlUnit.ExchangeToLiveWithoutTS | 1.0.x/ProdExplUnits/sourcecode/bcu_function.cxx:2726-2740 | live begins after the running announcement's exit action |
| ControlUnit.ControlUnit.HandlePA | 1.0.x/ProdExplUnits/sourcecode/bcu_function.cxx:2755-2784 | only while the intercom is idle: a press starts live unless it runs, a release ends it if it runs |
| ControlUnit.ControlUnit.HandlePC | 1.0.x/ProdExplUnits/sourcecode/bcu_function.cxx:2645-2725 | connects the first waiting PCU from idle, ending a live announcement first, or ends the connection after storing the number of the PCU that now waits first |
| ControlUnit.ControlUnit.FirstWaitingPcu | 1.0.x/ProdExplUnits/sourcecode/bcu_function.cxx:2654-2666 | the first of the twelve entries that is 1 |
| ControlUnit.ControlUnit.JudgeWhetherRequestD2D | 1.0.x/ProdExplUnits/sourcecode/bcu_function.cxx:1273-1297 | marks this box as initiator only when idle, with the microphone free and the button off |
| ControlUnit.ControlUnit.ForceBreakD2DToD2P | 1.0.x/ProdExplUnits/sourcecode/bcu_function.cxx:2948-3009 | hang-up goes back to D2P, D2D goes to idle, every other state stays |
| ControlUnit.ControlUnit.FinishD2DFromNetwork | 1.0.x/ProdExplUnits/sourcecode/bcu_function.cxx:1125-1186 | the same, if the D2D button flag is on |
| ControlUnit.ControlUnit.JudgeWhetherHaveD2DRequest | 1.0.x/ProdExplUnits/sourcecode/bcu_function.cxx:1731-1833 | a request ends live outside D2P, then starts D2D from idle and hang-up from D2P; an over ends D2D and resumes D2P from hang-up |
| ControlUnit.ControlUnit.JudgeWhetherD2DHaveFinished | 1.0.x/ProdExplUnits/sourcecode/bcu_function.cxx:949-1010 | the local button ends D2D and hang-up in the same way |
| ControlUnit.ControlUnit.D2DHangUpD2PTimeOutHandle | 1.0.x/ProdExplUnits/sourcecode/bcu_function.cxx:862-880 | an expired timer is consumed and drives hang-up to D2D |
| ControlUnit.ControlUnit.Dispatch | 1.0.x/ProdExplUnits/sourcecode/bcu_function.cxx:883-908 | any event, from a state that meets the invariant, leads to the state Step gives and keeps the invariant |
| ControlUnit.ControlUnit.Loop | 1.0.x/ProdExplUnits/sourcecode/bcu_function.cxx:883-908 | any number of events on the object end where the run of these events ends |
| ControlUnit.PowerUpAndRun | 1.0.x/ProdExplUnits/sourcecode/bcu_function.cxx:834-847 | a unit after power-up and any events: owner and destination follow from the two active states, recordings are bracketed, no object is renamed, and the D2P flag is as stated above |
| GdSync.CompletionIsAbsorbing | 1.0.x/ProdExplUnits/sourcecode/bcu_gd_sync.cxx:756-767 | after an END packet no packet and no alarm leads back, the tables never change, the alarm is off from the next iteration on and no request is sent |
| GdSync.EveryRunStoresRowsUntilEnd | 1.0.x/ProdExplUnits/sourcecode/bcu_gd_sync.cxx:884-947 | update_finish holds iff an END packet arrived, iff the phase is 4 or 5; the tables are exactly the rows that arrived before it, in order |
| GdSync.PhaseGraph | 1.0.x/ProdExplUnits/sourcecode/bcu_gd_sync.cxx:571-767 | the possible moves between phases |
| GdSync.PhaseFourIffEnd | 1.0.x/ProdExplUnits/sourcecode/bcu_gd_sync.cxx:938-947 | phase 4 is reached by an END packet and by nothing else |
| GdSync.RequestsAreNumbered | 1.0.x/ProdExplUnits/sourcecode/bcu_gd_sync.cxx:100-130 | over every run the k-th request carries the number k modulo 2^32 |
| GdSync.SameNumberIffFarApart | 1.0.x/ProdExplUnits/sourcecode/bcu_gd_sync.cxx:100-130 | so two requests carry the same number iff they are a multiple of 2^32 apart |
| GdSync.EveryRequestIsProbeOrReady | 1.0.x/ProdExplUnits/sourcecode/bcu_gd_sync.cxx:100-130 | over every run each request is a probe to 251 or READY to the server that is the chosen one then |
| GdSync.RequestsAtEndOfTurn | 1.0.x/ProdExplUnits/sourcecode/bcu_gd_sync.cxx:962-982 | exactly which requests the end of a turn builds, with their destinations and numbers: an expiry asks all servers while no probe was answered, and the chosen server while READY is not silenced, the second also if the alarm fires again at once |
| GdSync.RequestsOfSwitch | 1.0.x/ProdExplUnits/sourcecode/bcu_gd_sync.cxx:590-671 | in front of the packet only phase 1 builds one, READY to the server just chosen |
| GdSync.ExpiryProbesAllServers | 1.0.x/ProdExplUnits/sourcecode/bcu_gd_sync.cxx:962-971 | while phases 0 and 1 wait for answers an expiry builds exactly a probe to 251 |
| GdSync.ExpiryRepeatsReady | 1.0.x/ProdExplUnits/sourcecode/bcu_gd_sync.cxx:973-982 | in phase 2 it builds exactly READY to the chosen server |
| GdSync.PhasesMoveExactlyWhen | 1.0.x/ProdExplUnits/sourcecode/bcu_gd_sync.cxx:571-960 | over every run from power-up the next phase is determined by what was received and when the alarm fired: one answered probe, six answers, ten late or three in-time READY responses, ten expiries without a row |
| GdSync.UpdateStartTells | 1.0.x/ProdExplUnits/sourcecode/bcu_gd_sync.cxx:697-767 | update_start is 1 from the moment tables are first awaited until the sync comes to rest |
| GdSync.ChosenByAnswers | 1.0.x/ProdExplUnits/sourcecode/bcu_gd_sync.cxx:596-622 | a box that is neither 1 nor 2 asks the server with more answers since phase 1 began, unless that one is the primary and the other its backup; then, and with a tie, it stays with the server it had |
| GdSync.CountersStaySmall | 1.0.x/ProdExplUnits/sourcecode/bcu_gd_sync.cxx:520-531 | the eight-bit counters never wrap, whatever the network and the alarm do |
| GdSync.IterateKeepsInv | 1.0.x/ProdExplUnits/sourcecode/bcu_gd_sync.cxx:571-982 | one iteration keeps the invariant and moves phase, completion and alarm as stated |
| GdSync.TablesNeedThreeReadyResponses | 1.0.x/ProdExplUnits/sourcecode/bcu_gd_sync.cxx:676-706 | phase 3 is entered only from phase 2 and after exactly three in-time READY responses since phase 2 began, each to a READY request to the chosen server built since then; they answer as many different requests as expiries of the alarm separate them, and three iff the alarm expired between each two of them |
| GdSync.OneRequestIsEnough | 1.0.x/ProdExplUnits/sourcecode/bcu_gd_sync.cxx:903-919 | if the alarm never expires in phase 2 the three responses answer one request |
| GdSync.ThreeCopiesSuffice | 1.0.x/ProdExplUnits/sourcecode/bcu_gd_sync.cxx:903-919 | three copies of one in-time response open phase 3 with no request built in between |
| GdSync.RunTracked | 1.0.x/ProdExplUnits/sourcecode/bcu_gd_sync.cxx:962-982 | over every run, in phase 2 each expiry of the alarm builds one READY request and nothing else builds any |
| GdSync.ServerChoice | 1.0.x/ProdExplUnits/sourcecode/bcu_gd_sync.cxx:590-671 | the chosen server has answered since phase 1 began iff any tagged answer of server 1 or 2 was accepted; it is the same-numbered one whenever that one answered; honest probes always suffice; the READY request goes to it |
| GdSync.ChosenAnswered | 1.0.x/ProdExplUnits/sourcecode/bcu_gd_sync.cxx:596-650 | the same about the choice alone, for every pair of counts and flags |
| GdSync.LeavableIffNotStalled | 1.0.x/ProdExplUnits/sourcecode/bcu_gd_sync.cxx:571-982 | short of an END packet phases 0 to 3 can be left iff the alarm is on or the condition to move already holds |
| GdSync.StalledRun | 1.0.x/ProdExplUnits/sourcecode/bcu_gd_sync.cxx:710-756 | with the alarm off and that condition false no run without END leaves the phase |
| GdSync.StallsIff | 1.0.x/ProdExplUnits/sourcecode/bcu_gd_sync.cxx:829-937 | one iteration stalls a moving handshake iff it meets a READY response outside phase 2, in time or late before any was counted, or an in-time probe response in phase 2 or 3 |
| GdSync.RunStallsIffSilenced | 1.0.x/ProdExplUnits/sourcecode/bcu_gd_sync.cxx:571-982 | a run from power-up without END ends in a stall iff some iteration met such a response |
| GdSync.PowerUpStallsIff | 1.0.x/ProdExplUnits/sourcecode/bcu_gd_sync.cxx:903-937 | the first iteration stalls iff it meets a READY response that has sequence number 0 and is in time, or that comes when the alarm has expired |
| GdSync.DuplicateReadyResponseStalls | 1.0.x/ProdExplUnits/sourcecode/bcu_gd_sync.cxx:903-919 | a repeated in-time response to the latest READY request in phase 3 turns the alarm off, and with it the fallback, unless the timeouts are complete already |
| GdSync.TimeoutCountedIffLateResponse | 1.0.x/ProdExplUnits/sourcecode/bcu_gd_sync.cxx:926-935 | phase 2 counts a timeout exactly when a late response arrives; the comment at line 678 speaks of requests without any response |
| GdSync.SilenceNeverEndsPhaseTwo | 1.0.x/ProdExplUnits/sourcecode/bcu_gd_sync.cxx:676-696 | while nothing arrives phase 2 never falls back |
| GdSyncThread.SyncThread.constructor | 1.0.x/ProdExplUnits/sourcecode/bcu_gd_sync.cxx:505-548 | power-up: phase 0, server 1, alarm on, and the invariant holds |
| GdSyncThread.SyncThread.Choose | 1.0.x/ProdExplUnits/sourcecode/bcu_gd_sync.cxx:596-650 | first by counts and flags, then the same-numbered server if it answered, else the other one if that answered |
| GdSyncThread.SyncThread.PhaseOne | 1.0.x/ProdExplUnits/sourcecode/bcu_gd_sync.cxx:590-671 | chooses a server and asks it; phase 2 begins only if the send queue took the request |
| GdSyncThread.SyncThread.PhaseTwo | 1.0.x/ProdExplUnits/sourcecode/bcu_gd_sync.cxx:676-706 | ten counted timeouts lead back to power-up, three responses to phase 3 with update_start set |
| GdSyncThread.SyncThread.PhaseThree | 1.0.x/ProdExplUnits/sourcecode/bcu_gd_sync.cxx:710-754 | ten timeouts lead back to power-up; each look at the alarm may see a new value |
| GdSyncThread.SyncThread.FallBack | 1.0.x/ProdExplUnits/sourcecode/bcu_gd_sync.cxx:679-696 | everything but the server number and update_start goes back to power-up |
| GdSyncThread.SyncThread.SwitchPhase | 1.0.x/ProdExplUnits/sourcecode/bcu_gd_sync.cxx:571-767 | one phase's actions, as the lemmas about phases read them |
| GdSyncThread.SyncThread.HandleProbeResponse | 1.0.x/ProdExplUnits/sourcecode/bcu_gd_sync.cxx:829-882 | only an in-time response to the latest request counts; the sixth one in phase 1 reports the network good and leaves the alarm off |
| GdSyncThread.SyncThread.HandleReadyResponse | 1.0.x/ProdExplUnits/sourcecode/bcu_gd_sync.cxx:903-937 | an in-time response to the latest request is counted in phase 2 and silences READY elsewhere; a late one counts as timeout only before any response |
| GdSyncThread.SyncThread.HandlePacket | 1.0.x/ProdExplUnits/sourcecode/bcu_gd_sync.cxx:769-960 | dispatch by sub-event; an END packet completes in any phase, a table row is stored only before completion |
| GdSyncThread.SyncThread.RepeatRequests | 1.0.x/ProdExplUnits/sourcecode/bcu_gd_sync.cxx:962-982 | an expired alarm repeats the probe or the READY request, whichever still waits, and restarts |
| GdSyncThread.SyncThread.Iteration | 1.0.x/ProdExplUnits/sourcecode/bcu_gd_sync.cxx:553-986 | one turn of the loop: complete iff it was or an END packet came, phase 4 iff one came now; once complete it stores nothing, requests nothing and keeps the alarm off; the invariant holds before and after |
| GdSyncThread.SyncThread.Loop | 1.0.x/ProdExplUnits/sourcecode/bcu_gd_sync.cxx:553-986 | any number of turns: complete iff an END packet was among the inputs, and the tables are exactly the rows before it |
| Stations.ForwardSearchEndsIff | 1.0.x/ProdExplUnits/sourcecode/bcu_function.cxx:3197-3234 | for any two bytes the forward search ends without leaving the table iff it starts inside and some station ahead, up to and including the terminus, is not skipped; an effective terminus suffices |
| Stations.NextIsUnique | 1.0.x/ProdExplUnits/sourcecode/bcu_function.cxx:3197-3234 | there is only one nearest station |
| Stations.NextInPlainTerms | 1.0.x/ProdExplUnits/sourcecode/bcu_function.cxx:3197-3234 | from a station before the terminus the next one is the first toward it, terminus included, at which the train stops; from the terminus on it is the terminus |
| Stations.TowardIsCloser | 1.0.x/ProdExplUnits/sourcecode/bcu_function.cxx:3203-3233 | inside the table the unsigned byte wraps only below 0 |
| Stations.BackwardSearchEndsIff | 1.0.x/ProdExplUnits/sourcecode/bcu_function.cxx:3156-3175 | for any byte the cyclic search ends without leaving the table iff it starts inside and meets an effective entry: from a station with a running direction iff some station in 1..31 is effective, without one iff the current entry is |
| Stations.BackStaysInTableIff | 1.0.x/ProdExplUnits/sourcecode/bcu_function.cxx:3158-3174 | the backward step leaves the table exactly when counting down from 0 |
| Stations.PreviousIsUnique | 1.0.x/ProdExplUnits/sourcecode/bcu_function.cxx:3157-3175 | there is only one first station met going backward |
| Stations.PreviousInPlainTerms | 1.0.x/ProdExplUnits/sourcecode/bcu_function.cxx:3157-3175 | counting down it is the nearest lower station at which the train stops, or around the line the highest one; counting up the other way round |
| Stations.BackwardUndoesForwardIff | 1.0.x/ProdExplUnits/sourcecode/bcu_function.cxx:3136-3234 | searching backward from the next station leads back iff the train stops at the original station |
| Stations.ForwardUndoesBackwardIff | 1.0.x/ProdExplUnits/sourcecode/bcu_function.cxx:3136-3234 | searching forward from the previous station leads back iff the train stops at the original station |
| Stations.Navigator.constructor | 1.0.x/ProdExplUnits/sourcecode/bcu_function.cxx:546-557 | every station is effective |
| Stations.Navigator.GetNextStationNo | 1.0.x/ProdExplUnits/sourcecode/bcu_function.cxx:3197-3234 | for any bytes for which the search can end it terminates at the nearest unskipped station toward the terminus |
| Stations.Navigator.SearchBack | 1.0.x/ProdExplUnits/sourcecode/bcu_function.cxx:3156-3176 | from any byte for which the search can end it terminates at the first unskipped entry met after at least one step back |
| Stations.Navigator.AdjustStationNo | 1.0.x/ProdExplUnits/sourcecode/bcu_function.cxx:3136-3194 | the whole new state for stopping, leaving, both ends of an open line and every other value of stop_or_leave |

## Left out

- Sockets, GPIO, sound-card driver, LEDs, touch screen, file system, TFTP, threads and timers of the operating system:
  only the device's "bytes left" value, received packets, button edges and the alarm value remain, as parameters.
- Registries of buffer and alarm names, and checks of null pointers: a buffer is an object reference.
- Byte positions of the block queue: offsets count blocks, and the length word is a field, so its byte order is not
  modelled.
- The mutex branch of the block queue, which is not compiled.
- `items_waiting` in `BlockBufferRace`: neither branch decides on it; `BlockBuffer` proves it equal to the count.
- `CharBufferCurrentBytes`, which returns one more than the number of bytes.
- `PlayAudioTwice_analog` has no caller; it is `PlayAudioTwice` with another border. The microphone side of sampling.
- What other threads do between the statements of the alarm's caller outside its two calls; the runs of `Playback` allow
  clears and writes between a call, a rewind and a skip.
- The header that hang-up writes to the pending ring: a run of `VoicePlayback` may begin with any bytes pending.
- The branch of `SortAlgorithm2` for a nonempty cache and its helpers: the count starts at 0 and never leaves it.
- `ForceClearDataCache`: it drops what waits, so conservation does not apply across it.
- `BCUCMUCommunication` and the handling of coupled trains: that handler can start D2D under a live announcement, so
  exclusive ownership is not claimed there.
- Announcement states other than idle and live in `Intercom`: their priority order is the subject of `Announce`.
- `ANNStateHangle` has no caller at this commit; it is the handler that `Announce` models.
- `IntercomStateHangle`, `BCURemoveRule`, `BCUDisableRule` and `BCUEnableRule`.
- The queues behind commands: a recording command in the log has been handed to the send queue, which may refuse it.
- The table of waiting PCUs that `PCHandle` reads: it is a parameter of the event. `PCHandle` is not called by the main
  loop at this commit; it is kept as an event of the machine.
- Station lookup for line 4, whose branch wraps at 32 while the table ends at 31; the only caller passes line 3.
- Station names, door sides, region tables, and the packet fields copied before `AdjustStationNo` runs.
- The replies the sync thread sends to table, END and version packets, the contents of table rows (a row is one
  number), and the version tables.
- CharBufferRace.EveryInterleavingIsFifo: an offset's increment and wrap count as one step on both sides; what happens
  without that is `SafeIffBothWrapsAreAtomic`.
- CharBufferRace.StepKeepsInv: the same.
- BlockBuffer.Queue.Write: whole calls of one thread at a time; concurrent calls are the subject of `BlockBufferRace`.
- EndToEnd.NetworkRingDeliversWhatWasSent: packages arrive in order and without loss, and no clear comes; the other cases
  are `NetworkRingDeliversNothingElse`.
- VoicePlayback.FaithfulIff: no clear comes inside the call; with one, `PlayKeeps` holds.
- EndToEnd.CardHearsWhatWasSentIff: the same for every call of the run; otherwise `VoiceIsWhatWasSent` holds.
- CharBuffer.Ring.UpdateCurrentReadPointer: when more is left than there was, the difference does not lead before the
  start of the memory, where the offset would point outside the ring.
- CharBuffer.Ring.UpdateCurrentReadPointer2: the same; another thread writing during the call is left out.
- CharBuffer.Ring.BackWrite: a negative length does not lead past the end of the memory.
- NetCache.Cache.ArrayMoveSort: some waiting package is not older than the new one, which its caller has checked;
  otherwise the loop would go on to an entry in front of the array.
- Announce.DynamicStateSort: needs a nonempty table, since the loop bound is an unsigned `items - 1`.
- Stations.Navigator.GetNextStationNo: the search starts inside the table and some station ahead is effective; otherwise
  the loop does not end or leaves the table (`ForwardSearchEndsIff`).
- Stations.Navigator.SearchBack: the search can end; otherwise as above (`BackwardSearchEndsIff`).
- Stations.Navigator.AdjustStationNo: the same, when it searches.
