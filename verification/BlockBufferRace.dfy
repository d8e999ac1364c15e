/** The block queue shared by one writer thread and one reader thread, with no lock.
  *
  * Each access to a shared variable is one step: taking the snapshot of `rd`, then of `wr`; storing the
  * length word, then the bytes one at a time; the increment of an offset, and its wrap.  The reader moves
  * `rd` before it copies.  Memory is sequentially consistent.
  */
module BlockBufferRace {
  import opened CharBuffer
  import opened BlockBuffer
  import opened Subsequence

  datatype WriterPc =
    | WriterIdle
    | WriterSnapped(src: seq<byte>, seenRd: nat)
    | WriterLen(rec: seq<byte>)
    | WriterCopy(rec: seq<byte>, copied: nat)
    | WriterAdvance(rec: seq<byte>)
    | WriterWrap

  datatype ReaderPc =
    | ReaderIdle
    | ReaderSnapped(dest: nat, seenRd: nat)
    | ReaderAdvance(dest: nat)
    | ReaderWrap(dest: nat)
    | ReaderLen(dest: nat)
    | ReaderCopy(dest: nat, count: nat, out: seq<byte>)

  /** History: `accepted` holds the records whose block the writer has released, `taken` says how many the
    * reader has moved past, `returned` holds what finished reads gave their callers and `asked` how many
    * bytes those callers had room for. */
  datatype State = State(
    slots: seq<Slot>, wr: nat, rd: nat, itemSize: nat,
    writer: WriterPc, reader: ReaderPc,
    accepted: seq<seq<byte>>, taken: nat, returned: seq<seq<byte>>, asked: seq<nat>)

  /** One step of the writer or the reader; the argument matters only where a call begins. */
  datatype Event = Writer(src: seq<byte>) | Reader(dest: nat)

  ghost predicate WellFormed(s: State) {
    && |s.slots| >= 2
    && (forall i :: 0 <= i < |s.slots| ==> |s.slots[i].bytes| == s.itemSize)
    && s.wr <= |s.slots| && (s.wr == |s.slots| ==> s.writer.WriterWrap?)
    && s.rd <= |s.slots| && (s.rd == |s.slots| ==> s.reader.ReaderWrap?)
    && (s.writer.WriterLen? ==> |s.writer.rec| <= s.itemSize)
    && (s.writer.WriterCopy? ==> s.writer.copied <= |s.writer.rec| <= s.itemSize)
    && (s.reader.ReaderCopy? ==> |s.reader.out| <= s.reader.count <= s.itemSize)
  }

  function WriterStep(s: State, src: seq<byte>): (t: State)
    requires WellFormed(s)
    ensures WellFormed(t)
  {
    match s.writer
    case WriterIdle =>
      s.(writer := WriterSnapped(src, s.rd))
    case WriterSnapped(x, seenRd) => (
      match ScanOffsets(|s.slots|, seenRd, s.wr)
      case Busy => s.(writer := WriterIdle)
      case Waiting(count) =>
        if count < |s.slots| - 1
        then s.(writer := WriterLen(x[..Min(|x|, s.itemSize)]))
        else s.(writer := WriterIdle))
    case WriterLen(rec) =>
      s.(slots := s.slots[s.wr := s.slots[s.wr].(len := |rec|)], writer := WriterCopy(rec, 0))
    case WriterCopy(rec, j) =>
      if j < |rec| then
        var x := s.slots[s.wr];
        s.(slots := s.slots[s.wr := x.(bytes := x.bytes[j := rec[j]])], writer := WriterCopy(rec, j + 1))
      else
        s.(writer := WriterAdvance(rec))
    case WriterAdvance(rec) =>
      s.(wr := s.wr + 1, writer := WriterWrap, accepted := s.accepted + [rec])
    case WriterWrap =>
      s.(wr := Wrap(|s.slots|, s.wr), writer := WriterIdle)
  }

  function ReaderStep(s: State, dest: nat): (t: State)
    requires WellFormed(s)
    ensures WellFormed(t)
  {
    match s.reader
    case ReaderIdle =>
      s.(reader := ReaderSnapped(dest, s.rd))
    case ReaderSnapped(d, seenRd) => (
      match ScanOffsets(|s.slots|, seenRd, s.wr)
      case Busy => s.(reader := ReaderIdle)
      case Waiting(count) =>
        s.(reader := if count > 0 then ReaderAdvance(d) else ReaderIdle))
    case ReaderAdvance(d) =>
      s.(rd := s.rd + 1, reader := ReaderWrap(d), taken := s.taken + 1)
    case ReaderWrap(d) =>
      s.(rd := Wrap(|s.slots|, s.rd), reader := ReaderLen(d))
    case ReaderLen(d) =>
      s.(reader := ReaderCopy(d, Min(Min(d, s.slots[s.rd].len), s.itemSize), []))
    case ReaderCopy(d, count, out) =>
      if |out| < count
      then s.(reader := ReaderCopy(d, count, out + [s.slots[s.rd].bytes[|out|]]))
      else s.(reader := ReaderIdle, returned := s.returned + [out], asked := s.asked + [d])
  }

  function Step(s: State, e: Event): (t: State)
    requires WellFormed(s)
    ensures WellFormed(t)
  {
    match e
    case Writer(src) => WriterStep(s, src)
    case Reader(dest) => ReaderStep(s, dest)
  }

  function Run(s: State, events: seq<Event>): (t: State)
    requires WellFormed(s)
    ensures WellFormed(t)
    decreases |events|
  {
    if events == [] then s else Run(Step(s, events[0]), events[1..])
  }

  /** BlockBufferCreate. */
  function Initial(slots: seq<Slot>, itemSize: nat): State {
    State(slots, 0, if |slots| == 0 then 0 else |slots| - 1, itemSize, WriterIdle, ReaderIdle, [], 0, [], [])
  }

  // ---------- What every interleaving keeps ----------

  ghost predicate Holds(x: Slot, rec: seq<byte>) {
    x.len == |rec| <= |x.bytes| && x.bytes[..|rec|] == rec
  }

  /** The reader has moved past a record it has not finished returning. */
  predicate Returning(s: State) {
    s.reader.ReaderWrap? || s.reader.ReaderLen? || s.reader.ReaderCopy?
  }

  /** The writer is filling a block it has not released. */
  predicate Filling(s: State) {
    s.writer.WriterLen? || s.writer.WriterCopy? || s.writer.WriterAdvance?
  }

  /** The offsets with a pending wrap carried out. */
  function TrueRd(s: State): nat {
    Wrap(|s.slots|, s.rd)
  }

  function TrueWr(s: State): nat {
    Wrap(|s.slots|, s.wr)
  }

  function InQueue(s: State): int {
    |s.accepted| - s.taken
  }

  /** The offsets agree with the history. */
  ghost predicate OffsetsInv(s: State) {
    var n := |s.slots|;
    && WellFormed(s)
    && 0 <= InQueue(s) < n
    && TrueWr(s) == Advance(n, TrueRd(s), 1 + InQueue(s))
    && s.taken == |s.returned| + (if Returning(s) then 1 else 0)
    // A stale snapshot can only make the writer see fewer free blocks than there are.
    && (s.writer.WriterSnapped? && s.writer.seenRd < n ==>
          s.wr < n && Gap(n, s.writer.seenRd, s.wr) >= InQueue(s))
    && (Filling(s) ==> InQueue(s) < n - 1)
    && (s.reader.ReaderSnapped? ==> s.reader.seenRd == s.rd)
    && (s.reader.ReaderAdvance? ==> InQueue(s) > 0)
  }

  /** Where the `k`-th record of the queue lies. */
  function Place(s: State, k: nat): (p: nat)
    requires |s.slots| > 0 && TrueRd(s) < |s.slots| && k + 1 < |s.slots|
    ensures p < |s.slots|
  {
    Advance(|s.slots|, TrueRd(s), 1 + k)
  }

  /** The queued records lie in memory, and the record taken last is still there. */
  ghost predicate MemoryInv(s: State)
    requires OffsetsInv(s)
  {
    && (forall k: nat :: k < InQueue(s) ==> Holds(s.slots[Place(s, k)], s.accepted[s.taken + k]))
    && (s.taken > 0 ==> Holds(s.slots[TrueRd(s)], s.accepted[s.taken - 1]))
  }

  /** The block being filled holds what has been stored so far. */
  ghost predicate FillInv(s: State)
    requires OffsetsInv(s)
  {
    && (s.writer.WriterCopy? ==>
          && s.slots[s.wr].len == |s.writer.rec|
          && s.slots[s.wr].bytes[..s.writer.copied] == s.writer.rec[..s.writer.copied])
    && (s.writer.WriterAdvance? ==> Holds(s.slots[s.wr], s.writer.rec))
  }

  /** What a caller with room for `dest` bytes gets of a record. */
  function Cut(rec: seq<byte>, dest: nat): seq<byte> {
    rec[..Min(dest, |rec|)]
  }

  /** What reads return agrees with the history. */
  ghost predicate ReturnsInv(s: State)
    requires OffsetsInv(s)
  {
    && |s.asked| == |s.returned|
    && (forall i :: 0 <= i < |s.returned| ==> s.returned[i] == Cut(s.accepted[i], s.asked[i]))
    && (s.reader.ReaderCopy? ==>
          && s.reader.count == Min(s.reader.dest, |s.accepted[s.taken - 1]|)
          && s.reader.out == s.accepted[s.taken - 1][..|s.reader.out|])
  }

  ghost predicate Inv(s: State) {
    OffsetsInv(s) && MemoryInv(s) && FillInv(s) && ReturnsInv(s)
  }

  lemma InitialInv(slots: seq<Slot>, itemSize: nat)
    requires |slots| >= 2 && forall i :: 0 <= i < |slots| ==> |slots[i].bytes| == itemSize
    ensures Inv(Initial(slots, itemSize))
  {
  }

  /** The block the writer fills is neither the one being copied out nor one in the queue. */
  lemma FilledBlockIsFree(s: State)
    requires OffsetsInv(s) && Filling(s)
    ensures s.wr < |s.slots| && s.wr != TrueRd(s)
    ensures forall k: nat :: k < InQueue(s) ==> Place(s, k) != s.wr
  {
  }

  lemma WriterScanOffsets(s: State, src: seq<byte>)
    requires OffsetsInv(s) && (s.writer.WriterIdle? || s.writer.WriterSnapped?)
    ensures OffsetsInv(WriterStep(s, src))
  {
    if s.writer.WriterIdle? && s.rd < |s.slots| {
      GapReachesWriter(|s.slots|, s.rd, s.wr, InQueue(s));
    }
  }

  lemma WriterMoveOffsets(s: State, src: seq<byte>)
    requires OffsetsInv(s) && (s.writer.WriterAdvance? || s.writer.WriterWrap?)
    ensures OffsetsInv(WriterStep(s, src))
  {
  }

  lemma WriterStepOffsets(s: State, src: seq<byte>)
    requires OffsetsInv(s)
    ensures OffsetsInv(WriterStep(s, src))
  {
    if s.writer.WriterIdle? || s.writer.WriterSnapped? {
      WriterScanOffsets(s, src);
    } else if s.writer.WriterAdvance? || s.writer.WriterWrap? {
      WriterMoveOffsets(s, src);
    }
  }

  lemma ReaderScanOffsets(s: State, dest: nat)
    requires OffsetsInv(s) && s.reader.ReaderSnapped?
    ensures OffsetsInv(ReaderStep(s, dest))
  {
    if s.wr < |s.slots| {
      GapReachesWriter(|s.slots|, s.rd, s.wr, InQueue(s));
    }
  }

  lemma ReaderMoveOffsets(s: State, dest: nat)
    requires OffsetsInv(s) && (s.reader.ReaderAdvance? || s.reader.ReaderWrap?)
    ensures OffsetsInv(ReaderStep(s, dest))
  {
  }

  lemma ReaderStepOffsets(s: State, dest: nat)
    requires OffsetsInv(s)
    ensures OffsetsInv(ReaderStep(s, dest))
  {
    if s.reader.ReaderSnapped? {
      ReaderScanOffsets(s, dest);
    } else if s.reader.ReaderAdvance? || s.reader.ReaderWrap? {
      ReaderMoveOffsets(s, dest);
    }
  }

  /** Storing into the block being filled leaves the rest of the memory alone. */
  lemma StoreKeepsMemory(s: State, x: Slot, pc: WriterPc)
    requires OffsetsInv(s) && MemoryInv(s) && Filling(s)
    requires OffsetsInv(s.(slots := s.slots[s.wr := x], writer := pc))
    ensures MemoryInv(s.(slots := s.slots[s.wr := x], writer := pc))
  {
    FilledBlockIsFree(s);
    var t := s.(slots := s.slots[s.wr := x], writer := pc);
    forall k: nat | k < InQueue(t)
      ensures Holds(t.slots[Place(t, k)], t.accepted[t.taken + k])
    {
      assert Place(t, k) == Place(s, k) != s.wr;
    }
  }

  lemma ReleaseKeepsMemory(s: State)
    requires OffsetsInv(s) && MemoryInv(s) && FillInv(s) && s.writer.WriterAdvance?
    ensures OffsetsInv(WriterStep(s, [])) && MemoryInv(WriterStep(s, []))
  {
    WriterStepOffsets(s, []);
    var t := WriterStep(s, []);
    forall k: nat | k < InQueue(t)
      ensures Holds(t.slots[Place(t, k)], t.accepted[t.taken + k])
    {
      if k < InQueue(s) {
        assert Place(t, k) == Place(s, k);
      }
    }
  }

  lemma SameQueueSameMemory(s: State, t: State)
    requires OffsetsInv(s) && MemoryInv(s) && OffsetsInv(t)
    requires t.slots == s.slots && TrueRd(t) == TrueRd(s) && t.taken == s.taken && t.accepted == s.accepted
    ensures MemoryInv(t)
  {
    forall k: nat | k < InQueue(t)
      ensures Holds(t.slots[Place(t, k)], t.accepted[t.taken + k])
    {
      assert Place(t, k) == Place(s, k);
    }
  }

  lemma WriterStepMemory(s: State, src: seq<byte>)
    requires OffsetsInv(s) && MemoryInv(s) && FillInv(s)
    ensures OffsetsInv(WriterStep(s, src)) && MemoryInv(WriterStep(s, src))
  {
    WriterStepOffsets(s, src);
    var t := WriterStep(s, src);
    if s.writer.WriterLen? || (s.writer.WriterCopy? && s.writer.copied < |s.writer.rec|) {
      StoreKeepsMemory(s, t.slots[s.wr], t.writer);
    } else if s.writer.WriterAdvance? {
      ReleaseKeepsMemory(s);
    } else {
      SameQueueSameMemory(s, t);
    }
  }

  lemma WriterStepFill(s: State, src: seq<byte>)
    requires OffsetsInv(s) && FillInv(s)
    ensures OffsetsInv(WriterStep(s, src)) && FillInv(WriterStep(s, src))
  {
    WriterStepOffsets(s, src);
    match s.writer
    case WriterCopy(rec, j) =>
      if j < |rec| {
        var x := s.slots[s.wr].bytes;
        assert x[j := rec[j]][..j + 1] == x[..j] + [rec[j]];
        assert rec[..j + 1] == rec[..j] + [rec[j]];
      } else {
        assert rec[..j] == rec;
      }
    case _ =>
  }

  lemma AdvanceKeepsMemory(s: State)
    requires OffsetsInv(s) && MemoryInv(s) && s.reader.ReaderAdvance?
    ensures OffsetsInv(ReaderStep(s, 0)) && MemoryInv(ReaderStep(s, 0))
  {
    ReaderStepOffsets(s, 0);
    var t := ReaderStep(s, 0);
    forall k: nat | k < InQueue(t)
      ensures Holds(t.slots[Place(t, k)], t.accepted[t.taken + k])
    {
      assert Place(t, k) == Place(s, k + 1);
      assert Holds(s.slots[Place(s, k + 1)], s.accepted[s.taken + (k + 1)]);
    }
    assert Holds(s.slots[Place(s, 0)], s.accepted[s.taken + 0]);
  }

  lemma ReaderStepMemory(s: State, dest: nat)
    requires OffsetsInv(s) && MemoryInv(s)
    ensures OffsetsInv(ReaderStep(s, dest)) && MemoryInv(ReaderStep(s, dest))
  {
    ReaderStepOffsets(s, dest);
    var t := ReaderStep(s, dest);
    if s.reader.ReaderAdvance? {
      AdvanceKeepsMemory(s);
    } else {
      SameQueueSameMemory(s, t);
    }
  }

  lemma WriterStepReturns(s: State, src: seq<byte>)
    requires OffsetsInv(s) && ReturnsInv(s)
    ensures OffsetsInv(WriterStep(s, src)) && ReturnsInv(WriterStep(s, src))
  {
    WriterStepOffsets(s, src);
  }

  lemma ReaderStepFill(s: State, dest: nat)
    requires OffsetsInv(s) && FillInv(s)
    ensures OffsetsInv(ReaderStep(s, dest)) && FillInv(ReaderStep(s, dest))
  {
    ReaderStepOffsets(s, dest);
  }

  /** One more byte of the record taken last. */
  lemma CopyFollowsRecord(x: Slot, rec: seq<byte>, out: seq<byte>)
    requires Holds(x, rec) && |out| < |rec| && out == rec[..|out|]
    ensures out + [x.bytes[|out|]] == rec[..|out| + 1]
  {
  }

  lemma ReaderCopyReturns(s: State, dest: nat)
    requires Inv(s) && (s.reader.ReaderLen? || s.reader.ReaderCopy?)
    ensures OffsetsInv(ReaderStep(s, dest)) && ReturnsInv(ReaderStep(s, dest))
  {
    ReaderStepOffsets(s, dest);
    var rec := s.accepted[s.taken - 1];
    assert Holds(s.slots[s.rd], rec);
    if s.reader.ReaderCopy? && |s.reader.out| < s.reader.count {
      CopyFollowsRecord(s.slots[s.rd], rec, s.reader.out);
    }
  }

  lemma ReaderStepReturns(s: State, dest: nat)
    requires Inv(s)
    ensures OffsetsInv(ReaderStep(s, dest)) && ReturnsInv(ReaderStep(s, dest))
  {
    ReaderStepOffsets(s, dest);
    if s.reader.ReaderLen? || s.reader.ReaderCopy? {
      ReaderCopyReturns(s, dest);
    }
  }

  lemma StepKeepsInv(s: State, e: Event)
    requires Inv(s)
    ensures Inv(Step(s, e))
  {
    match e
    case Writer(src) =>
      WriterStepMemory(s, src);
      WriterStepFill(s, src);
      WriterStepReturns(s, src);
    case Reader(dest) =>
      ReaderStepMemory(s, dest);
      ReaderStepFill(s, dest);
      ReaderStepReturns(s, dest);
  }

  lemma {:induction false} RunKeepsInv(s: State, events: seq<Event>)
    requires Inv(s)
    ensures Inv(Run(s, events))
    decreases |events|
  {
    if events != [] {
      StepKeepsInv(s, events[0]);
      RunKeepsInv(Step(s, events[0]), events[1..]);
    }
  }

  // ---------- The results ----------

  /** For any number of blocks and under every interleaving, the records returned are the records accepted,
    * in order, none lost, doubled or torn, each cut only to the room its caller gave. */
  lemma EveryInterleavingDeliversInOrder(slots: seq<Slot>, itemSize: nat, events: seq<Event>)
    requires |slots| >= 2 && forall i :: 0 <= i < |slots| ==> |slots[i].bytes| == itemSize
    ensures var t := Run(Initial(slots, itemSize), events);
            && |t.returned| <= |t.accepted| && |t.asked| == |t.returned|
            && (forall i :: 0 <= i < |t.returned| ==> t.returned[i] == Cut(t.accepted[i], t.asked[i]))
            && |t.accepted| < |t.returned| + |slots| + 1
  {
    InitialInv(slots, itemSize);
    RunKeepsInv(Initial(slots, itemSize), events);
    RunKeepsSlotCount(Initial(slots, itemSize), events);
  }

  lemma {:induction false} RunKeepsSlotCount(s: State, events: seq<Event>)
    requires WellFormed(s)
    ensures |Run(s, events).slots| == |s.slots|
    decreases |events|
  {
    if events != [] {
      RunKeepsSlotCount(Step(s, events[0]), events[1..]);
    }
  }

  /** Although the reader moves `rd` before it copies, no step of the writer touches the block being
    * copied, or any block still queued. */
  lemma WriterNeverTouchesBlocksInUse(slots: seq<Slot>, itemSize: nat, events: seq<Event>, src: seq<byte>)
    requires |slots| >= 2 && forall i :: 0 <= i < |slots| ==> |slots[i].bytes| == itemSize
    ensures var t := Run(Initial(slots, itemSize), events);
            var u := WriterStep(t, src);
            && (Returning(t) ==> u.slots[TrueRd(t)] == t.slots[TrueRd(t)])
            && OffsetsInv(t)
            && (forall k: nat :: k < InQueue(t) ==> u.slots[Place(t, k)] == t.slots[Place(t, k)])
  {
    InitialInv(slots, itemSize);
    RunKeepsInv(Initial(slots, itemSize), events);
    var t := Run(Initial(slots, itemSize), events);
    if Filling(t) {
      FilledBlockIsFree(t);
    }
  }

  /** A writer that catches `rd` between increment and wrap gives up without changing anything shared. */
  lemma WriterBacksOff(s: State, src: seq<byte>, later: State, src': seq<byte>)
    requires WellFormed(s) && s.writer.WriterIdle? && s.rd == |s.slots|
    requires WellFormed(later) && |later.slots| == |s.slots|
    requires later.writer == WriterStep(s, src).writer
    ensures WriterStep(later, src') == later.(writer := WriterIdle)
  {
  }

  /** The same for a reader that catches `wr` there. */
  lemma ReaderBacksOff(s: State, dest: nat)
    requires WellFormed(s) && s.reader.ReaderSnapped? && s.wr == |s.slots|
    ensures ReaderStep(s, dest) == s.(reader := ReaderIdle)
  {
  }

  /** With at most 256 blocks a call is refused as busy only for that reason: any other snapshot of a
    * reachable state leads to an answer. */
  lemma BusyOnlyBetweenIncrementAndWrap(s: State)
    requires OffsetsInv(s) && |s.slots| <= POSITION_LIMIT
    ensures s.reader.ReaderSnapped? ==>
              (ScanOffsets(|s.slots|, s.reader.seenRd, s.wr).Busy? <==> s.writer.WriterWrap? && s.wr == |s.slots|)
    ensures s.writer.WriterSnapped? ==>
              (ScanOffsets(|s.slots|, s.writer.seenRd, s.wr).Busy? <==> s.writer.seenRd >= |s.slots|)
  {
  }

  // ---------- What a call gets is what that call was given ----------

  /** What an observer of the events knows: the sources of all write calls begun so far, those of the calls after
    * which a record more was accepted, the room of the read call begun last, and the rooms of the calls that
    * returned. */
  datatype Calls = Calls(offered: seq<seq<byte>>, granted: seq<seq<byte>>, room: nat, rooms: seq<nat>)

  const NO_CALLS := Calls([], [], 0, [])

  function Begun(c: Calls, s: State, e: Event): Calls {
    match e
    case Writer(src) => if s.writer.WriterIdle? then c.(offered := c.offered + [src]) else c
    case Reader(dest) => if s.reader.ReaderIdle? then c.(room := dest) else c
  }

  function Ended(c: Calls, s: State, t: State): Calls {
    var d := if |t.accepted| > |s.accepted| && c.offered != []
             then c.(granted := c.granted + [c.offered[|c.offered| - 1]]) else c;
    if |t.returned| > |s.returned| then d.(rooms := d.rooms + [d.room]) else d
  }

  function Observed(c: Calls, s: State, events: seq<Event>): Calls
    requires WellFormed(s)
    decreases |events|
  {
    if events == [] then c
    else
      var t := Step(s, events[0]);
      Observed(Ended(Begun(c, s, events[0]), s, t), t, events[1..])
  }

  /** Between the begin of a write call and the release of its block. */
  predicate InWrite(s: State) {
    s.writer.WriterSnapped? || Filling(s)
  }

  ghost predicate WriterCallInv(s: State, c: Calls) {
    && |c.granted| == |s.accepted|
    && (forall i :: 0 <= i < |c.granted| ==>
          s.accepted[i] == c.granted[i][..Min(|c.granted[i]|, s.itemSize)])
    && IsSub(c.granted, c.offered)
    && (InWrite(s) ==>
          && c.offered != [] && IsSub(c.granted, c.offered[..|c.offered| - 1])
          && var src := c.offered[|c.offered| - 1];
             match s.writer
             case WriterSnapped(x, _) => x == src
             case WriterLen(rec) => rec == src[..Min(|src|, s.itemSize)]
             case WriterCopy(rec, _) => rec == src[..Min(|src|, s.itemSize)]
             case WriterAdvance(rec) => rec == src[..Min(|src|, s.itemSize)]
             case _ => true)
  }

  ghost predicate ReaderCallInv(s: State, c: Calls) {
    && s.asked == c.rooms
    && match s.reader
       case ReaderIdle => true
       case ReaderSnapped(d, _) => d == c.room
       case ReaderAdvance(d) => d == c.room
       case ReaderWrap(d) => d == c.room
       case ReaderLen(d) => d == c.room
       case ReaderCopy(d, _, _) => d == c.room
  }

  lemma BeginKeepsCalls(s: State, c: Calls, src: seq<byte>)
    requires WellFormed(s) && WriterCallInv(s, c) && s.writer.WriterIdle?
    ensures var t := Step(s, Writer(src)); WriterCallInv(t, Ended(Begun(c, s, Writer(src)), s, t))
  {
    SubExtend(c.granted, c.offered, [src]);
    assert (c.offered + [src])[..|c.offered|] == c.offered;
  }

  lemma GrantKeepsCalls(s: State, c: Calls, src: seq<byte>)
    requires WellFormed(s) && WriterCallInv(s, c) && s.writer.WriterAdvance?
    ensures var t := Step(s, Writer(src)); WriterCallInv(t, Ended(Begun(c, s, Writer(src)), s, t))
  {
    var n := |c.offered| - 1;
    SubAppend(c.granted, c.offered[..n], [c.offered[n]]);
    assert c.offered[..n] + [c.offered[n]] == c.offered;
  }

  lemma WriterKeepsCalls(s: State, c: Calls, src: seq<byte>)
    requires WellFormed(s) && WriterCallInv(s, c)
    ensures var t := Step(s, Writer(src)); WriterCallInv(t, Ended(Begun(c, s, Writer(src)), s, t))
  {
    if s.writer.WriterIdle? {
      BeginKeepsCalls(s, c, src);
    } else if s.writer.WriterAdvance? {
      GrantKeepsCalls(s, c, src);
    } else {
      var t := Step(s, Writer(src));
      assert t.accepted == s.accepted && t.itemSize == s.itemSize && t.returned == s.returned;
      assert Ended(Begun(c, s, Writer(src)), s, t) == c;
    }
  }

  lemma ReaderKeepsCalls(s: State, c: Calls, dest: nat)
    requires WellFormed(s) && ReaderCallInv(s, c)
    ensures var t := Step(s, Reader(dest)); ReaderCallInv(t, Ended(Begun(c, s, Reader(dest)), s, t))
  {
  }

  lemma StepKeepsCalls(s: State, c: Calls, e: Event)
    requires WellFormed(s) && WriterCallInv(s, c) && ReaderCallInv(s, c)
    ensures var t := Step(s, e);
            var d := Ended(Begun(c, s, e), s, t);
            WriterCallInv(t, d) && ReaderCallInv(t, d)
  {
    var t := Step(s, e);
    match e
    case Writer(src) =>
      assert t.reader == s.reader && t.asked == s.asked && t.returned == s.returned;
      WriterKeepsCalls(s, c, src);
    case Reader(dest) =>
      assert t.writer == s.writer && t.accepted == s.accepted && t.itemSize == s.itemSize;
      ReaderKeepsCalls(s, c, dest);
  }

  lemma {:induction false} RunKeepsCalls(s: State, c: Calls, events: seq<Event>)
    requires WellFormed(s) && WriterCallInv(s, c) && ReaderCallInv(s, c)
    ensures WriterCallInv(Run(s, events), Observed(c, s, events))
    ensures ReaderCallInv(Run(s, events), Observed(c, s, events))
    ensures Run(s, events).itemSize == s.itemSize
    decreases |events|
  {
    if events != [] {
      StepKeepsCalls(s, c, events[0]);
      RunKeepsCalls(Step(s, events[0]), Ended(Begun(c, s, events[0]), s, Step(s, events[0])), events[1..]);
    }
  }

  /** Under every interleaving the accepted records are the first bytes of the sources of the calls that were granted,
    * at most `itemSize` of each, in the order of the calls, and each call is granted at most once; and each read
    * returns the next of them, cut to the room that this very read was given. */
  lemma EveryCallGetsItsOwn(slots: seq<Slot>, itemSize: nat, events: seq<Event>)
    requires |slots| >= 2 && forall i :: 0 <= i < |slots| ==> |slots[i].bytes| == itemSize
    ensures var t := Run(Initial(slots, itemSize), events);
            var c := Observed(NO_CALLS, Initial(slots, itemSize), events);
            && IsSub(c.granted, c.offered)
            && |t.accepted| == |c.granted|
            && (forall i :: 0 <= i < |t.accepted| ==>
                  t.accepted[i] == c.granted[i][..Min(|c.granted[i]|, itemSize)])
            && |t.returned| == |c.rooms| <= |t.accepted|
            && (forall i :: 0 <= i < |t.returned| ==>
                  t.returned[i] == t.accepted[i][..Min(c.rooms[i], |t.accepted[i]|)])
  {
    EveryInterleavingDeliversInOrder(slots, itemSize, events);
    RunKeepsCalls(Initial(slots, itemSize), NO_CALLS, events);
  }

  // ---------- A thread left alone gets through ----------

  function Alone(e: Event, k: nat): seq<Event> {
    if k == 0 then [] else [e] + Alone(e, k - 1)
  }

  lemma AloneStep(s: State, e: Event, k: nat)
    requires WellFormed(s) && k > 0
    ensures Run(s, Alone(e, k)) == Run(Step(s, e), Alone(e, k - 1))
  {
    assert ([e] + Alone(e, k - 1))[1..] == Alone(e, k - 1);
  }

  /** The writer copies the rest of its record and releases the block. */
  lemma {:induction false} CopyAlone(s: State, src: seq<byte>)
    requires WellFormed(s) && s.writer.WriterCopy?
    ensures var t := Run(s, Alone(Writer(src), |s.writer.rec| - s.writer.copied + 3));
            && t.writer.WriterIdle? && t.accepted == s.accepted + [s.writer.rec]
            && t.reader == s.reader && t.taken == s.taken && t.returned == s.returned && t.rd == s.rd
            && t.wr == Wrap(|s.slots|, s.wr + 1)
    decreases |s.writer.rec| - s.writer.copied
  {
    var k := |s.writer.rec| - s.writer.copied + 3;
    AloneStep(s, Writer(src), k);
    var s1 := Step(s, Writer(src));
    if s.writer.copied < |s.writer.rec| {
      CopyAlone(s1, src);
    } else {
      AloneStep(s1, Writer(src), 2);
      AloneStep(Step(s1, Writer(src)), Writer(src), 1);
    }
  }

  /** The queue as the offsets show it, with no step half done. */
  lemma GapIsQueue(s: State)
    requires OffsetsInv(s) && s.rd < |s.slots| && s.wr < |s.slots|
    ensures Gap(|s.slots|, s.rd, s.wr) == InQueue(s)
  {
    GapReachesWriter(|s.slots|, s.rd, s.wr, InQueue(s));
  }

  lemma WriterScans(s: State, src: seq<byte>)
    requires Inv(s) && |s.slots| <= 256 && s.writer.WriterIdle? && s.rd < |s.slots|
    ensures Step(Step(s, Writer(src)), Writer(src)) ==
            if |s.accepted| - s.taken < |s.slots| - 1
            then s.(writer := WriterLen(src[..Min(|src|, s.itemSize)])) else s
  {
    GapIsQueue(s);
  }

  lemma FillAlone(s: State, src: seq<byte>)
    requires WellFormed(s) && s.writer.WriterLen?
    ensures var t := Run(s, Alone(Writer(src), |s.writer.rec| + 4));
            && t.writer.WriterIdle? && t.accepted == s.accepted + [s.writer.rec]
            && t.reader == s.reader && t.taken == s.taken && t.returned == s.returned
  {
    AloneStep(s, Writer(src), |s.writer.rec| + 4);
    CopyAlone(Step(s, Writer(src)), src);
  }

  lemma TwoAlone(s: State, e: Event, k: nat)
    requires WellFormed(s) && k >= 2
    ensures Run(s, Alone(e, k)) == Run(Step(Step(s, e), e), Alone(e, k - 2))
  {
    AloneStep(s, e, k);
    AloneStep(Step(s, e), e, k - 1);
  }

  /** A write call left alone, with the reader not between increment and wrap, accepts exactly the beginning of its
    * source if a block is free, and changes nothing if none is. */
  lemma WriteAloneSucceedsIffFree(s: State, src: seq<byte>)
    requires Inv(s) && |s.slots| <= 256 && s.writer.WriterIdle? && s.rd < |s.slots|
    ensures var m := Min(|src|, s.itemSize);
            if |s.accepted| - s.taken < |s.slots| - 1 then
              var t := Run(s, Alone(Writer(src), m + 6));
              t.writer.WriterIdle? && t.accepted == s.accepted + [src[..m]] && t.reader == s.reader
              && t.taken == s.taken && t.returned == s.returned
            else
              Run(s, Alone(Writer(src), 2)) == s
  {
    var m := Min(|src|, s.itemSize);
    WriterScans(s, src);
    if |s.accepted| - s.taken < |s.slots| - 1 {
      TwoAlone(s, Writer(src), m + 6);
      FillAlone(s.(writer := WriterLen(src[..m])), src);
    } else {
      TwoAlone(s, Writer(src), 2);
    }
  }

  lemma {:induction false} ReturnAlone(s: State, dest: nat)
    requires WellFormed(s) && s.reader.ReaderCopy?
    ensures var t := Run(s, Alone(Reader(dest), s.reader.count - |s.reader.out| + 1));
            && t.reader.ReaderIdle? && |t.returned| == |s.returned| + 1 && t.asked == s.asked + [s.reader.dest]
            && t.accepted == s.accepted && t.taken == s.taken && t.writer == s.writer
    decreases s.reader.count - |s.reader.out|
  {
    var k := s.reader.count - |s.reader.out| + 1;
    AloneStep(s, Reader(dest), k);
    if |s.reader.out| < s.reader.count {
      ReturnAlone(Step(s, Reader(dest)), dest);
    }
  }

  lemma ReaderScans(s: State, dest: nat)
    requires Inv(s) && |s.slots| <= 256 && s.reader.ReaderIdle? && s.wr < |s.slots|
    ensures Step(Step(s, Reader(dest)), Reader(dest)) ==
            if s.taken < |s.accepted| then s.(reader := ReaderAdvance(dest)) else s
  {
    GapIsQueue(s);
  }

  /** The reader moves on, wraps, and looks at the length of the record it took. */
  lemma TakeAlone(s: State, dest: nat, k: nat) returns (t: State)
    requires Inv(s) && s.reader == ReaderAdvance(dest)
    ensures s.taken < |s.accepted|
    ensures Inv(t) && Run(s, Alone(Reader(dest), k + 3)) == Run(t, Alone(Reader(dest), k))
    ensures t.reader == ReaderCopy(dest, Min(dest, |s.accepted[s.taken]|), [])
    ensures t.taken == s.taken + 1 && t.accepted == s.accepted && t.writer == s.writer && t.returned == s.returned
    ensures |t.asked| == |t.returned|
  {
    var e := Reader(dest);
    t := Step(Step(Step(s, e), e), e);
    StepKeepsInv(s, e);
    StepKeepsInv(Step(s, e), e);
    StepKeepsInv(Step(Step(s, e), e), e);
    TwoAlone(s, e, k + 3);
    AloneStep(Step(Step(s, e), e), e, k + 1);
  }

  lemma CopyOutAlone(s: State, dest: nat, rec: seq<byte>)
    requires Inv(s) && s.taken > 0 && rec == s.accepted[s.taken - 1]
    requires s.reader == ReaderCopy(dest, Min(dest, |rec|), [])
    ensures var t := Run(s, Alone(Reader(dest), Min(dest, |rec|) + 1));
            && t.reader.ReaderIdle? && |t.returned| == |s.returned| + 1
            && t.returned[|s.returned|] == rec[..Min(dest, |rec|)]
            && t.taken == s.taken && t.accepted == s.accepted && t.writer == s.writer
  {
    ReturnAlone(s, dest);
    RunKeepsInv(s, Alone(Reader(dest), Min(dest, |rec|) + 1));
  }

  /** A read call left alone, with the writer not between increment and wrap, returns exactly the oldest waiting record,
    * cut to its room, if one waits, and changes nothing if none does. */
  lemma ReadAloneSucceedsIffWaiting(s: State, dest: nat)
    requires Inv(s) && |s.slots| <= 256 && s.reader.ReaderIdle? && s.wr < |s.slots|
    ensures if s.taken < |s.accepted| then
              var rec := s.accepted[s.taken];
              var t := Run(s, Alone(Reader(dest), Min(dest, |rec|) + 6));
              && t.reader.ReaderIdle? && |t.returned| == |s.returned| + 1
              && t.returned[|s.returned|] == rec[..Min(dest, |rec|)]
              && t.taken == s.taken + 1 && t.accepted == s.accepted && t.writer == s.writer
            else
              Run(s, Alone(Reader(dest), 2)) == s
  {
    ReaderScans(s, dest);
    if s.taken < |s.accepted| {
      var rec := s.accepted[s.taken];
      var s2 := s.(reader := ReaderAdvance(dest));
      StepKeepsInv(s, Reader(dest));
      StepKeepsInv(Step(s, Reader(dest)), Reader(dest));
      TwoAlone(s, Reader(dest), Min(dest, |rec|) + 6);
      var t := TakeAlone(s2, dest, Min(dest, |rec|) + 1);
      CopyOutAlone(t, dest, rec);
    } else {
      TwoAlone(s, Reader(dest), 2);
    }
  }
}
