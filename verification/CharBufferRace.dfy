/** The byte ring shared by one writer thread and one reader thread, with no lock.
  *
  * Every access to a shared variable in the loops of CharBufferWrite and CharBufferRead is one step, and
  * the two threads interleave in any order.  The only shared data are the memory and the two offsets.
  * Memory is sequentially consistent.
  *
  * In the C text the wrap to pb_head is a statement of its own after the increment.  `Config` says for each
  * thread whether the other thread can observe the offset between the two statements.
  */
module CharBufferRace {
  import opened CharBuffer
  import opened Subsequence

  datatype Config = Config(size: nat, writerWrapsAtOnce: bool, readerWrapsAtOnce: bool)

  datatype WriterPc = WriterCheck | WriterStore(b: byte) | WriterAdvance(b: byte) | WriterWrap
  datatype ReaderPc = ReaderCheck | ReaderLoad | ReaderAdvance(b: byte) | ReaderWrap

  /** `produced` and `consumed` are history: the bytes whose transfer each side has completed. */
  datatype State = State(
    cells: seq<byte>, wr: nat, rd: nat,
    writer: WriterPc, reader: ReaderPc,
    produced: seq<byte>, consumed: seq<byte>)

  /** `Writer(b)` is one step of the writer; `b` matters only where it begins a new byte. */
  datatype Event = Writer(b: byte) | Reader

  ghost predicate WellFormed(c: Config, s: State) {
    && |s.cells| == c.size > 0
    && s.wr <= c.size && (s.wr == c.size ==> s.writer.WriterWrap?)
    && s.rd <= c.size && (s.rd == c.size ==> s.reader.ReaderWrap?)
  }

  function Step(c: Config, s: State, e: Event): (t: State)
    requires WellFormed(c, s)
    ensures WellFormed(c, t)
  {
    match e
    case Writer(b) => (
      match s.writer
      case WriterCheck =>
        if Wrap(c.size, s.wr + 1) == s.rd then s else s.(writer := WriterStore(b))
      case WriterStore(x) =>
        s.(cells := s.cells[s.wr := x], writer := WriterAdvance(x))
      case WriterAdvance(x) =>
        var t := s.(produced := s.produced + [x]);
        if c.writerWrapsAtOnce
        then t.(wr := Wrap(c.size, s.wr + 1), writer := WriterCheck)
        else t.(wr := s.wr + 1, writer := WriterWrap)
      case WriterWrap =>
        s.(wr := Wrap(c.size, s.wr), writer := WriterCheck))
    case Reader => (
      match s.reader
      case ReaderCheck =>
        if s.wr == s.rd then s else s.(reader := ReaderLoad)
      case ReaderLoad =>
        s.(reader := ReaderAdvance(s.cells[s.rd]))
      case ReaderAdvance(x) =>
        var t := s.(consumed := s.consumed + [x]);
        if c.readerWrapsAtOnce
        then t.(rd := Wrap(c.size, s.rd + 1), reader := ReaderCheck)
        else t.(rd := s.rd + 1, reader := ReaderWrap)
      case ReaderWrap =>
        s.(rd := Wrap(c.size, s.rd), reader := ReaderCheck))
  }

  function Run(c: Config, s: State, events: seq<Event>): (t: State)
    requires WellFormed(c, s)
    ensures WellFormed(c, t)
    decreases |events|
  {
    if events == [] then s else Run(c, Step(c, s, events[0]), events[1..])
  }

  /** CharBufferCreate: both offsets at the head, memory with arbitrary content. */
  function Initial(cells: seq<byte>): State {
    State(cells, 0, 0, WriterCheck, ReaderCheck, [], [])
  }

  /** What the reader got is the beginning of what the writer put in. */
  predicate Safe(s: State) {
    s.consumed <= s.produced
  }

  // ---------- Safety when each wrap happens together with its increment ----------

  ghost predicate Inv(c: Config, s: State) {
    && |s.cells| == c.size && s.wr < c.size && s.rd < c.size
    && s.produced == s.consumed + Span(s.cells, s.rd, s.wr)
    && !s.writer.WriterWrap? && !s.reader.ReaderWrap?
    // The writer's comparison may be stale by the time it stores, but stays true.
    && (!s.writer.WriterCheck? ==> Advance(c.size, s.wr, 1) != s.rd)
    && (s.writer.WriterAdvance? ==> s.cells[s.wr] == s.writer.b)
    && (!s.reader.ReaderCheck? ==> s.rd != s.wr)
    && (s.reader.ReaderAdvance? ==> s.cells[s.rd] == s.reader.b)
  }

  /** The cell the writer fills is outside the content. */
  lemma StoreIsInvisible(cells: seq<byte>, rd: nat, wr: nat, b: byte)
    requires rd < |cells| && wr < |cells|
    ensures Span(cells[wr := b], rd, wr) == Span(cells, rd, wr)
  {
  }

  lemma WriterStepKeepsInv(c: Config, s: State, b: byte)
    requires c.writerWrapsAtOnce && c.readerWrapsAtOnce
    requires WellFormed(c, s) && Inv(c, s)
    ensures Inv(c, Step(c, s, Writer(b)))
  {
    match s.writer
    case WriterCheck =>
    case WriterStore(x) =>
      StoreIsInvisible(s.cells, s.rd, s.wr, x);
    case WriterAdvance(x) =>
      SpanPush(s.cells, s.rd, s.wr, x);
      assert s.cells[s.wr := x] == s.cells;
  }

  /** Moving the reader on hands its oldest byte over. */
  lemma SpanPop(cells: seq<byte>, rd: nat, wr: nat, done: seq<byte>)
    requires rd < |cells| && wr < |cells| && rd != wr
    ensures done + Span(cells, rd, wr) == done + [cells[rd]] + Span(cells, Advance(|cells|, rd, 1), wr)
  {
    var q := Span(cells, rd, wr);
    SpanAt(cells, rd, wr, 0);
    SpanAdvance(cells, rd, wr, 1);
    assert q == [cells[rd]] + q[1..];
  }

  lemma ReaderStepKeepsInv(c: Config, s: State)
    requires c.writerWrapsAtOnce && c.readerWrapsAtOnce
    requires WellFormed(c, s) && Inv(c, s)
    ensures Inv(c, Step(c, s, Reader))
  {
    if s.reader.ReaderAdvance? {
      SpanPop(s.cells, s.rd, s.wr, s.consumed);
    }
  }

  lemma StepKeepsInv(c: Config, s: State, e: Event)
    requires c.writerWrapsAtOnce && c.readerWrapsAtOnce
    requires WellFormed(c, s) && Inv(c, s)
    ensures Inv(c, Step(c, s, e))
  {
    match e
    case Writer(b) => WriterStepKeepsInv(c, s, b);
    case Reader => ReaderStepKeepsInv(c, s);
  }

  lemma {:induction false} RunKeepsInv(c: Config, s: State, events: seq<Event>)
    requires c.writerWrapsAtOnce && c.readerWrapsAtOnce
    requires WellFormed(c, s) && Inv(c, s)
    ensures Inv(c, Run(c, s, events))
    decreases |events|
  {
    if events != [] {
      StepKeepsInv(c, s, events[0]);
      RunKeepsInv(c, Step(c, s, events[0]), events[1..]);
    }
  }

  /** Under every interleaving the bytes consumed are a prefix of the bytes produced, and what is missing
    * is exactly what lies between the offsets, never more than size - 1 bytes. */
  lemma EveryInterleavingIsFifo(c: Config, cells: seq<byte>, events: seq<Event>)
    requires c.writerWrapsAtOnce && c.readerWrapsAtOnce
    requires |cells| == c.size > 0
    ensures var t := Run(c, Initial(cells), events);
            && t.wr < c.size && t.rd < c.size
            && t.produced == t.consumed + Span(t.cells, t.rd, t.wr)
            && Safe(t)
            && |t.produced| < |t.consumed| + c.size
  {
    RunKeepsInv(c, Initial(cells), events);
  }

  // ---------- Both wraps are needed ----------

  lemma {:induction false} RunConcat(c: Config, s: State, a: seq<Event>, b: seq<Event>)
    requires WellFormed(c, s)
    ensures Run(c, s, a + b) == Run(c, Run(c, s, a), b)
    decreases |a|
  {
    if a == [] {
      assert a + b == b;
    } else {
      assert (a + b)[1..] == a[1..] + b;
      RunConcat(c, Step(c, s, a[0]), a[1..], b);
    }
  }

  /** The steps with which the writer transfers one byte, started at WriterCheck. */
  function WriteOne(c: Config, b: byte): seq<Event> {
    [Writer(b), Writer(b), Writer(b)] + if c.writerWrapsAtOnce then [] else [Writer(b)]
  }

  function ReadOne(c: Config): seq<Event> {
    [Reader, Reader, Reader] + if c.readerWrapsAtOnce then [] else [Reader]
  }

  lemma Unroll(c: Config, s: State, events: seq<Event>)
    requires WellFormed(c, s) && |events| >= 3
    ensures Run(c, s, events) ==
            Run(c, Step(c, Step(c, Step(c, s, events[0]), events[1]), events[2]), events[3..])
  {
    var s1 := Step(c, s, events[0]);
    var s2 := Step(c, s1, events[1]);
    assert events[1..][1..] == events[2..] && events[2..][1..] == events[3..];
    assert Run(c, s1, events[1..]) == Run(c, s2, events[2..]);
  }

  /** A write that finds the neighbouring cell different from `rd` completes if left alone. */
  lemma WriteOneResult(c: Config, s: State, b: byte)
    requires WellFormed(c, s) && s.writer.WriterCheck?
    requires Wrap(c.size, s.wr + 1) != s.rd
    ensures Run(c, s, WriteOne(c, b)) ==
            s.(cells := s.cells[s.wr := b], wr := Wrap(c.size, s.wr + 1), produced := s.produced + [b])
  {
    var events := WriteOne(c, b);
    Unroll(c, s, events);
    if c.writerWrapsAtOnce {
      assert events[3..] == [];
    } else {
      assert events[3..] == [Writer(b)];
    }
  }

  lemma ReadOneResult(c: Config, s: State)
    requires WellFormed(c, s) && s.reader.ReaderCheck?
    requires s.wr != s.rd
    ensures Run(c, s, ReadOne(c)) ==
            s.(rd := Wrap(c.size, s.rd + 1), consumed := s.consumed + [s.cells[s.rd]])
  {
    var events := ReadOne(c);
    Unroll(c, s, events);
    if c.readerWrapsAtOnce {
      assert events[3..] == [];
    } else {
      assert events[3..] == [Reader];
    }
  }

  /** Nobody is inside a call, and the reader has caught up with the writer at offset `p`. */
  ghost predicate CaughtUpAt(c: Config, s: State, p: nat) {
    && WellFormed(c, s) && s.writer.WriterCheck? && s.reader.ReaderCheck?
    && s.wr == s.rd == p && s.consumed == s.produced
  }

  /** Passing single bytes through moves both offsets to the last cell. */
  lemma {:induction false} CatchUpAtLastCell(c: Config, s: State, p: nat) returns (events: seq<Event>)
    requires CaughtUpAt(c, s, p) && p < c.size
    ensures CaughtUpAt(c, Run(c, s, events), c.size - 1)
    decreases c.size - p
  {
    if p == c.size - 1 {
      events := [];
    } else {
      var first := WriteOne(c, 0) + ReadOne(c);
      WriteOneResult(c, s, 0);
      ReadOneResult(c, Run(c, s, WriteOne(c, 0)));
      RunConcat(c, s, WriteOne(c, 0), ReadOne(c));
      var rest := CatchUpAtLastCell(c, Run(c, s, first), p + 1);
      RunConcat(c, s, first, rest);
      events := first + rest;
    }
  }

  /** If the reader can see the writer's offset one past the end, it takes the ring for nonempty after it
    * has itself wrapped, and consumes a stale byte. */
  lemma LateWriterWrapBreaks(c: Config, s: State) returns (events: seq<Event>)
    requires !c.writerWrapsAtOnce && c.size >= 2
    requires CaughtUpAt(c, s, c.size - 1)
    ensures !Safe(Run(c, s, events))
  {
    var start := [Writer(1), Writer(1), Writer(1)];
    Unroll(c, s, start);
    var s1 := Run(c, s, start);
    assert s1.wr == c.size && s1.produced == s.produced + [1];
    ReadOneResult(c, s1);
    var s2 := Run(c, s1, ReadOne(c));
    ReadOneResult(c, s2);
    var s3 := Run(c, s2, ReadOne(c));
    assert |s3.consumed| == |s3.produced| + 1;
    RunConcat(c, s1, ReadOne(c), ReadOne(c));
    RunConcat(c, s, start, ReadOne(c) + ReadOne(c));
    events := start + (ReadOne(c) + ReadOne(c));
  }

  /** While the reader's offset is parked one past the end the writer never sees a full ring. */
  lemma {:induction false} FillPastFull(c: Config, s: State, p: nat) returns (events: seq<Event>)
    requires c.size >= 2 && WellFormed(c, s) && p < c.size
    requires s.writer.WriterCheck? && s.reader.ReaderWrap? && s.rd == c.size && s.wr == p
    requires s.consumed <= s.produced
    requires |s.produced| > |s.consumed| ==> s.produced[|s.consumed|] == 2
    ensures var t := Run(c, s, events);
            && t.writer.WriterCheck? && t.reader.ReaderWrap? && t.rd == c.size && t.wr == 0
            && t.consumed == s.consumed && t.consumed < t.produced && t.produced[|t.consumed|] == 2
    decreases c.size - p
  {
    WriteOneResult(c, s, 2);
    var t := Run(c, s, WriteOne(c, 2));
    if p == c.size - 1 {
      events := WriteOne(c, 2);
    } else {
      var rest := FillPastFull(c, t, p + 1);
      RunConcat(c, s, WriteOne(c, 2), rest);
      events := WriteOne(c, 2) + rest;
    }
  }

  /** If the writer can see the reader's offset one past the end it overruns the ring, and a whole ring of
    * bytes is lost. */
  lemma LateReaderWrapBreaks(c: Config, s: State) returns (events: seq<Event>)
    requires !c.readerWrapsAtOnce && c.size >= 2
    requires CaughtUpAt(c, s, c.size - 1)
    ensures !Safe(Run(c, s, events))
  {
    WriteOneResult(c, s, 1);
    var s1 := Run(c, s, WriteOne(c, 1));
    var park := [Reader, Reader, Reader];
    Unroll(c, s1, park);
    var s2 := Run(c, s1, park);
    assert s2.rd == c.size && s2.consumed == s2.produced;
    var fill := FillPastFull(c, s2, 0);
    var s3 := Run(c, s2, fill);
    var s4 := Run(c, s3, [Reader]);
    assert [Reader][1..] == [];
    assert s4 == Step(c, s3, Reader);
    WriteOneResult(c, s4, 3);
    var s5 := Run(c, s4, WriteOne(c, 3));
    ReadOneResult(c, s5);
    var s6 := Run(c, s5, ReadOne(c));
    assert s6.consumed[|s2.consumed|] == 3 && s6.produced[|s2.consumed|] == 2;
    RunConcat(c, s5, [], ReadOne(c));
    RunConcat(c, s4, WriteOne(c, 3), ReadOne(c));
    RunConcat(c, s3, [Reader], WriteOne(c, 3) + ReadOne(c));
    RunConcat(c, s2, fill, [Reader] + (WriteOne(c, 3) + ReadOne(c)));
    var tail := fill + ([Reader] + (WriteOne(c, 3) + ReadOne(c)));
    RunConcat(c, s1, park, tail);
    RunConcat(c, s, WriteOne(c, 1), park + tail);
    events := WriteOne(c, 1) + (park + tail);
  }

  /** A one-cell ring never accepts anything. */
  ghost predicate NothingHappens(c: Config, s: State) {
    s.wr == 0 && s.rd == 0 && s.writer.WriterCheck? && s.reader.ReaderCheck? && s.consumed == s.produced == []
  }

  lemma {:induction false} OneCellIsInert(c: Config, s: State, events: seq<Event>)
    requires c.size == 1 && WellFormed(c, s) && NothingHappens(c, s)
    ensures NothingHappens(c, Run(c, s, events))
    decreases |events|
  {
    if events != [] {
      OneCellIsInert(c, Step(c, s, events[0]), events[1..]);
    }
  }

  /** The exact condition under which the ring needs no lock: on both sides, the increment and the wrap must
    * not be seen apart (or the ring has no capacity at all). */
  lemma SafeIffBothWrapsAreAtomic(c: Config, cells: seq<byte>)
    requires |cells| == c.size > 0
    ensures (forall events :: Safe(Run(c, Initial(cells), events)))
            <==> (c.size == 1 || (c.writerWrapsAtOnce && c.readerWrapsAtOnce))
  {
    var s := Initial(cells);
    if c.writerWrapsAtOnce && c.readerWrapsAtOnce {
      forall events
        ensures Safe(Run(c, s, events))
      {
        EveryInterleavingIsFifo(c, cells, events);
      }
    } else if c.size == 1 {
      forall events
        ensures Safe(Run(c, s, events))
      {
        OneCellIsInert(c, s, events);
      }
    } else {
      var toEnd := CatchUpAtLastCell(c, s, 0);
      var t := Run(c, s, toEnd);
      var breaking;
      if c.writerWrapsAtOnce {
        breaking := LateReaderWrapBreaks(c, t);
      } else {
        breaking := LateWriterWrapBreaks(c, t);
      }
      RunConcat(c, s, toEnd, breaking);
      assert !Safe(Run(c, s, toEnd + breaking));
    }
  }

  // ---------- What is transferred is what was given ----------

  /** The bytes with which the writer came to its comparison, in order, whether or not the ring was full then. */
  function Offered(c: Config, s: State, events: seq<Event>): seq<byte>
    requires WellFormed(c, s)
    decreases |events|
  {
    if events == [] then []
    else
      (if events[0].Writer? && s.writer.WriterCheck? then [events[0].b] else [])
      + Offered(c, Step(c, s, events[0]), events[1..])
  }

  /** The byte being transferred is the one offered last, and was not counted yet. */
  ghost predicate GivenInv(s: State, given: seq<byte>) {
    match s.writer
    case WriterStore(x) => given != [] && x == given[|given| - 1] && IsSub(s.produced, given[..|given| - 1])
    case WriterAdvance(x) => given != [] && x == given[|given| - 1] && IsSub(s.produced, given[..|given| - 1])
    case _ => IsSub(s.produced, given)
  }

  lemma StepKeepsGiven(c: Config, s: State, given: seq<byte>, e: Event)
    requires WellFormed(c, s) && GivenInv(s, given)
    ensures GivenInv(Step(c, s, e), given + if e.Writer? && s.writer.WriterCheck? then [e.b] else [])
  {
    if e.Writer? {
      match s.writer
      case WriterCheck =>
        SubExtend(s.produced, given, [e.b]);
        assert (given + [e.b])[..|given|] == given;
      case WriterAdvance(x) =>
        SubAppend(s.produced, given[..|given| - 1], [x]);
        assert given[..|given| - 1] + [x] == given;
        assert given + [] == given;
      case _ =>
        assert given + [] == given;
    } else {
      assert given + [] == given;
    }
  }

  lemma {:induction false} RunKeepsGiven(c: Config, s: State, given: seq<byte>, events: seq<Event>)
    requires WellFormed(c, s) && GivenInv(s, given)
    ensures GivenInv(Run(c, s, events), given + Offered(c, s, events))
    decreases |events|
  {
    if events == [] {
      assert given + [] == given;
    } else {
      var now := if events[0].Writer? && s.writer.WriterCheck? then [events[0].b] else [];
      var rest := Offered(c, Step(c, s, events[0]), events[1..]);
      StepKeepsGiven(c, s, given, events[0]);
      RunKeepsGiven(c, Step(c, s, events[0]), given + now, events[1..]);
      assert given + now + rest == given + (now + rest);
    }
  }

  /** Under every interleaving, and however the wraps are seen, the bytes produced are bytes offered, in order, each at
    * most once. */
  lemma EveryByteWasOffered(c: Config, cells: seq<byte>, events: seq<Event>)
    requires |cells| == c.size > 0
    ensures IsSub(Run(c, Initial(cells), events).produced, Offered(c, Initial(cells), events))
  {
    RunKeepsGiven(c, Initial(cells), [], events);
    var given := Offered(c, Initial(cells), events);
    assert [] + given == given;
    if given != [] {
      var front, last := given[..|given| - 1], [given[|given| - 1]];
      assert front + last == given;
      if IsSub(Run(c, Initial(cells), events).produced, front) {
        SubExtend(Run(c, Initial(cells), events).produced, front, last);
      }
    }
  }

  /** A writer left alone transfers exactly its byte if the ring is not full, and a reader left alone exactly the oldest
    * byte if it is not empty; otherwise each stays where it is. */
  lemma ThreadAloneSucceedsIffItCan(c: Config, s: State, b: byte)
    requires c.writerWrapsAtOnce && c.readerWrapsAtOnce && WellFormed(c, s) && Inv(c, s)
    ensures s.writer.WriterCheck? ==>
              if |s.produced| - |s.consumed| < c.size - 1
              then Run(c, s, WriteOne(c, b)).produced == s.produced + [b]
                   && Run(c, s, WriteOne(c, b)).consumed == s.consumed
              else Step(c, s, Writer(b)) == s
    ensures s.reader.ReaderCheck? ==>
              if |s.consumed| < |s.produced|
              then Run(c, s, ReadOne(c)).consumed == s.produced[..|s.consumed| + 1]
                   && Run(c, s, ReadOne(c)).produced == s.produced
              else Step(c, s, Reader) == s
  {
    if s.writer.WriterCheck? && Wrap(c.size, s.wr + 1) != s.rd {
      WriteOneResult(c, s, b);
    }
    if s.reader.ReaderCheck? && s.wr != s.rd {
      ReadOneResult(c, s);
      SpanPop(s.cells, s.rd, s.wr, s.consumed);
    }
  }
}
