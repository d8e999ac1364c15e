/** The byte ring buffer that carries audio between the threads of the box.
  *
  * `cells` is the memory between pb_head and pb_tail; `wr` and `rd` are the offsets of pb_writeto and
  * pb_readfrom from pb_head.  One cell always stays free, so `rd == wr` means empty.
  */
module CharBuffer {

  type byte = x: int | 0 <= x < 256

  const BUFFER_FULL := -1
  const BUFFER_EMPTY := -2

  function Min(a: nat, b: nat): nat {
    if a <= b then a else b
  }

  // ---------- Offsets on a ring of `size` cells ----------

  function Advance(size: nat, p: nat, k: nat): nat
    requires p < size && k <= size
  {
    if p + k < size then p + k else p + k - size
  }

  function Retreat(size: nat, p: nat, k: nat): nat
    requires p < size && k <= size
  {
    if k <= p then p - k else p + size - k
  }

  /** The wrap after an increment. */
  function Wrap(size: nat, p: nat): nat {
    if p >= size then 0 else p
  }

  /** Number of cells from `rd` forward to `wr`. */
  function Distance(size: nat, rd: nat, wr: nat): nat
    requires rd < size && wr < size
  {
    if rd <= wr then wr - rd else size - rd + wr
  }

  /** The bytes from `rd` forward to `wr`, oldest first: the abstract content of a ring. */
  function Span(cells: seq<byte>, rd: nat, wr: nat): (s: seq<byte>)
    requires rd < |cells| && wr < |cells|
    ensures |s| == Distance(|cells|, rd, wr)
  {
    if rd <= wr then cells[rd..wr] else cells[rd..] + cells[..wr]
  }

  lemma SpanAt(cells: seq<byte>, rd: nat, wr: nat, i: nat)
    requires rd < |cells| && wr < |cells| && i < Distance(|cells|, rd, wr)
    ensures Span(cells, rd, wr)[i] == cells[Advance(|cells|, rd, i)]
  {
  }

  /** Storing at `wr` and moving it one cell on appends one byte, unless that would meet `rd`. */
  lemma SpanPush(cells: seq<byte>, rd: nat, wr: nat, b: byte)
    requires rd < |cells| && wr < |cells|
    requires Advance(|cells|, wr, 1) != rd
    ensures Span(cells[wr := b], rd, Advance(|cells|, wr, 1)) == Span(cells, rd, wr) + [b]
  {
  }

  /** Moving `rd` forward by `k` drops the `k` oldest bytes. */
  lemma SpanAdvance(cells: seq<byte>, rd: nat, wr: nat, k: nat)
    requires rd < |cells| && wr < |cells| && k <= Distance(|cells|, rd, wr)
    ensures Span(cells, Advance(|cells|, rd, k), wr) == Span(cells, rd, wr)[k..]
  {
    var r := Advance(|cells|, rd, k);
    var s, t := Span(cells, rd, wr), Span(cells, r, wr);
    assert |t| == |s[k..]|;
    forall i | 0 <= i < |t|
      ensures t[i] == s[k..][i]
    {
      SpanAt(cells, r, wr, i);
      SpanAt(cells, rd, wr, k + i);
    }
  }

  /** Moving `rd` back by at most the free space re-exposes `k` cells in front and keeps the rest. */
  lemma SpanRetreat(cells: seq<byte>, rd: nat, wr: nat, k: nat)
    requires rd < |cells| && wr < |cells|
    requires k + Distance(|cells|, rd, wr) < |cells|
    ensures var r := Retreat(|cells|, rd, k);
            && |Span(cells, r, wr)| == k + |Span(cells, rd, wr)|
            && Span(cells, r, wr)[k..] == Span(cells, rd, wr)
  {
  }

  /** A push-back of the `k` bytes just read, with nothing written in between, always fits and
    * restores both the read offset and the content. */
  lemma PushBackUndoesRead(cells: seq<byte>, rd: nat, wr: nat, k: nat)
    requires rd < |cells| && wr < |cells| && k <= Distance(|cells|, rd, wr)
    ensures var r := Advance(|cells|, rd, k);
            && k + Distance(|cells|, r, wr) < |cells|
            && Retreat(|cells|, r, k) == rd
            && Span(cells, Retreat(|cells|, r, k), wr) == Span(cells, rd, wr)
  {
  }

  /** `since` was written from offset 0 on: first `earlier`, which used up the memory one or more times if it
    * is anything, then what lies before the writer now. */
  ghost predicate Replayable(cells: seq<byte>, wr: nat, since: seq<byte>, earlier: seq<byte>)
    requires wr < |cells|
  {
    && since == earlier + cells[..wr]
    && (earlier == [] || |earlier| >= |cells|)
  }

  lemma StoreKeepsReplayable(cells: seq<byte>, wr: nat, since: seq<byte>, earlier: seq<byte>, b: byte)
    requires wr < |cells| && Replayable(cells, wr, since, earlier)
    ensures Replayable(cells[wr := b], Advance(|cells|, wr, 1), since + [b],
                       if wr + 1 < |cells| then earlier else since + [b])
  {
    assert cells[wr := b][..wr + 1] == cells[..wr] + [b];
  }

  lemma Snoc(q: seq<byte>, src: seq<byte>, k: nat)
    requires k < |src|
    ensures q + src[..k + 1] == (q + src[..k]) + [src[k]]
  {
  }

  lemma Shift(out: seq<byte>, b: byte, rest: seq<byte>)
    ensures (out + [b]) + rest == out + ([b] + rest)
  {
  }

  // ---------- The bounded FIFO the ring stands for ----------

  /** A queue of capacity `cap` accepts the longest prefix of `src` that fits. */
  function Put(q: seq<byte>, cap: nat, src: seq<byte>): (r: seq<byte>)
    requires |q| <= cap
    ensures |r| <= cap && q <= r
  {
    q + src[..Min(|src|, cap - |q|)]
  }

  /** Two writes are one write of the concatenation; this is what lets callers cut a stream anywhere. */
  lemma PutPut(q: seq<byte>, cap: nat, a: seq<byte>, b: seq<byte>)
    requires |q| <= cap
    ensures Put(Put(q, cap, a), cap, b) == Put(q, cap, a + b)
  {
    var k := Min(|a|, cap - |q|);
    if k < |a| {
      assert (a + b)[..k] == a[..k];
    } else {
      var j := Min(|b|, cap - |q| - |a|);
      assert (a + b)[..|a| + j] == a + b[..j];
      assert a[..k] == a;
    }
  }

  /** A write is complete exactly when the bytes fit. */
  lemma PutIsConcatenationIffItFits(q: seq<byte>, cap: nat, src: seq<byte>)
    requires |q| <= cap
    ensures Put(q, cap, src) == q + src <==> |q| + |src| <= cap
  {
    if |q| + |src| <= cap {
      assert src[..|src|] == src;
    } else {
      assert |Put(q, cap, src)| == cap;
    }
  }

  // ---------- The ring itself ----------

  /** Whether another thread clears the ring during UpdateCurrentReadPointer2, and where: before the test for
    * an empty ring, or between that test and the last look at the clear count. */
  datatype ClearDuring = Undisturbed | BeforeTheTest | BeforeTheFlag

  class Ring {
    const cells: array<byte>
    var wr: nat
    var rd: nat
    var clearCount: byte

    /** Every byte accepted since the last Clear, and the part of it before the writer last wrapped; only
      * Brush depends on them. */
    ghost var sinceClear: seq<byte>
    ghost var earlier: seq<byte>

    ghost predicate Valid()
      reads this, cells
    {
      && wr < cells.Length
      && rd < cells.Length
      && Replayable(cells[..], wr, sinceClear, earlier)
    }

    ghost function Contents(): (s: seq<byte>)
      requires Valid()
      reads this, cells
      ensures |s| <= Capacity()
    {
      Span(cells[..], rd, wr)
    }

    function Capacity(): int {
      cells.Length - 1
    }

    ghost function Free(): nat
      requires Valid()
      reads this, cells
    {
      Capacity() - |Contents()|
    }

    constructor (bufferSize: nat)
      requires bufferSize > 0
      ensures Valid() && fresh(cells) && cells.Length == bufferSize
      ensures Contents() == [] && sinceClear == []
    {
      cells := new byte[bufferSize];
      wr, rd, clearCount, sinceClear, earlier := 0, 0, 0, [], [];
    }

    /** The body of the write loop once there is room: store, advance, wrap. */
    method StoreByte(b: byte)
      requires Valid()
      requires Advance(cells.Length, wr, 1) != rd
      modifies this`wr, this`sinceClear, this`earlier, cells
      ensures Valid()
      ensures Contents() == old(Contents()) + [b]
      ensures sinceClear == old(sinceClear) + [b]
    {
      ghost var before := cells[..];
      SpanPush(before, rd, wr, b);
      StoreKeepsReplayable(before, wr, sinceClear, earlier, b);
      cells[wr] := b;
      assert cells[..] == before[wr := b];
      wr := wr + 1;
      sinceClear := sinceClear + [b];
      if wr >= cells.Length {
        wr := 0;
        earlier := sinceClear;
      }
    }

    /** CharBufferWrite: byte by byte until the source is used up or the ring is full. */
    method Write(src: seq<byte>) returns (ret: int)
      requires Valid()
      modifies this`wr, this`sinceClear, this`earlier, cells
      ensures Valid()
      ensures Contents() == Put(old(Contents()), Capacity(), src)
      ensures sinceClear == old(sinceClear) + src[..|Contents()| - |old(Contents())|]
      ensures src == [] ==> ret == 0
      ensures src != [] && old(Free()) == 0 ==> ret == BUFFER_FULL
      ensures src != [] && old(Free()) > 0 ==> ret == |Contents()| - |old(Contents())| > 0
    {
      ret := 0;
      var copied: nat := 0;
      ghost var q, since := Contents(), sinceClear;
      while copied < |src|
        invariant Valid() && copied <= |src| && |q| + copied <= Capacity()
        invariant Contents() == q + src[..copied]
        invariant sinceClear == since + src[..copied]
        invariant ret == copied
      {
        var next := wr + 1;
        if next >= cells.Length {
          next := 0;
        }
        if next == rd {
          assert |q| + copied == Capacity();
          if copied == 0 {
            ret := BUFFER_FULL;
          }
          break;
        }
        Snoc(q, src, copied);
        Snoc(since, src, copied);
        StoreByte(src[copied]);
        copied := copied + 1;
        ret := copied;
      }
      assert copied == Min(|src|, Capacity() - |q|);
    }

    /** The body of the read loop: load, advance, wrap. */
    method TakeByte() returns (b: byte)
      requires Valid() && rd != wr
      modifies this`rd
      ensures Valid() && rd == Advance(cells.Length, old(rd), 1)
      ensures old(Contents()) == [b] + Contents()
    {
      SpanAt(cells[..], rd, wr, 0);
      SpanAdvance(cells[..], rd, wr, 1);
      b := cells[rd];
      rd := rd + 1;
      if rd >= cells.Length {
        rd := 0;
      }
    }

    /** CharBufferRead into a destination of `destSize` bytes. */
    method Read(destSize: nat) returns (ret: int, out: seq<byte>)
      requires Valid()
      modifies this`rd
      ensures Valid()
      ensures out == old(Contents())[..Min(destSize, |old(Contents())|)]
      ensures Contents() == old(Contents())[|out|..]
      ensures rd == Advance(cells.Length, old(rd), |out|)
      ensures ret == if old(Contents()) == [] then BUFFER_EMPTY else |out|
    {
      ret, out := 0, [];
      ghost var q, at := Contents(), rd;
      while true
        invariant Valid()
        invariant |out| <= destSize && out + Contents() == q
        invariant rd == Advance(cells.Length, at, |out|)
        invariant ret == |out|
        decreases destSize - |out|
      {
        if wr == rd {
          if |out| == 0 {
            ret := BUFFER_EMPTY;
          }
          break;
        }
        if |out| >= destSize {
          break;
        }
        var b := TakeByte();
        Shift(out, b, Contents());
        out := out + [b];
        ret := |out|;
      }
      assert out == q[..|out|] && Contents() == q[|out|..];
    }

    /** CharBufferIsFull: despite its name, the number of bytes that can still be written. */
    method IsFull() returns (ret: int)
      requires Valid()
      ensures ret == if Free() == 0 then BUFFER_FULL else Free()
    {
      var next := wr + 1;
      if next >= cells.Length {
        next := 0;
      }
      if next == rd {
        return BUFFER_FULL;
      }
      if rd <= wr {
        ret := cells.Length - (wr - rd) - 1;
      } else {
        ret := rd - wr - 1;
      }
    }

    /** CharBufferCurrentReadPointer: the length, and how much of it lies contiguously at `at`. */
    method CurrentReadPointer() returns (total: nat, rightDelta: nat, at: nat)
      requires Valid()
      ensures total == |Contents()|
      ensures rightDelta <= total && at + rightDelta <= cells.Length
      ensures cells[at..at + rightDelta] == Contents()[..rightDelta]
      ensures rightDelta == 0 <==> Contents() == []
      ensures rightDelta < total ==> at + rightDelta == cells.Length
    {
      at := rd;
      if rd <= wr {
        total := wr - rd;
        rightDelta := total;
      } else {
        total := (cells.Length - rd) + wr;
        rightDelta := cells.Length - rd;
      }
    }

    /** CharBufferUpdateCurrentReadPointer: the consumer took `origin - left` bytes in place.  If more is left
      * than there was, the read offset moves back without any check; then the bytes must exist. */
    method UpdateCurrentReadPointer(origin: nat, left: nat)
      requires Valid()
      requires left - origin <= rd
      modifies this`rd
      ensures Valid()
      ensures left <= origin ==> Contents() == old(Contents())[Min(origin - left, |old(Contents())|)..]
      ensures left > origin ==> rd == if old(rd) == wr then wr else old(rd) - (left - origin)
    {
      var count := origin - left;
      if count >= 0 {
        SpanAdvance(cells[..], rd, wr, Min(count, Distance(cells.Length, rd, wr)));
      }
      if rd == wr {
        return;
      } else if rd < wr {
        if rd + count >= wr {
          rd := wr;
        } else {
          rd := rd + count;
        }
      } else {
        if rd + count >= cells.Length {
          var delta1 := cells.Length - rd;
          var delta2 := wr;
          var delta3 := count - delta1;
          if delta3 >= delta2 {
            rd := delta2;
          } else {
            rd := delta3;
          }
        } else {
          rd := rd + count;
        }
      }
    }

    /** CharBufferUpdateCurrentReadPointer2: as above, unless the ring was cleared after the caller
      * sampled `lastClearFlag`.  Another thread may clear the ring during the call, too. */
    method UpdateCurrentReadPointer2(origin: nat, left: nat, lastClearFlag: byte, clear: ClearDuring)
      requires Valid()
      requires left - origin <= rd
      modifies this
      ensures Valid()
      ensures clearCount == if clear.Undisturbed? then old(clearCount) else (old(clearCount) + 1) % 256
      ensures clear.Undisturbed? && lastClearFlag == clearCount && left <= origin ==>
                Contents() == old(Contents())[Min(origin - left, |old(Contents())|)..] && wr == old(wr)
      ensures clear.Undisturbed? && lastClearFlag == clearCount && left > origin ==>
                rd == (if old(rd) == wr then wr else old(rd) - (left - origin)) && wr == old(wr)
      ensures clear.Undisturbed? && lastClearFlag != clearCount ==> rd == old(rd) && wr == old(wr)
      ensures clear.BeforeTheTest? || (clear.BeforeTheFlag? && lastClearFlag == clearCount) ==> Contents() == []
      // A clear of a nonempty ring that comes after the offsets were read is undone.
      ensures clear.BeforeTheFlag? && lastClearFlag != clearCount ==>
                if old(rd) == old(wr) then Contents() == [] else rd == old(rd) && wr == old(wr)
    {
      var readBackup, writeBackup := rd, wr;
      ghost var since, before := sinceClear, earlier;
      if clear.BeforeTheTest? {
        Clear();
      }
      if rd == wr {
        if clear.BeforeTheFlag? {
          Clear();
        }
        return;
      }
      UpdateCurrentReadPointer(origin, left);
      EndOfUpdate(readBackup, writeBackup, since, before, lastClearFlag, clear.BeforeTheFlag?);
    }

    /** The last look at the clear count, after another thread may have cleared the ring. */
    method EndOfUpdate(read: nat, write: nat, ghost since: seq<byte>, ghost before: seq<byte>,
                       lastClearFlag: byte, cleared: bool)
      requires Valid() && read < cells.Length && write < cells.Length
      requires Replayable(cells[..], write, since, before)
      modifies this
      ensures Valid()
      ensures clearCount == if cleared then (old(clearCount) + 1) % 256 else old(clearCount)
      ensures lastClearFlag != clearCount ==> rd == read && wr == write
      ensures lastClearFlag == clearCount ==>
                if cleared then Contents() == [] else rd == old(rd) && wr == old(wr)
    {
      if cleared {
        Clear();
      }
      if lastClearFlag != clearCount {
        PutBack(read, write, since, before);
      }
    }

    /** Both offsets as they were read at the beginning of a call; the memory has not changed since. */
    method PutBack(read: nat, write: nat, ghost since: seq<byte>, ghost before: seq<byte>)
      requires read < cells.Length && write < cells.Length && Replayable(cells[..], write, since, before)
      modifies this`rd, this`wr, this`sinceClear, this`earlier
      ensures Valid() && rd == read && wr == write && sinceClear == since
    {
      rd := read;
      wr := write;
      sinceClear, earlier := since, before;
    }

    /** SingleThreadCharBufferBackWrite: give back the last `backLen` bytes that were read.
      * The result is 0 whether or not it fitted.  A negative length moves the read offset on without any
      * check, so it must not lead past the memory. */
    method BackWrite(backLen: int) returns (ret: int)
      requires Valid()
      requires rd - backLen < cells.Length
      modifies this`rd
      ensures Valid() && ret == 0
      ensures backLen < 0 ==> rd == old(rd) - backLen
      ensures 0 <= backLen <= old(Free()) ==>
                && rd == Retreat(cells.Length, old(rd), backLen)
                && |Contents()| == backLen + |old(Contents())|
                && Contents()[backLen..] == old(Contents())
      ensures backLen > old(Free()) ==> rd == old(rd) && Contents() == old(Contents())
    {
      ret := 0;
      if 0 <= backLen < cells.Length - Distance(cells.Length, rd, wr) {
        SpanRetreat(cells[..], rd, wr, backLen);
      }
      if rd <= wr {
        if rd >= backLen {
          rd := rd - backLen;
        } else if rd + (cells.Length - wr - 1) >= backLen {
          var rest := backLen - rd;
          rd := cells.Length - rest;
        }
      } else {
        if rd - wr - 1 >= backLen {
          rd := rd - backLen;
        }
      }
    }

    /** CharBufferClear. */
    method Clear()
      requires Valid()
      modifies this
      ensures Valid() && Contents() == [] && sinceClear == []
      ensures clearCount == (old(clearCount) + 1) % 256 != old(clearCount)
    {
      wr, rd := 0, 0;
      clearCount := (clearCount + 1) % 256;
      sinceClear, earlier := [], [];
    }

    /** CharBufferBrush: rewind the reader to the start of the memory.  This replays the last `wr` bytes
      * accepted since the last Clear, and all of them while the writer has not used up the memory. */
    method Brush()
      requires Valid()
      modifies this`rd
      ensures Valid()
      ensures wr <= |sinceClear| && Contents() == sinceClear[|sinceClear| - wr..]
      ensures |sinceClear| <= Capacity() ==> Contents() == sinceClear
    {
      rd := 0;
      assert cells[..][0..wr] == cells[..wr];
    }
  }
}
