/** The block queue that carries command packages between threads (the branch compiled without a mutex).
  *
  * Offsets count blocks, so pb_tail is offset `slots.Length`.  `rd` is the block that was read last: a block
  * in use is one strictly after `rd` and before `wr`, and one block always stays out of use.
  */
module BlockBuffer {
  import opened CharBuffer

  const BUFFER_RW_BUSY := -4

  /** The scans give up past these positions. */
  const POSITION_LIMIT := 256
  const COUNT_LIMIT := 255

  /** One block: the length word, and room for `|bytes|` bytes. */
  datatype Slot = Slot(len: nat, bytes: seq<byte>)

  function Record(s: Slot): seq<byte> {
    s.bytes[..Min(s.len, |s.bytes|)]
  }

  // ---------- What the two scans at the start of a write or a read decide ----------

  /** Blocks strictly between `rd` and `wr`. */
  function Gap(n: nat, rd: nat, wr: nat): (g: nat)
    requires rd < n && wr < n
    ensures g < n
  {
    Distance(n, Advance(n, rd, 1), wr)
  }

  lemma GapReachesWriter(n: nat, rd: nat, wr: nat, k: nat)
    requires rd < n && wr < n && k < n
    ensures Advance(n, rd, 1 + k) == wr <==> k == Gap(n, rd, wr)
  {
  }

  predicate PositionAccepted(n: nat, p: nat) {
    p < n && p <= POSITION_LIMIT
  }

  datatype Scan = Busy | Waiting(count: nat)

  function ScanOffsets(n: nat, rd: nat, wr: nat): Scan {
    if PositionAccepted(n, rd) && PositionAccepted(n, wr) then
      var g := Gap(n, rd, wr);
      if g > COUNT_LIMIT then Busy else Waiting(g)
    else
      Busy
  }

  /** With at most 256 blocks the scan refuses exactly the offset seen between increment and wrap. */
  lemma BusyIffSeenAtTail(n: nat, rd: nat, wr: nat)
    requires n <= POSITION_LIMIT && rd <= n && wr <= n
    ensures ScanOffsets(n, rd, wr).Busy? <==> rd == n || wr == n
  {
  }

  /** BlockBufferPtrIsValid, the half for one offset: walk the block starts up to `n`. */
  method OffsetIsValid(n: nat, p: nat) returns (ok: bool)
    ensures ok <==> PositionAccepted(n, p)
  {
    if p > n {
      return false;
    }
    var pos := 0;
    for i := 0 to n
      invariant pos == i <= p
      invariant i <= POSITION_LIMIT + 1 && (i > 0 ==> i - 1 < POSITION_LIMIT)
    {
      if p != pos {
        pos := pos + 1;
      } else {
        return true;
      }
      if i >= POSITION_LIMIT {
        return false;
      }
    }
    return false;
  }

  /** The counting loop shared by BlockBufferWrite and BlockBufferRead. */
  method Count(n: nat, readfrom: nat, writeto: nat) returns (s: Scan)
    requires readfrom < n && writeto < n
    ensures s == if Gap(n, readfrom, writeto) > COUNT_LIMIT then Busy else Waiting(Gap(n, readfrom, writeto))
  {
    var tmp := readfrom;
    var itemsWaiting := 0;
    var i := 0;
    while i < n
      invariant i == itemsWaiting <= n
      invariant tmp == Advance(n, readfrom, i)
      invariant i <= Gap(n, readfrom, writeto) && i <= COUNT_LIMIT
    {
      GapReachesWriter(n, readfrom, writeto, i);
      tmp := tmp + 1;
      if tmp >= n {
        tmp := 0;
      }
      if tmp != writeto {
        itemsWaiting := itemsWaiting + 1;
      } else {
        return Waiting(itemsWaiting);
      }
      if i >= COUNT_LIMIT {
        return Busy;
      }
      i := i + 1;
    }
    return Busy;
  }

  /** The opening of BlockBufferWrite and BlockBufferRead: validate both offsets, then count. */
  method ScanFor(n: nat, readfrom: nat, writeto: nat) returns (s: Scan)
    ensures s == ScanOffsets(n, readfrom, writeto)
  {
    var readOk := OffsetIsValid(n, readfrom);
    var writeOk := OffsetIsValid(n, writeto);
    if !readOk || !writeOk {
      return Busy;
    }
    s := Count(n, readfrom, writeto);
  }

  // ---------- The queue used by one thread at a time ----------

  /** The records in the blocks after `rd` and before `wr`, oldest first. */
  function Records(slots: seq<Slot>, rd: nat, wr: nat): (q: seq<seq<byte>>)
    requires rd < |slots| && wr < |slots|
    ensures |q| == Gap(|slots|, rd, wr)
  {
    seq(Gap(|slots|, rd, wr), k requires 0 <= k < Gap(|slots|, rd, wr) =>
      Record(slots[Advance(|slots|, rd, 1 + k)]))
  }

  lemma RecordsPush(slots: seq<Slot>, rd: nat, wr: nat, x: Slot)
    requires rd < |slots| && wr < |slots| && Gap(|slots|, rd, wr) < |slots| - 1
    ensures Records(slots[wr := x], rd, Advance(|slots|, wr, 1)) == Records(slots, rd, wr) + [Record(x)]
  {
  }

  lemma RecordsPop(slots: seq<Slot>, rd: nat, wr: nat)
    requires rd < |slots| && wr < |slots| && Gap(|slots|, rd, wr) > 0
    ensures Records(slots, rd, wr) ==
            [Record(slots[Advance(|slots|, rd, 1)])] + Records(slots, Advance(|slots|, rd, 1), wr)
  {
  }

  class Queue {
    const slots: array<Slot>
    const itemSize: nat
    var wr: nat
    var rd: nat
    var itemsWaiting: int

    ghost predicate Valid()
      reads this, slots
    {
      && slots.Length >= 2 && wr < slots.Length && rd < slots.Length
      && (forall i :: 0 <= i < slots.Length ==> slots[i].len <= |slots[i].bytes| == itemSize)
      && itemsWaiting == Gap(slots.Length, rd, wr)
    }

    ghost function Contents(): (q: seq<seq<byte>>)
      requires Valid()
      reads this, slots
      ensures |q| == Gap(slots.Length, rd, wr)
    {
      Records(slots[..], rd, wr)
    }

    /** No block position or count reaches the limits of the scans. */
    ghost predicate WithinLimits()
      requires Valid()
      reads this, slots
    {
      ScanOffsets(slots.Length, rd, wr).Waiting?
    }

    constructor (totalItems: nat, size: nat)
      requires totalItems > 0
      ensures Valid() && fresh(slots)
      ensures Contents() == [] && itemSize == size
      ensures slots.Length == if totalItems == 1 then 2 else totalItems
    {
      var total := if totalItems == 1 then 2 else totalItems;
      slots := new Slot[total](_ => Slot(0, seq(size, _ => 0)));
      itemSize := size;
      wr, rd, itemsWaiting := 0, total - 1, 0;
    }

    method Write(src: seq<byte>) returns (ret: int)
      requires Valid()
      modifies this`wr, this`itemsWaiting, slots
      ensures Valid()
      ensures ret == BUFFER_RW_BUSY <==> !old(WithinLimits())
      ensures ret == BUFFER_FULL <==> old(WithinLimits()) && |old(Contents())| == slots.Length - 1
      ensures ret < 0 ==> Contents() == old(Contents())
      ensures ret >= 0 ==> ret == Min(|src|, itemSize) && Contents() == old(Contents()) + [src[..ret]]
      ensures slots.Length <= POSITION_LIMIT ==> ret != BUFFER_RW_BUSY
    {
      var n := slots.Length;
      var scan := ScanFor(n, rd, wr);
      if scan.Busy? {
        return BUFFER_RW_BUSY;
      }
      if scan.count < n - 1 {
        GapReachesWriter(n, rd, wr, scan.count);
        var len := Min(|src|, itemSize);
        ghost var before, w := slots[..], wr;
        slots[wr] := slots[wr].(len := len);
        slots[wr] := slots[wr].(bytes := src[..len] + slots[wr].bytes[len..]);
        itemsWaiting := itemsWaiting + 1;
        wr := wr + 1;
        if wr >= n {
          wr := 0;
        }
        ret := len;
        assert slots[..] == before[w := slots[w]];
        assert Record(slots[w]) == src[..len];
        RecordsPush(before, rd, w, slots[w]);
      } else {
        ret := BUFFER_FULL;
      }
    }

    /** The reader moves on before it copies. */
    method PopBlock()
      requires Valid() && Contents() != []
      modifies this`rd, this`itemsWaiting
      ensures Valid() && Contents() == old(Contents())[1..]
      ensures Record(slots[rd]) == old(Contents())[0]
    {
      RecordsPop(slots[..], rd, wr);
      rd := rd + 1;
      if rd >= slots.Length {
        rd := 0;
      }
      itemsWaiting := itemsWaiting - 1;
    }

    method Read(destSize: nat) returns (ret: int, out: seq<byte>)
      requires Valid()
      modifies this`rd, this`itemsWaiting
      ensures Valid()
      ensures ret == BUFFER_RW_BUSY <==> !old(WithinLimits())
      ensures ret == BUFFER_EMPTY <==> old(WithinLimits()) && old(Contents()) == []
      ensures ret < 0 ==> out == [] && Contents() == old(Contents())
      ensures ret >= 0 ==>
                && old(Contents()) != [] && Contents() == old(Contents())[1..]
                && ret == |out| && out == old(Contents())[0][..Min(destSize, |old(Contents())[0]|)]
      ensures slots.Length <= POSITION_LIMIT ==> ret != BUFFER_RW_BUSY
    {
      var n := slots.Length;
      out := [];
      var scan := ScanFor(n, rd, wr);
      if scan.Busy? {
        return BUFFER_RW_BUSY, [];
      }
      if scan.count > 0 {
        PopBlock();
        var realLen := slots[rd].len;
        var len := Min(destSize, realLen);
        out := slots[rd].bytes[..len];
        assert Record(slots[rd])[..len] == out;
        ret := len;
      } else {
        ret := BUFFER_EMPTY;
      }
    }

    /** BlockBufferCnt: the same walk without limits; it always meets the writer. */
    method Cnt() returns (ret: int)
      requires Valid()
      ensures ret == |Contents()| == itemsWaiting
    {
      var tmp := rd;
      ret := 0;
      while true
        invariant 0 <= ret <= Gap(slots.Length, rd, wr)
        invariant tmp == Advance(slots.Length, rd, ret)
        decreases Gap(slots.Length, rd, wr) - ret
      {
        GapReachesWriter(slots.Length, rd, wr, ret);
        tmp := tmp + 1;
        if tmp >= slots.Length {
          tmp := 0;
        }
        if tmp != wr {
          ret := ret + 1;
        } else {
          break;
        }
      }
    }

    /** BlockBufferEmpty. */
    method Empty() returns (ret: bool)
      requires Valid()
      ensures ret <==> Contents() == []
    {
      var items := Cnt();
      ret := items == 0;
    }

    /** BlockBufferFull compares with all blocks although one is never used, so it always answers no,
      * also when Write would answer BUFFER_FULL. */
    method Full() returns (ret: bool)
      requires Valid()
      ensures !ret
    {
      var items := Cnt();
      ret := items == slots.Length;
    }

    method Clear()
      requires Valid()
      modifies this
      ensures Valid() && Contents() == []
    {
      itemsWaiting := 0;
      wr := 0;
      rd := slots.Length - 1;
    }
  }
}
