/** Audio packages on the wire: how a buffer is cut up, and what receiving a stream amounts to. */
module Packets {
  import opened CharBuffer

  /** SIZE_LEN, the audio bytes in a full package. */
  const SIZE_LEN := 1024

  /** sizeof(data_package_node_t), what a successful sendto returns. */
  const PACKAGE_SIZE := 1041

  /** `data` stands for data_buffer up to send_len. */
  datatype Packet = Packet(endFlag: int, counter: int, data: seq<byte>)

  /** The bytes of a stream of packages. */
  function Flatten(ps: seq<Packet>): seq<byte> {
    if ps == [] then [] else ps[0].data + Flatten(ps[1..])
  }

  lemma {:induction false} FlattenConcat(a: seq<Packet>, b: seq<Packet>)
    ensures Flatten(a + b) == Flatten(a) + Flatten(b)
  {
    if a == [] {
      assert a + b == b;
    } else {
      assert (a + b)[1..] == a[1..] + b;
      FlattenConcat(a[1..], b);
    }
  }

  /** A ring of capacity `cap` after each package in turn was written to it. */
  function PutAll(q: seq<byte>, cap: nat, ps: seq<Packet>): (r: seq<byte>)
    requires |q| <= cap
    ensures |r| <= cap
    decreases |ps|
  {
    if ps == [] then q else PutAll(Put(q, cap, ps[0].data), cap, ps[1..])
  }

  /** Packages are transparent: writing them one by one is one write of their bytes. */
  lemma {:induction false} PutAllIsOnePut(q: seq<byte>, cap: nat, ps: seq<Packet>)
    requires |q| <= cap
    ensures PutAll(q, cap, ps) == Put(q, cap, Flatten(ps))
    decreases |ps|
  {
    if ps != [] {
      PutAllIsOnePut(Put(q, cap, ps[0].data), cap, ps[1..]);
      PutPut(q, cap, ps[0].data, Flatten(ps[1..]));
    }
  }

  // ---------- Cutting a buffer up ----------

  /** The packages UdpSendBuffer makes of `buf` when the running counter stands at `counter`. */
  function Fragments(counter: int, buf: seq<byte>): seq<Packet>
    decreases |buf|
  {
    if buf == [] then []
    else if |buf| >= SIZE_LEN then
      [Packet(0, counter, buf[..SIZE_LEN])] + Fragments(counter + 1, buf[SIZE_LEN..])
    else
      [Packet(0, counter, buf)]
  }

  /** The packages of a sequence of calls; the counter runs on from call to call. */
  function FragmentsOfAll(counter: int, bufs: seq<seq<byte>>): seq<Packet>
    decreases |bufs|
  {
    if bufs == [] then []
    else
      var first := Fragments(counter, bufs[0]);
      first + FragmentsOfAll(counter + |first|, bufs[1..])
  }

  function Concat(bufs: seq<seq<byte>>): seq<byte> {
    if bufs == [] then [] else bufs[0] + Concat(bufs[1..])
  }

  /** No end flag is ever set, and the counters run without a gap from `counter`. */
  predicate Consecutive(ps: seq<Packet>, counter: int) {
    forall i :: 0 <= i < |ps| ==> ps[i].endFlag == 0 && ps[i].counter == counter + i
  }

  lemma ConsecutiveTail(ps: seq<Packet>, counter: int)
    requires Consecutive(ps, counter) && ps != []
    ensures Consecutive(ps[1..], counter + 1)
  {
    forall i | 0 <= i < |ps[1..]|
      ensures ps[1..][i].endFlag == 0 && ps[1..][i].counter == counter + 1 + i
    {
      assert ps[1..][i] == ps[i + 1];
    }
  }

  lemma ConsecutiveJoin(a: seq<Packet>, b: seq<Packet>, counter: int)
    requires Consecutive(a, counter) && Consecutive(b, counter + |a|)
    ensures Consecutive(a + b, counter)
  {
    forall i | 0 <= i < |a + b|
      ensures (a + b)[i].endFlag == 0 && (a + b)[i].counter == counter + i
    {
      if i >= |a| {
        assert (a + b)[i] == b[i - |a|];
      }
    }
  }

  /** Cutting loses nothing and adds nothing; only the last package may be short, none is empty. */
  lemma {:induction false} FragmentsAreFaithful(counter: int, buf: seq<byte>)
    ensures var ps := Fragments(counter, buf);
            && Flatten(ps) == buf
            && Consecutive(ps, counter)
            && (forall i :: 0 <= i < |ps| ==> 1 <= |ps[i].data| <= SIZE_LEN)
            && (forall i :: 0 <= i < |ps| - 1 ==> |ps[i].data| == SIZE_LEN)
    decreases |buf|
  {
    if |buf| >= SIZE_LEN {
      FragmentsAreFaithful(counter + 1, buf[SIZE_LEN..]);
      var ps := Fragments(counter, buf);
      assert ps[1..] == Fragments(counter + 1, buf[SIZE_LEN..]);
      assert buf == buf[..SIZE_LEN] + buf[SIZE_LEN..];
    } else if buf != [] {
      assert Fragments(counter, buf)[1..] == [];
    }
  }

  lemma FragmentsFlatten(counter: int, buf: seq<byte>)
    ensures Flatten(Fragments(counter, buf)) == buf
  {
    FragmentsAreFaithful(counter, buf);
  }

  lemma {:induction false} FragmentsOfAllFlatten(counter: int, bufs: seq<seq<byte>>)
    ensures Flatten(FragmentsOfAll(counter, bufs)) == Concat(bufs)
    decreases |bufs|
  {
    if bufs != [] {
      var first := Fragments(counter, bufs[0]);
      FragmentsFlatten(counter, bufs[0]);
      FragmentsOfAllFlatten(counter + |first|, bufs[1..]);
      FlattenConcat(first, FragmentsOfAll(counter + |first|, bufs[1..]));
    }
  }

  lemma {:induction false} FragmentsOfAllConsecutive(counter: int, bufs: seq<seq<byte>>)
    ensures Consecutive(FragmentsOfAll(counter, bufs), counter)
    decreases |bufs|
  {
    if bufs != [] {
      var first := Fragments(counter, bufs[0]);
      FragmentsAreFaithful(counter, bufs[0]);
      FragmentsOfAllConsecutive(counter + |first|, bufs[1..]);
      ConsecutiveJoin(first, FragmentsOfAll(counter + |first|, bufs[1..]), counter);
    }
  }

  lemma FragmentsOfAllAreFaithful(counter: int, bufs: seq<seq<byte>>)
    ensures var ps := FragmentsOfAll(counter, bufs);
            Flatten(ps) == Concat(bufs) && Consecutive(ps, counter)
  {
    FragmentsOfAllFlatten(counter, bufs);
    FragmentsOfAllConsecutive(counter, bufs);
  }

  class Sender {
    /** The static counter of InitSendPackage. */
    var counter: int

    constructor ()
      ensures counter == 0
    {
      counter := 0;
    }

    /** UdpSendBuffer; the first `linkUp` calls of sendto succeed and the next one fails. */
    method SendBuffer(buffer: seq<byte>, linkUp: nat) returns (ret: int, sent: seq<Packet>)
      modifies this
      ensures sent == Fragments(old(counter), buffer)[..Min(linkUp, |Fragments(old(counter), buffer)|)]
      ensures ret == -1 <==> linkUp < |Fragments(old(counter), buffer)|
      ensures ret != -1 ==> ret == if buffer == [] then 0 else PACKAGE_SIZE
      ensures counter == old(counter) + Min(linkUp + 1, |Fragments(old(counter), buffer)|)
    {
      ret, sent := 0, [];
      var toData := buffer;
      while toData != []
        invariant |sent| <= linkUp && counter == old(counter) + |sent|
        invariant Fragments(old(counter), buffer) == sent + Fragments(counter, toData)
        invariant ret == if toData == buffer then 0 else PACKAGE_SIZE
        invariant |toData| <= |buffer|
        decreases |toData|
      {
        var package;
        ghost var whole := toData;
        if |toData| >= SIZE_LEN {
          package := Packet(0, counter, toData[..SIZE_LEN]);
          toData := toData[SIZE_LEN..];
        } else {
          package := Packet(0, counter, toData);
          toData := [];
        }
        assert Fragments(counter, whole) == [package] + Fragments(counter + 1, toData);
        counter := counter + 1;
        if |sent| == linkUp {
          return -1, sent;
        }
        sent := sent + [package];
        ret := PACKAGE_SIZE;
      }
    }
  }

  // ---------- The receive path in use ----------

  const U32 := 0x1_0000_0000

  /** Conversion of a package counter to unsigned int. */
  function Unsigned(x: int): (u: nat)
    ensures u < U32
  {
    x % U32
  }

  /** PushToDataBuffer2: `desired` stays above what was pushed last. */
  function NextDesired(desired: nat, counter: int): nat {
    var pushed := Unsigned(counter);
    if desired <= pushed then Unsigned(pushed + 1) else desired
  }

  function DesiredAfter(desired: nat, ps: seq<Packet>): nat
    decreases |ps|
  {
    if ps == [] then desired else DesiredAfter(NextDesired(desired, ps[0].counter), ps[1..])
  }

  /** The counter -1, or 2^32 - 1, is the one behind which `desired` overflows. */
  predicate IsTop(counter: int) {
    Unsigned(counter) == U32 - 1
  }

  lemma NextDesiredIs(desired: nat, counter: int)
    ensures NextDesired(desired, counter) ==
            if desired > Unsigned(counter) then desired
            else if IsTop(counter) then 0
            else Unsigned(counter) + 1
  {
  }

  /** A single package never takes `desired` back, except that it starts again from 0 behind the last
    * counter. */
  lemma DesiredGoesBackIffTop(desired: nat, counter: int)
    requires desired < U32
    ensures NextDesired(desired, counter) < desired <==> IsTop(counter) && desired > 0
    ensures IsTop(counter) ==> NextDesired(desired, counter) == 0
  {
    NextDesiredIs(desired, counter);
  }

  /** Some counter of the packages is one below `r`. */
  predicate OneAbove(r: nat, ps: seq<Packet>) {
    exists i :: 0 <= i < |ps| && Unsigned(ps[i].counter) == r - 1
  }

  predicate NoTop(ps: seq<Packet>) {
    forall i :: 0 <= i < |ps| ==> !IsTop(ps[i].counter)
  }

  lemma OneAboveOfTail(r: nat, ps: seq<Packet>)
    requires ps != [] && OneAbove(r, ps[1..])
    ensures OneAbove(r, ps)
  {
    var i :| 0 <= i < |ps[1..]| && Unsigned(ps[1..][i].counter) == r - 1;
    assert Unsigned(ps[i + 1].counter) == r - 1;
  }

  /** Whatever order or losses the network causes, `desired` is one above the largest counter seen, as an
    * unsigned int, or where it stood, if that was higher, until the very last counter arrives. */
  lemma {:induction false} DesiredIsOneAboveLargest(desired: nat, ps: seq<Packet>)
    requires NoTop(ps)
    ensures desired <= DesiredAfter(desired, ps)
    ensures forall i :: 0 <= i < |ps| ==> Unsigned(ps[i].counter) < DesiredAfter(desired, ps)
    ensures DesiredAfter(desired, ps) == desired || OneAbove(DesiredAfter(desired, ps), ps)
    decreases |ps|
  {
    if ps != [] {
      var next := NextDesired(desired, ps[0].counter);
      NextDesiredIs(desired, ps[0].counter);
      assert NoTop(ps[1..]);
      DesiredIsOneAboveLargest(next, ps[1..]);
      var r := DesiredAfter(next, ps[1..]);
      forall i | 0 <= i < |ps|
        ensures Unsigned(ps[i].counter) < r
      {
        if i > 0 {
          assert ps[i] == ps[1..][i - 1];
        }
      }
      if r != next {
        OneAboveOfTail(r, ps);
      }
    }
  }

  /** What arrived up to the very last counter is forgotten then. */
  lemma {:induction false} DesiredRestarts(desired: nat, before: seq<Packet>, top: Packet, after: seq<Packet>)
    requires desired < U32 && IsTop(top.counter)
    ensures DesiredAfter(desired, before + [top] + after) == DesiredAfter(0, after)
    decreases |before|
  {
    var ps := before + [top] + after;
    if before == [] {
      DesiredGoesBackIffTop(desired, top.counter);
      assert ps[0] == top && ps[1..] == after;
    } else {
      NextDesiredIs(desired, before[0].counter);
      DesiredRestarts(NextDesired(desired, before[0].counter), before[1..], top, after);
      assert ps[0] == before[0] && ps[1..] == before[1..] + [top] + after;
    }
  }

  lemma FollowsOne(desired: nat, counter: int)
    requires desired <= Unsigned(counter)
    ensures NextDesired(desired, counter) == Unsigned(counter + 1)
  {
  }

  /** After a gapless stream, of any length and starting anywhere, it is the counter the sender will use next,
    * also when the counter has overflowed on the way. */
  lemma {:induction false} DesiredFollowsStream(desired: nat, counter: int, ps: seq<Packet>)
    requires Consecutive(ps, counter) && ps != [] && desired <= Unsigned(counter)
    ensures DesiredAfter(desired, ps) == Unsigned(counter + |ps|)
    decreases |ps|
  {
    assert ps[0].counter == counter + 0;
    FollowsOne(desired, counter);
    if |ps| == 1 {
      assert DesiredAfter(Unsigned(counter + 1), ps[1..]) == Unsigned(counter + 1);
    } else {
      ConsecutiveTail(ps, counter);
      DesiredFollowsStream(Unsigned(counter + 1), counter + 1, ps[1..]);
    }
  }

  class DirectReceiver {
    const out: Ring
    var networkBufferNum: int
    var desiredValue: nat
    var pushValue: nat

    /** No package is ever parked on this path, so the sorting branch stays dead. */
    ghost predicate Valid()
      reads this, out, out.cells
    {
      out.Valid() && networkBufferNum == 0
    }

    constructor (ring: Ring)
      requires ring.Valid()
      ensures Valid() && out == ring && desiredValue == 0
    {
      out := ring;
      networkBufferNum, desiredValue, pushValue := 0, 0, 0;
    }

    /** SortAlgorithm2, entered with the package just received. */
    method SortAlgorithm2(p: Packet)
      requires Valid()
      modifies this, out`wr, out`sinceClear, out`earlier, out.cells
      ensures Valid()
      ensures out.Contents() == Put(old(out.Contents()), out.Capacity(), p.data)
      ensures desiredValue == NextDesired(old(desiredValue), p.counter)
      ensures pushValue == Unsigned(p.counter)
    {
      if networkBufferNum == 0 {
        var copySize := PushToDataBuffer2(p);
      }
    }

    method PushToDataBuffer2(p: Packet) returns (len: int)
      requires Valid()
      modifies this`pushValue, this`desiredValue, out`wr, out`sinceClear, out`earlier, out.cells
      ensures Valid()
      ensures out.Contents() == Put(old(out.Contents()), out.Capacity(), p.data)
      ensures desiredValue == NextDesired(old(desiredValue), p.counter)
      ensures pushValue == Unsigned(p.counter)
      ensures len == -1 <==> p.data != [] && old(out.Free()) == 0
      ensures len != -1 ==> len == |out.Contents()| - |old(out.Contents())|
    {
      pushValue := Unsigned(p.counter);
      if desiredValue <= pushValue {
        desiredValue := Unsigned(pushValue + 1);
      }
      len := out.Write(p.data);
      if len < 0 {
        return -1;
      }
    }

    /** A whole stream through the path in use. */
    method ReceiveAll(ps: seq<Packet>)
      requires Valid()
      modifies this, out`wr, out`sinceClear, out`earlier, out.cells
      ensures Valid()
      ensures out.Contents() == PutAll(old(out.Contents()), out.Capacity(), ps)
      ensures desiredValue == DesiredAfter(old(desiredValue), ps)
    {
      for i := 0 to |ps|
        invariant Valid()
        invariant PutAll(out.Contents(), out.Capacity(), ps[i..])
               == PutAll(old(out.Contents()), out.Capacity(), ps)
        invariant DesiredAfter(desiredValue, ps[i..]) == DesiredAfter(old(desiredValue), ps)
      {
        assert ps[i..][1..] == ps[i + 1..];
        SortAlgorithm2(ps[i]);
      }
    }
  }

  /** Sending any buffers and receiving the packages in order through the path in use leaves exactly the
    * concatenated bytes behind what was there, if and only if they fit. */
  lemma SendThenReceiveDirect(counter: int, bufs: seq<seq<byte>>, q: seq<byte>, cap: nat)
    requires |q| <= cap
    ensures var r := PutAll(q, cap, FragmentsOfAll(counter, bufs));
            && r == Put(q, cap, Concat(bufs))
            && (r == q + Concat(bufs) <==> |q| + |Concat(bufs)| <= cap)
  {
    FragmentsOfAllAreFaithful(counter, bufs);
    PutAllIsOnePut(q, cap, FragmentsOfAll(counter, bufs));
    PutIsConcatenationIffItFits(q, cap, Concat(bufs));
  }
}
