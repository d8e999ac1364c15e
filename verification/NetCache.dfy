/** The six-slot receive cache: packages wait in slots reached through a rotating pointer array, until three
  * more have arrived or a flush is forced.
  */
module NetCache {
  import opened CharBuffer
  import opened Packets

  /** Cache_PACK_NUM and the fill level at which packages start to be passed on. */
  const SLOTS := 6
  const CRITICAL := 3

  // ---------- The cache as a queue of packages ----------

  /** `pushed` is what one call passed on to the audio ring. */
  datatype Effect = Effect(queue: seq<Packet>, flag: int, accepted: bool, pushed: seq<Packet>)

  /** AddPakageToCache refuses a package not newer than the oldest one waiting. */
  predicate AddAccepts(q: seq<Packet>, p: Packet) {
    q == [] || p.counter > q[0].counter
  }

  /** The package lies in one of the windows AddOrAbandonFun knows. */
  predicate InWindow(q: seq<Packet>, p: Packet)
    requires q != []
  {
    var last := q[|q| - 1].counter;
    || p.counter == last + 1
    || last < p.counter < last + CRITICAL * 3
  }

  predicate LateButKept(q: seq<Packet>, p: Packet)
    requires q != []
  {
    var last := q[|q| - 1].counter;
    p.counter < last && (p.counter > q[0].counter || p.counter < CRITICAL * 4)
  }

  predicate Accepts(q: seq<Packet>, p: Packet) {
    if q == [] then true
    else if InWindow(q, p) then AddAccepts(q, p)
    else if LateButKept(q, p) then true
    else |q| < CRITICAL && AddAccepts(q, p)
  }

  /** The push flag after sorting. */
  function SortedFlag(q: seq<Packet>, flag: int, p: Packet): int {
    if q == [] then flag
    else if |q| >= CRITICAL then 1
    else if !InWindow(q, p) && !LateButKept(q, p) then 1
    else flag
  }

  /** One received package. */
  function Receive(q: seq<Packet>, flag: int, p: Packet): Effect {
    var accepted := Accepts(q, p);
    var all := if accepted then q + [p] else q;
    var sorted := SortedFlag(q, flag, p);
    if p.endFlag == 1 then
      Effect([], 0, accepted, all)
    else if sorted != 0 && all != [] then
      var kept := all[1..];
      Effect(kept, if kept == [] || |all| <= CRITICAL then 0 else sorted, accepted, all[..1])
    else
      Effect(all, sorted, accepted, [])
  }

  /** Every package taken in comes out once and in the order it came in, and no more than three wait. */
  lemma ReceiveConserves(q: seq<Packet>, flag: int, p: Packet)
    requires |q| <= CRITICAL
    ensures var e := Receive(q, flag, p);
            && e.pushed + e.queue == q + (if e.accepted then [p] else [])
            && |e.queue| <= CRITICAL
            && (e.flag != 0 ==> e.queue != [])
            && (q == [] ==> e.accepted)
  {
  }

  // ---------- Whole runs ----------

  datatype Event = Arrival(p: Packet) | Flush

  /** `accepted` and `delivered` are history. */
  datatype Session = Session(queue: seq<Packet>, flag: int, accepted: seq<Packet>, delivered: seq<Packet>)

  function Step(s: Session, e: Event): Session {
    match e
    case Arrival(p) =>
      var r := Receive(s.queue, s.flag, p);
      Session(r.queue, r.flag, if r.accepted then s.accepted + [p] else s.accepted, s.delivered + r.pushed)
    case Flush =>
      // ForcePushDataCacheToBuffer, with the reset the next arrival performs.
      Session([], 0, s.accepted, s.delivered + s.queue)
  }

  function Run(s: Session, events: seq<Event>): Session
    decreases |events|
  {
    if events == [] then s else Run(Step(s, events[0]), events[1..])
  }

  ghost predicate Conserved(s: Session) {
    s.delivered + s.queue == s.accepted && |s.queue| <= CRITICAL
  }

  lemma StepConserves(s: Session, e: Event)
    requires Conserved(s)
    ensures Conserved(Step(s, e))
  {
    if e.Arrival? {
      ReceiveConserves(s.queue, s.flag, e.p);
      var r := Receive(s.queue, s.flag, e.p);
      assert s.delivered + r.pushed + r.queue == s.delivered + (r.pushed + r.queue);
      assert s.delivered + (s.queue + [e.p]) == s.delivered + s.queue + [e.p];
    }
  }

  /** Over every run of arrivals and flushes, what was delivered followed by what waits is exactly what was
    * accepted, in that order. */
  lemma {:induction false} EveryRunConserves(s: Session, events: seq<Event>)
    requires Conserved(s)
    ensures Conserved(Run(s, events))
    decreases |events|
  {
    if events != [] {
      StepConserves(s, events[0]);
      EveryRunConserves(Step(s, events[0]), events[1..]);
    }
  }

  /** Between calls the push flag is up only while three packages wait. */
  predicate FlagTells(s: Session) {
    s.flag != 0 ==> |s.queue| == 3
  }

  /** What an arrival does, in plain terms.  A package is taken if nothing waits; or if it is newer than the oldest one
    * waiting and, once three wait, neither equal to the newest one nor nine or more ahead of it; or if it is behind the
    * newest one and among the first twelve.  An end flag passes everything on; otherwise the oldest package is passed on
    * when three were waiting, or when the arrival fits none of the windows. */
  lemma ArrivalDoes(s: Session, p: Packet)
    requires Conserved(s) && FlagTells(s)
    ensures var t, q := Step(s, Arrival(p)), s.queue;
            var newer := q != [] && p.counter > q[0].counter;
            var last := if q == [] then 0 else q[|q| - 1].counter;
            var ahead := last < p.counter < last + 9;
            var behind := p.counter < last && (newer || p.counter < 12);
            var taken := q == [] || (newer && (|q| < 3 || (p.counter != last && p.counter < last + 9)))
                         || (p.counter < last && p.counter < 12);
            var all := if taken then q + [p] else q;
            var pushes := |q| == 3 || (q != [] && !ahead && !behind);
            && t.accepted == (if taken then s.accepted + [p] else s.accepted)
            && (p.endFlag == 1 ==> t.delivered == s.delivered + all && t.queue == [])
            && (p.endFlag != 1 && pushes ==> t.delivered == s.delivered + all[..1] && t.queue == all[1..])
            && (p.endFlag != 1 && !pushes ==> t.delivered == s.delivered && t.queue == all)
            && FlagTells(t)
  {
  }

  /** The premise holds over every run that starts empty. */
  lemma {:induction false} RunFlagTells(s: Session, events: seq<Event>)
    requires Conserved(s) && FlagTells(s)
    ensures FlagTells(Run(s, events))
    decreases |events|
  {
    if events != [] {
      StepConserves(s, events[0]);
      if events[0].Arrival? {
        ArrivalDoes(s, events[0].p);
      }
      RunFlagTells(Step(s, events[0]), events[1..]);
    }
  }

  // ---------- A stream that arrives complete and in order ----------

  function Arrivals(ps: seq<Packet>): seq<Event> {
    seq(|ps|, i requires 0 <= i < |ps| => Arrival(ps[i]))
  }

  /** The package that continues the queue is always taken. */
  ghost predicate QueueEndsBefore(q: seq<Packet>, counter: int) {
    forall i :: 0 <= i < |q| ==> q[i].counter == counter - |q| + i
  }

  lemma ContinuationIsAccepted(s: Session, p: Packet)
    requires Conserved(s) && QueueEndsBefore(s.queue, p.counter) && p.endFlag == 0
    ensures Step(s, Arrival(p)).accepted == s.accepted + [p]
    ensures QueueEndsBefore(Step(s, Arrival(p)).queue, p.counter + 1)
  {
  }

  lemma RunCons(s: Session, e: Event, es: seq<Event>)
    ensures Run(s, [e] + es) == Run(Step(s, e), es)
  {
  }

  lemma SplitFirst(before: seq<Packet>, ps: seq<Packet>)
    requires ps != []
    ensures Arrivals(ps) == [Arrival(ps[0])] + Arrivals(ps[1..])
    ensures (before + [ps[0]]) + ps[1..] == before + ps
  {
  }

  lemma {:induction false} StreamIsAccepted(s: Session, counter: int, ps: seq<Packet>)
    requires Conserved(s) && Consecutive(ps, counter) && QueueEndsBefore(s.queue, counter)
    ensures Run(s, Arrivals(ps)).accepted == s.accepted + ps
    decreases |ps|
  {
    if ps != [] {
      assert ps[0].counter == counter + 0 && ps[0].endFlag == 0;
      ContinuationIsAccepted(s, ps[0]);
      StepConserves(s, Arrival(ps[0]));
      ConsecutiveTail(ps, counter);
      StreamIsAccepted(Step(s, Arrival(ps[0])), counter + 1, ps[1..]);
      RunCons(s, Arrival(ps[0]), Arrivals(ps[1..]));
      SplitFirst(s.accepted, ps);
    }
  }

  /** The older receive path, flushed at the end, delivers the same bytes as the path in use. */
  lemma SendThenReceiveCached(counter: int, bufs: seq<seq<byte>>, q: seq<byte>, cap: nat)
    requires |q| <= cap
    ensures var ps := FragmentsOfAll(counter, bufs);
            var t := Run(Session([], 0, [], []), Arrivals(ps) + [Flush]);
            && t.delivered == ps && t.queue == []
            && PutAll(q, cap, t.delivered) == Put(q, cap, Concat(bufs))
  {
    var ps := FragmentsOfAll(counter, bufs);
    var s := Session([], 0, [], []);
    FragmentsOfAllAreFaithful(counter, bufs);
    StreamIsAccepted(s, counter, ps);
    EveryRunConserves(s, Arrivals(ps));
    RunConcat(s, Arrivals(ps), [Flush]);
    var u := Run(s, Arrivals(ps));
    assert [Flush][1..] == [];
    assert Run(u, [Flush]) == Step(u, Flush);
    PutAllIsOnePut(q, cap, ps);
  }

  lemma {:induction false} RunConcat(s: Session, a: seq<Event>, b: seq<Event>)
    ensures Run(s, a + b) == Run(Run(s, a), b)
    decreases |a|
  {
    if a == [] {
      assert a + b == b;
    } else {
      assert (a + b)[1..] == a[1..] + b;
      RunConcat(Step(s, a[0]), a[1..], b);
    }
  }

  // ---------- The slots and the pointer array ----------

  /** The first six pointers are the six slots in some order. */
  predicate IsPermutation(h: seq<nat>) {
    && |h| >= SLOTS
    && (forall i :: 0 <= i < SLOTS ==> h[i] < SLOTS)
    && (forall i, j :: 0 <= i < j < SLOTS ==> h[i] != h[j])
  }

  function Queued(slots: seq<Packet>, h: seq<nat>, count: nat): (q: seq<Packet>)
    requires |slots| == SLOTS && IsPermutation(h) && count <= SLOTS
    ensures |q| == count
  {
    seq(count, i requires 0 <= i < count => slots[h[i]])
  }

  class Cache {
    const slots: array<Packet>

    /** ArrayToHandle is declared with eight entries, of which six are used. */
    const handle: array<nat>
    const out: Ring

    /** pToData, as the index of the slot it points to. */
    var toData: nat
    var counter: int
    var pushFlag: int
    var cleanForceLen: int

    ghost predicate Shape()
      reads this, slots, handle
    {
      && slots.Length == SLOTS && handle.Length == 8 && IsPermutation(handle[..])
      && 0 <= counter <= CRITICAL + 1
    }

    /** The ring's memory is not part of the cache. */
    ghost predicate OutApart()
      reads this
    {
      out.cells as object != slots && out.cells as object != handle
    }

    /** Inside a call: the receive pointer is entry `counter`. */
    ghost predicate Aligned()
      reads this, slots, handle
    {
      Shape() && toData == handle[counter]
    }

    /** Between calls. */
    ghost predicate Valid()
      reads this, slots, handle, out, out.cells
    {
      && Shape() && counter <= CRITICAL && out.Valid() && OutApart()
      && toData == (if cleanForceLen != 0 then handle[0] else handle[counter])
    }

    ghost function Waiting(): (q: seq<Packet>)
      requires Shape()
      reads this, slots, handle
      ensures |q| == counter
    {
      Queued(slots[..], handle[..], counter)
    }

    /** A forced flush has delivered everything; the counter is only reset by the next call. */
    ghost function Queue(): seq<Packet>
      requires Valid()
      reads this, slots, handle, out, out.cells
    {
      if cleanForceLen != 0 then [] else Waiting()
    }

    ghost function Flag(): int
      reads this
    {
      if cleanForceLen != 0 then 0 else pushFlag
    }

    constructor (ring: Ring)
      requires ring.Valid()
      ensures Valid() && out == ring && fresh(slots) && fresh(handle)
      ensures Queue() == [] && Flag() == 0
    {
      slots := new Packet[SLOTS](_ => Packet(0, 0, []));
      handle := new nat[8](i => if i < SLOTS then i else 0);
      out := ring;
      toData, counter, pushFlag, cleanForceLen := 0, 0, 0, 0;
    }

    method AddPakageToCache() returns (ret: int)
      requires Aligned() && counter <= CRITICAL
      modifies this`counter, this`toData, handle
      ensures Aligned() && handle[..] == old(handle[..])
      ensures ret == if AddAccepts(old(Waiting()), slots[old(toData)]) then 0 else -1
      ensures Waiting() == if ret == 0 then old(Waiting()) + [slots[old(toData)]] else old(Waiting())
      ensures counter == old(counter) + ret + 1
    {
      if slots[toData].counter <= slots[handle[0]].counter && counter != 0 {
        ret := -1;
      } else {
        handle[counter] := toData;
        assert handle[..] == old(handle[..]);
        counter := counter + 1;
        toData := handle[counter];
        ret := 0;
      }
    }

    /** The insertion loop, as written: it moves entries that are older than the package and stops at the
      * newest one that is not.  Entry `p` becomes the package. */
    method ArrayMoveSort() returns (ghost p: int)
      requires slots.Length == SLOTS && handle.Length == 8 && toData < SLOTS
      requires 1 <= counter <= CRITICAL && forall i :: 0 <= i < counter ==> handle[i] < SLOTS
      requires exists j :: 0 <= j < counter && slots[toData].counter <= slots[handle[j]].counter
      modifies handle
      ensures 1 <= p <= counter
      ensures slots[toData].counter <= slots[old(handle[p - 1])].counter
      ensures forall i :: p <= i < counter ==> slots[toData].counter > slots[old(handle[i])].counter
      ensures handle[p] == toData
      ensures forall i :: 0 <= i < p || counter < i < 8 ==> handle[i] == old(handle[i])
      ensures forall i :: p <= i < counter ==> handle[i + 1] == old(handle[i])
    {
      var localVar := counter;
      ghost var h := handle[..];
      while localVar >= 0
        invariant 1 <= localVar <= counter
        invariant exists j :: 0 <= j < localVar && slots[toData].counter <= slots[h[j]].counter
        invariant forall i :: localVar <= i < counter ==> slots[toData].counter > slots[h[i]].counter
        invariant forall i :: 0 <= i < localVar ==> handle[i] == h[i]
        invariant forall i :: localVar <= i < counter ==> handle[i + 1] == h[i]
        invariant forall i :: counter < i < 8 ==> handle[i] == h[i]
        decreases localVar
      {
        if slots[toData].counter > slots[handle[localVar - 1]].counter {
          handle[localVar] := handle[localVar - 1];
          localVar := localVar - 1;
        } else {
          handle[localVar] := toData;
          p := localVar;
          break;
        }
      }
    }

    /** A package older than the newest one waiting: the loop stops at once, so it goes to the end. */
    method KeepLate()
      requires Aligned() && 1 <= counter <= CRITICAL
      requires slots[toData].counter < slots[handle[counter - 1]].counter
      modifies this`counter, this`toData, handle
      ensures Aligned() && handle[..] == old(handle[..])
      ensures Waiting() == old(Waiting()) + [slots[old(toData)]]
    {
      ghost var at := ArrayMoveSort();
      assert at == counter;
      assert handle[..] == old(handle[..]);
      counter := counter + 1;
      toData := handle[counter];
    }

    method AddOrAbandonFun()
      requires Aligned() && 1 <= counter <= CRITICAL
      modifies this`counter, this`toData, this`pushFlag, handle
      ensures Aligned() && handle[..] == old(handle[..])
      ensures var q, p := old(Waiting()), slots[old(toData)];
              && Waiting() == (if Accepts(q, p) then q + [p] else q)
              && pushFlag == (if |q| < CRITICAL && !InWindow(q, p) && !LateButKept(q, p) then 1
                              else old(pushFlag))
    {
      ghost var q := Waiting();
      var package := slots[toData].counter;
      var last := slots[handle[counter - 1]].counter;
      assert last == q[|q| - 1].counter && slots[handle[0]] == q[0];
      var ret;
      if package == last + 1 {
        ret := AddPakageToCache();
      } else if package < last + CRITICAL * 3 && package > last {
        ret := AddPakageToCache();
      } else if package < last && (package > slots[handle[0]].counter || package < CRITICAL * 4) {
        KeepLate();
      } else {
        if counter < CRITICAL {
          ret := AddPakageToCache();
          pushFlag := 1;
        }
      }
    }

    method SortAlgorithm()
      requires Aligned() && counter <= CRITICAL
      modifies this`counter, this`toData, this`pushFlag, handle
      ensures Aligned() && handle[..] == old(handle[..])
      ensures var q, p := old(Waiting()), slots[old(toData)];
              && Waiting() == (if Accepts(q, p) then q + [p] else q)
              && pushFlag == SortedFlag(q, old(pushFlag), p)
    {
      if counter != 0 && counter < CRITICAL {
        AddOrAbandonFun();
      } else if counter != 0 && counter >= CRITICAL {
        pushFlag := 1;
        AddOrAbandonFun();
      } else if counter == 0 {
        var ret := AddPakageToCache();
      }
    }

    /** The rotation loop, as written: it passes through the seventh entry. */
    method ArraySort()
      requires handle.Length == 8
      modifies handle
      ensures handle[..SLOTS] == old(handle[1..SLOTS]) + [old(handle[0])]
    {
      var transform := handle[0];
      for i := 0 to SLOTS
        invariant forall j :: 0 <= j < i ==> handle[j] == old(handle[j + 1])
        invariant forall j :: i <= j < 8 ==> handle[j] == old(handle[j])
      {
        handle[i] := handle[i + 1];
      }
      handle[SLOTS - 1] := transform;
    }

    /** Passes on the oldest package. */
    method WriteTobuffer()
      requires Aligned() && counter >= 1 && out.Valid()
      requires OutApart()
      modifies this`counter, this`pushFlag, handle, out`wr, out`sinceClear, out`earlier, out.cells
      ensures Aligned() && out.Valid()
      ensures Waiting() == old(Waiting())[1..] && counter == old(counter) - 1
      ensures out.Contents() == Put(old(out.Contents()), out.Capacity(), old(Waiting())[0].data)
      ensures pushFlag == if counter == 0 then 0 else old(pushFlag)
    {
      var copySize := out.Write(slots[handle[0]].data);
      counter := counter - 1;
      ArraySort();
      assert forall i :: 0 <= i < SLOTS - 1 ==> handle[i] == handle[..SLOTS][i] == old(handle[1..SLOTS])[i];
      assert handle[SLOTS - 1] == handle[..SLOTS][SLOTS - 1];
      if counter == 0 {
        pushFlag := 0;
      }
    }

    /** DataRecvAndHandle, given the package that arrives. */
    method DataRecvAndHandle(p: Packet)
      requires Valid()
      modifies this, slots, handle, out`wr, out`sinceClear, out`earlier, out.cells
      ensures Valid()
      ensures var e := Receive(old(Queue()), old(Flag()), p);
              && Queue() == e.queue && Flag() == e.flag
              && out.Contents() == PutAll(old(out.Contents()), out.Capacity(), e.pushed)
    {
      if toData == handle[0] && cleanForceLen != 0 {
        counter := 0;
        pushFlag := 0;
        cleanForceLen := 0;
      }
      ghost var q := Waiting();
      slots[toData] := p;
      assert Waiting() == q;
      SortAlgorithm();
      ghost var all, ring := Waiting(), out.Contents();
      if p.endFlag == 1 || pushFlag != 0 {
        if p.endFlag == 1 {
          Drain();
        } else {
          if counter <= SLOTS / 2 {
            pushFlag := 0;
          }
          assert all[..1][1..] == [];
          WriteTobuffer();
        }
      }
    }

    /** What an end flag causes: pass on everything. */
    method Drain()
      requires Aligned() && counter >= 1 && out.Valid() && OutApart()
      modifies this`counter, this`pushFlag, handle, out`wr, out`sinceClear, out`earlier, out.cells
      ensures Aligned() && out.Valid() && counter == 0 && pushFlag == 0
      ensures out.Contents() == PutAll(old(out.Contents()), out.Capacity(), old(Waiting()))
    {
      ghost var all, ring := Waiting(), out.Contents();
      while counter != 0
        invariant Aligned() && out.Valid()
        invariant PutAll(out.Contents(), out.Capacity(), Waiting()) == PutAll(ring, out.Capacity(), all)
        invariant counter == 0 ==> pushFlag == 0
        decreases counter
      {
        WriteTobuffer();
      }
    }

    /** ForcePushDataCacheToBuffer: deliver everything in front of the receive pointer. */
    method ForcePush()
      requires Valid()
      modifies this`toData, this`cleanForceLen, out`wr, out`sinceClear, out`earlier, out.cells
      ensures Valid() && Queue() == [] && Flag() == 0
      ensures out.Contents() == PutAll(old(out.Contents()), out.Capacity(), old(Queue()))
    {
      ghost var q, ring := Queue(), out.Contents();
      ghost var stop := if cleanForceLen != 0 then 0 else counter;
      var i := 0;
      while i < SLOTS
        invariant 0 <= i <= stop < SLOTS && toData == handle[stop] && |q| == stop
        invariant out.Valid()
        invariant PutAll(out.Contents(), out.Capacity(), q[i..]) == PutAll(ring, out.Capacity(), q)
        decreases SLOTS - i
      {
        if toData != handle[i] {
          assert q[i..][1..] == q[i + 1..];
          var n := out.Write(slots[handle[i]].data);
        } else {
          toData := handle[0];
          cleanForceLen := 1;
          break;
        }
        i := i + 1;
      }
    }
  }
}
