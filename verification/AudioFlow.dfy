/** The way of audio bytes from a main ring and a pending ring to the sound card, as far as all players share it.
  *
  * Other threads write to the main ring and clear either ring while a player's call runs.  Between any two of the
  * places where a call looks at the rings they may do all of that.
  */
module AudioFlow {
  import opened CharBuffer
  import opened Subsequence

  /** The size given to the pending ring when it is created. */
  const PENDING_SIZE := 3136

  /** What the other threads do between two statements of a call: clear either ring, then write to the main one. */
  datatype Meanwhile = Meanwhile(pendingCleared: bool, cleared: bool, src: seq<byte>)

  /** The places of a call: before the pending ring is measured, before the main ring is, before the first look at
    * the clear count, before the pending ring is read, before the main ring is, before the second look, before the
    * third one (the device works here), and behind it. */
  datatype Interference = Interference(
    beforePendingCount: Meanwhile, beforeMainCount: Meanwhile, beforeTest: Meanwhile, beforePendingRead: Meanwhile,
    beforeMainRead: Meanwhile, beforeOffer: Meanwhile, duringOffer: Meanwhile, afterOffer: Meanwhile)

  predicate Calm(m: Meanwhile) {
    !m.pendingCleared && !m.cleared
  }

  predicate Uncleared(i: Interference) {
    && Calm(i.beforePendingCount) && Calm(i.beforeMainCount) && Calm(i.beforeTest) && Calm(i.beforePendingRead)
    && Calm(i.beforeMainRead) && Calm(i.beforeOffer) && Calm(i.duringOffer) && Calm(i.afterOffer)
  }

  /** The bytes on their way: read out into `chunk`, waiting in the two rings, and `since`, what the main ring took
    * since it was last cleared.  `offered` is what was meant for the reader so far, `fed` what the main ring took
    * of it, `room` tells whether it took every write completely. */
  datatype Flow = Flow(
    chunk: seq<byte>, pending: seq<byte>, main: seq<byte>, since: seq<byte>,
    offered: seq<byte>, fed: seq<byte>, room: bool)

  const SILENCE := Flow([], [], [], [], [], [], true)

  /** Counting from here: `lead` is pending and `waiting` in the main ring. */
  function Start(lead: seq<byte>, waiting: seq<byte>, since: seq<byte>): Flow {
    Flow([], lead, waiting, since, lead + waiting, lead + waiting, true)
  }

  /** How much of `src` goes into a ring that holds `n` bytes. */
  function Fits(n: nat, cap: nat, src: seq<byte>): (k: nat)
    requires n <= cap
    ensures k <= |src| && n + k <= cap
  {
    Min(|src|, cap - n)
  }

  function Cleared(f: Flow, m: Meanwhile): Flow {
    f.(pending := if m.pendingCleared then [] else f.pending,
       main := if m.cleared then [] else f.main,
       since := if m.cleared then [] else f.since)
  }

  function Written(f: Flow, cap: nat, src: seq<byte>): (g: Flow)
    requires |f.main| <= cap
    ensures |g.main| <= cap
  {
    var grown := src[..Fits(|f.main|, cap, src)];
    f.(main := f.main + grown, since := f.since + grown, offered := f.offered + src, fed := f.fed + grown,
       room := f.room && |f.main| + |src| <= cap)
  }

  function Pass(f: Flow, cap: nat, m: Meanwhile): (g: Flow)
    requires |f.main| <= cap
    ensures |g.main| <= cap && g.chunk == f.chunk && g.pending == if m.pendingCleared then [] else f.pending
  {
    Written(Cleared(f, m), cap, m.src)
  }

  /** The pending ring is read into a chunk of `size` bytes. */
  function TakePending(f: Flow, size: nat): (g: Flow)
    ensures |g.chunk| <= size && (|f.pending| <= size ==> g.pending == [])
  {
    var n := Min(size, |f.pending|);
    f.(chunk := f.pending[..n], pending := f.pending[n..])
  }

  /** What room the chunk has left is filled from the main ring. */
  function TakeMain(f: Flow, size: nat): (g: Flow)
    requires |f.chunk| <= size
    ensures |g.chunk| == Min(size, |f.chunk| + |f.main|) && |g.main| <= |f.main| && g.pending == f.pending
  {
    var n := Min(size - |f.chunk|, |f.main|);
    f.(chunk := f.chunk + f.main[..n], main := f.main[n..])
  }

  /** Both reads, with what happens in front of each. */
  function Fill(f: Flow, cap: nat, size: nat, i: Interference): (g: Flow)
    requires |f.main| <= cap
    ensures |g.chunk| <= size && |g.main| <= cap && (|f.pending| <= size ==> g.pending == [])
  {
    TakeMain(Pass(TakePending(Pass(f, cap, i.beforePendingRead), size), cap, i.beforeMainRead), size)
  }

  /** `played` are the bytes of the two rings that the device accepted during a call. */
  datatype Outcome = Outcome(ret: int, played: seq<byte>, end: Flow)

  function Done(ret: int, f: Flow, pending: seq<byte>, played: seq<byte>): Outcome {
    Outcome(ret, played, f.(chunk := [], pending := pending))
  }

  /** What the device left of `n` offered bytes; a value above `n` counts as nothing left. */
  function LeftOf(n: nat, deviceLeft: nat): (k: nat)
    ensures k <= n
  {
    if deviceLeft > n then 0 else deviceLeft
  }

  // ---------- What a call keeps ----------

  /** Everything that was heard, after `p`, or is still on its way, in order. */
  function Whole(p: seq<byte>, f: Flow): seq<byte> {
    p + f.chunk + f.pending + f.main
  }

  /** What was taken is left over from what was offered: either every write was taken completely, or bytes are
    * missing. */
  ghost predicate Accounted(f: Flow) {
    && IsSub(f.fed, f.offered)
    && if f.room then f.fed == f.offered else |f.fed| < |f.offered|
  }

  /** What was heard and is on its way is left over, in order, from what the main ring was fed; with `exact`
    * nothing is missing. */
  ghost predicate Sound(p: seq<byte>, f: Flow, exact: bool) {
    && IsSub(Whole(p, f), f.fed)
    && (exact ==> Whole(p, f) == f.fed)
    && Accounted(f)
  }

  /** How many of the bytes fed are neither heard nor on their way. */
  function Missing(p: seq<byte>, f: Flow): int {
    |f.fed| - |Whole(p, f)|
  }

  lemma SoundIsExactIffNothingMissing(p: seq<byte>, f: Flow)
    requires Sound(p, f, false)
    ensures Missing(p, f) >= 0 && (Missing(p, f) == 0 <==> Whole(p, f) == f.fed)
  {
    SubLength(Whole(p, f), f.fed);
  }

  lemma StartIsSound(lead: seq<byte>, waiting: seq<byte>, since: seq<byte>)
    ensures Sound([], Start(lead, waiting, since), true)
  {
    assert [] + [] + lead + waiting == lead + waiting;
    SubRefl(lead + waiting);
  }

  lemma Join(a: seq<byte>, b: seq<byte>, c: seq<byte>)
    ensures a + (b + c) == a + b + c
  {
  }

  /** Dropping the piece between `x` and `z`. */
  lemma DropPiece(x: seq<byte>, y: seq<byte>, z: seq<byte>, all: seq<byte>)
    requires IsSub(x + y + z, all)
    ensures IsSub(x + z, all) && |x + z| == |x + y + z| - |y|
  {
    SubSkip(x, y, z);
    SubTrans(x + z, x + y + z, all);
  }

  lemma ClearedIsSound(p: seq<byte>, f: Flow, m: Meanwhile, exact: bool)
    requires Sound(p, f, exact)
    ensures Sound(p, Cleared(f, m), exact && Calm(m))
    ensures Missing(p, Cleared(f, m)) == Missing(p, f)
              + (if m.pendingCleared then |f.pending| else 0) + if m.cleared then |f.main| else 0
  {
    var x := p + f.chunk;
    if m.pendingCleared {
      DropPiece(x, f.pending, f.main, f.fed);
      assert x + [] + f.main == x + f.main;
    }
    if m.cleared {
      var y := x + Cleared(f, m).pending;
      assert y + f.main + [] == y + f.main;
      DropPiece(y, f.main, [], f.fed);
    }
  }

  lemma WrittenIsSound(p: seq<byte>, f: Flow, cap: nat, src: seq<byte>, exact: bool)
    requires |f.main| <= cap && Sound(p, f, exact)
    ensures Sound(p, Written(f, cap, src), exact) && Missing(p, Written(f, cap, src)) == Missing(p, f)
  {
    var n := Fits(|f.main|, cap, src);
    var grown := src[..n];
    Join(p + f.chunk + f.pending, f.main, grown);
    SubAppend(Whole(p, f), f.fed, grown);
    SubAppend(f.fed, f.offered, grown);
    SubExtend(f.fed + grown, f.offered + grown, src[n..]);
    Join(f.offered, grown, src[n..]);
    assert grown + src[n..] == src;
    SubLength(f.fed, f.offered);
  }

  lemma PassIsSound(p: seq<byte>, f: Flow, cap: nat, m: Meanwhile, exact: bool)
    requires |f.main| <= cap && Sound(p, f, exact)
    ensures Sound(p, Pass(f, cap, m), exact && Calm(m))
    ensures Missing(p, Pass(f, cap, m)) >= Missing(p, f)
    ensures Calm(m) ==> Missing(p, Pass(f, cap, m)) == Missing(p, f)
  {
    ClearedIsSound(p, f, m, exact);
    WrittenIsSound(p, Cleared(f, m), cap, m.src, exact && Calm(m));
  }

  lemma TakePendingKeepsWhole(p: seq<byte>, f: Flow, size: nat)
    requires f.chunk == []
    ensures Whole(p, TakePending(f, size)) == Whole(p, f)
  {
    var n := Min(size, |f.pending|);
    assert p + [] + f.pending == p + f.pending[..n] + f.pending[n..];
  }

  lemma TakeMainKeepsWhole(p: seq<byte>, f: Flow, size: nat)
    requires |f.chunk| <= size && (f.pending == [] || |f.chunk| == size)
    ensures Whole(p, TakeMain(f, size)) == Whole(p, f)
  {
    var n := Min(size - |f.chunk|, |f.main|);
    if f.pending == [] {
      assert p + (f.chunk + f.main[..n]) + [] + f.main[n..] == p + f.chunk + [] + (f.main[..n] + f.main[n..]);
      assert f.main[..n] + f.main[n..] == f.main;
    } else {
      assert f.chunk + f.main[..0] == f.chunk && f.main[0..] == f.main;
    }
  }

  lemma FillIsSound(p: seq<byte>, f: Flow, cap: nat, size: nat, i: Interference, exact: bool)
    requires |f.main| <= cap && f.chunk == [] && Sound(p, f, exact)
    ensures Sound(p, Fill(f, cap, size, i), exact && Calm(i.beforePendingRead) && Calm(i.beforeMainRead))
    ensures Missing(p, Fill(f, cap, size, i)) >= Missing(p, f)
    ensures Calm(i.beforePendingRead) && Calm(i.beforeMainRead) ==>
              Missing(p, Fill(f, cap, size, i)) == Missing(p, f)
  {
    var e1 := exact && Calm(i.beforePendingRead);
    var g := Pass(f, cap, i.beforePendingRead);
    var h := TakePending(g, size);
    PassIsSound(p, f, cap, i.beforePendingRead, exact);
    TakePendingKeepsWhole(p, g, size);
    PassIsSound(p, h, cap, i.beforeMainRead, e1);
    TakeMainKeepsWhole(p, Pass(h, cap, i.beforeMainRead), size);
  }

  /** Ending a call: of the chunk, `played` was heard and `back` is kept. */
  lemma DoneIsSound(p: seq<byte>, f: Flow, ret: int, played: seq<byte>, back: seq<byte>, dropped: seq<byte>,
                    exact: bool)
    requires Sound(p, f, exact) && f.chunk == played + dropped + back && (back == [] || f.pending == [])
    ensures var r := Done(ret, f, back + f.pending, played);
            && Sound(p + played, r.end, exact && dropped == [])
            && Missing(p + played, r.end) == Missing(p, f) + |dropped|
  {
    var rest := back + f.pending + f.main;
    assert Whole(p, f) == p + played + dropped + rest by {
      assert p + (played + dropped + back) + f.pending + f.main == p + played + dropped + (back + f.pending + f.main);
    }
    DropPiece(p + played, dropped, rest, f.fed);
    assert p + played + [] + (back + f.pending) + f.main == p + played + rest;
    if dropped == [] {
      assert p + played + dropped + rest == p + played + rest;
    }
  }

  // ---------- Sizes ----------

  /** The size of the main ring behind a point. */
  function SizeAfter(n: nat, cap: nat, m: Meanwhile): nat {
    Min(cap, (if m.cleared then 0 else n) + |m.src|)
  }

  lemma PassSize(f: Flow, cap: nat, m: Meanwhile)
    requires |f.main| <= cap
    ensures |Pass(f, cap, m).main| == SizeAfter(|f.main|, cap, m)
    ensures !m.cleared ==> |Pass(f, cap, m).main| >= |f.main|
  {
  }

  // ---------- With nobody in between ----------

  const NOBODY := Meanwhile(false, false, [])

  /** No other thread comes in between. */
  const QUIET := Interference(NOBODY, NOBODY, NOBODY, NOBODY, NOBODY, NOBODY, NOBODY, NOBODY)

  lemma QuietPass(f: Flow, cap: nat)
    requires |f.main| <= cap
    ensures Pass(f, cap, NOBODY) == f
  {
    assert f.main + [] == f.main && f.since + [] == f.since && f.offered + [] == f.offered && f.fed + [] == f.fed;
  }

  lemma QuietFillIsTakes(f: Flow, cap: nat, size: nat)
    requires |f.main| <= cap
    ensures Fill(f, cap, size, QUIET) == TakeMain(TakePending(f, size), size)
  {
    QuietPass(f, cap);
    QuietPass(TakePending(f, size), cap);
  }

  /** Both reads take the oldest bytes, first the pending ones, and leave the rest in order. */
  lemma QuietFill(f: Flow, cap: nat, size: nat)
    requires f.chunk == [] && |f.main| <= cap
    ensures var t := Fill(f, cap, size, QUIET);
            var all := f.pending + f.main;
            && t.chunk == all[..Min(size, |all|)] && t.pending + t.main == all[|t.chunk|..]
            && (|f.pending| <= size ==> t.pending == [] && t.main == all[|t.chunk|..])
  {
    QuietFillIsTakes(f, cap, size);
    var t := TakeMain(TakePending(f, size), size);
    if |f.pending| <= size {
      assert f.pending[..|f.pending|] == f.pending && [] + t.main == t.main;
    } else {
      assert f.main[..0] == [] && f.main[0..] == f.main && t.chunk + [] == t.chunk;
    }
  }

  // ---------- The two rings ----------

  /** The clear count, a byte, behind a point. */
  function Bump(flag: byte, cleared: bool): byte {
    if !cleared then flag else if flag == 255 then 0 else flag + 1
  }

  ghost predicate Holds(main: Ring, pending: Ring, f: Flow)
    reads main, main.cells, pending, pending.cells
  {
    && main.Valid() && pending.Valid()
    && main != pending && main.cells != pending.cells
    && pending.cells.Length == PENDING_SIZE
    && pending.Contents() == f.pending && main.Contents() == f.main && main.sinceClear == f.since
  }

  /** What the other threads do at one point. */
  method Elsewhere(main: Ring, pending: Ring, m: Meanwhile, ghost f: Flow)
    requires Holds(main, pending, f)
    modifies main, main.cells, pending
    ensures Holds(main, pending, Pass(f, main.Capacity(), m))
    ensures main.clearCount == Bump(old(main.clearCount), m.cleared)
  {
    ClearRings(main, pending, m, f);
    WriteMain(main, pending, m.src, Cleared(f, m));
  }

  method ClearRings(main: Ring, pending: Ring, m: Meanwhile, ghost f: Flow)
    requires Holds(main, pending, f)
    modifies main, pending
    ensures Holds(main, pending, Cleared(f, m))
    ensures main.clearCount == Bump(old(main.clearCount), m.cleared)
  {
    if m.pendingCleared {
      pending.Clear();
    }
    if m.cleared {
      main.Clear();
    }
  }

  method WriteMain(main: Ring, pending: Ring, src: seq<byte>, ghost f: Flow)
    requires Holds(main, pending, f)
    modifies main`wr, main`sinceClear, main`earlier, main.cells
    ensures Holds(main, pending, Written(f, main.Capacity(), src))
  {
    var n := main.Write(src);
  }

  method Measure(ring: Ring) returns (total: nat)
    requires ring.Valid()
    ensures total == |ring.Contents()|
  {
    var right, at;
    total, right, at := ring.CurrentReadPointer();
  }

  /** The first half of a player's call: a chunk is filled from the pending ring and then from the main ring. */
  method ReadChunk(main: Ring, pending: Ring, size: nat, i: Interference, ghost f: Flow)
    returns (ok: bool, chunk: seq<byte>)
    requires Holds(main, pending, f) && size > 0
    modifies main, main.cells, pending
    ensures ok && Holds(main, pending, Fill(f, main.Capacity(), size, i))
    ensures chunk == Fill(f, main.Capacity(), size, i).chunk
    ensures main.clearCount == Bump(Bump(old(main.clearCount), i.beforePendingRead.cleared), i.beforeMainRead.cleared)
  {
    Elsewhere(main, pending, i.beforePendingRead, f);
    ghost var g := Pass(f, main.Capacity(), i.beforePendingRead);
    var readLen, readMain;
    ok, chunk, readLen, readMain := ReadPending(main, pending, size, g);
    if !ok {
      return;
    }
    Elsewhere(main, pending, i.beforeMainRead, TakePending(g, size));
    ghost var h := Pass(TakePending(g, size), main.Capacity(), i.beforeMainRead);
    chunk := ReadMain(main, pending, size, chunk, readLen, readMain, h);
  }

  method ReadPending(main: Ring, pending: Ring, size: nat, ghost f: Flow)
    returns (ok: bool, chunk: seq<byte>, readLen: nat, readMain: bool)
    requires Holds(main, pending, f) && size > 0
    modifies pending`rd
    ensures ok && Holds(main, pending, TakePending(f, size)) && chunk == TakePending(f, size).chunk
    ensures readMain == (|chunk| < size) && readLen == size - |chunk|
  {
    var n;
    n, chunk := pending.Read(size);
    assert chunk == TakePending(f, size).chunk && n == if f.pending == [] then BUFFER_EMPTY else |chunk|;
    ok, readLen, readMain := true, 0, false;
    if n > 0 {
      readLen := size - n;
      readMain := n < size;
    } else if n == BUFFER_EMPTY {
      readLen := size;
      readMain := true;
    } else {
      ok := false;
    }
  }

  method ReadMain(main: Ring, pending: Ring, size: nat, chunk: seq<byte>, readLen: nat, readMain: bool, ghost f: Flow)
    returns (full: seq<byte>)
    requires Holds(main, pending, f) && chunk == f.chunk && |chunk| <= size
    requires readMain == (|chunk| < size) && readLen == size - |chunk|
    modifies main`rd
    ensures Holds(main, pending, TakeMain(f, size)) && full == TakeMain(f, size).chunk
  {
    full := chunk;
    if readMain {
      var n, more := main.Read(readLen);
      full := full + more;
    }
  }
}
