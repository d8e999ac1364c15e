/** Two-ring playback of the alarm clip: what the sound card did not take of a chunk is kept in the pending ring and
  * is offered again, in front of the main ring, by the next call.
  */
module Playback {
  import opened AudioFlow
  import opened CharBuffer
  import opened Subsequence

  /** sizeof(tmp_buff), the most one call offers to the device. */
  const CHUNK := 3072

  const BORDER_PROMPT := 2234  // PlayAudioTwice
  const BORDER_ANALOG := 64    // PlayAudioTwice_analog

  const PLAYED := 0
  const CLEARED := -1
  const TOO_LITTLE := -5
  const UNLIKELY := -6

  function Taken(chunk: seq<byte>, deviceLeft: nat): seq<byte> {
    chunk[..|chunk| - LeftOf(|chunk|, deviceLeft)]
  }

  function Kept(chunk: seq<byte>, deviceLeft: nat): seq<byte> {
    chunk[|chunk| - LeftOf(|chunk|, deviceLeft)..]
  }

  /** Between two calls nothing is read out, and what is pending fits into a chunk. */
  ghost predicate Resting(f: Flow, cap: nat) {
    f.chunk == [] && |f.pending| <= CHUNK && |f.main| <= cap
  }

  /** What a call finds: the flow at the first look at the clear count, and the sizes it measured on the way. */
  datatype Found = Found(total: nat, flow: Flow)

  function Counted(f: Flow, cap: nat, i: Interference): (x: Found)
    requires Resting(f, cap)
    ensures Resting(x.flow, cap)
  {
    var a := Pass(f, cap, i.beforePendingCount);
    var b := Pass(a, cap, i.beforeMainCount);
    Found(|a.pending| + |b.main|, b)
  }

  predicate ClearedEarly(i: Interference) {
    i.beforePendingCount.cleared || i.beforeMainCount.cleared || i.beforeTest.cleared
  }

  predicate ClearedLate(i: Interference) {
    i.beforePendingRead.cleared || i.beforeMainRead.cleared || i.beforeOffer.cleared
  }

  /** The end of a call: the device works on the chunk. */
  function Device(f: Flow, cap: nat, deviceLeft: nat, i: Interference): (r: Outcome)
    requires |f.chunk| <= CHUNK && f.pending == [] && |f.main| <= cap
    ensures Resting(r.end, cap)
  {
    var g := Pass(f, cap, i.duringOffer);
    var h := Pass(g, cap, i.afterOffer);
    var taken, kept := Taken(f.chunk, deviceLeft), Kept(f.chunk, deviceLeft);
    if i.duringOffer.cleared then Done(CLEARED, g, g.pending, taken)
    else Done(PLAYED, h, kept + h.pending, taken)
  }

  /** The second half of a call, with the chunk read out. */
  function Offer(f: Flow, cap: nat, border: nat, deviceLeft: nat, i: Interference): (r: Outcome)
    requires |f.chunk| <= CHUNK && f.pending == [] && |f.main| <= cap
    ensures Resting(r.end, cap)
  {
    var g := Pass(f, cap, i.beforeOffer);
    if |f.chunk| < border then Done(UNLIKELY, f, f.pending, [])
    else if ClearedLate(i) then Done(CLEARED, g, g.pending, [])
    else Device(g, cap, deviceLeft, i)
  }

  /** From the first look at the clear count on. */
  function Tested(f: Flow, cap: nat, border: nat, deviceLeft: nat, i: Interference): (r: Outcome)
    requires Resting(f, cap)
    ensures Resting(r.end, cap)
  {
    var g := Pass(f, cap, i.beforeTest);
    if ClearedEarly(i) then Done(CLEARED, g, g.pending, [])
    else Offer(Fill(g, cap, CHUNK, i), cap, border, deviceLeft, i)
  }

  /** The call, on the contents of the two rings.  What it keeps back never exceeds one chunk, so it fits into the
    * pending ring, and the main ring stays within its capacity. */
  function Play(f: Flow, cap: nat, border: nat, deviceLeft: nat, i: Interference): (r: Outcome)
    requires Resting(f, cap)
    ensures Resting(r.end, cap)
  {
    var found := Counted(f, cap, i);
    if found.total <= border then Done(TOO_LITTLE, found.flow, found.flow.pending, [])
    else Tested(found.flow, cap, border, deviceLeft, i)
  }

  // ---------- Sizes, and the return value that the code calls unlikely ----------

  /** What is pending when the call reads it. */
  function PendingWhenRead(f: Flow, i: Interference): nat {
    if i.beforePendingCount.pendingCleared || i.beforeMainCount.pendingCleared || i.beforeTest.pendingCleared
       || i.beforePendingRead.pendingCleared then 0 else |f.pending|
  }

  function PendingWhenMeasured(f: Flow, i: Interference): nat {
    if i.beforePendingCount.pendingCleared then 0 else |f.pending|
  }

  function MainWhenMeasured(f: Flow, cap: nat, i: Interference): nat {
    SizeAfter(SizeAfter(|f.main|, cap, i.beforePendingCount), cap, i.beforeMainCount)
  }

  function MainWhenRead(f: Flow, cap: nat, i: Interference): nat {
    SizeAfter(SizeAfter(SizeAfter(MainWhenMeasured(f, cap, i), cap, i.beforeTest), cap, i.beforePendingRead), cap,
              i.beforeMainRead)
  }

  lemma CountedSizes(f: Flow, cap: nat, i: Interference)
    requires Resting(f, cap)
    ensures Counted(f, cap, i).total == PendingWhenMeasured(f, i) + MainWhenMeasured(f, cap, i)
    ensures |Counted(f, cap, i).flow.main| == MainWhenMeasured(f, cap, i)
    ensures |Counted(f, cap, i).flow.pending| ==
            if i.beforePendingCount.pendingCleared || i.beforeMainCount.pendingCleared then 0 else |f.pending|
  {
    PassSize(f, cap, i.beforePendingCount);
    PassSize(Pass(f, cap, i.beforePendingCount), cap, i.beforeMainCount);
  }

  lemma ChunkSize(f: Flow, cap: nat, i: Interference)
    requires Resting(f, cap)
    ensures |Fill(Pass(Counted(f, cap, i).flow, cap, i.beforeTest), cap, CHUNK, i).chunk|
            == Min(CHUNK, PendingWhenRead(f, i) + MainWhenRead(f, cap, i))
  {
    CountedSizes(f, cap, i);
    var b := Counted(f, cap, i).flow;
    var g := Pass(b, cap, i.beforeTest);
    var h := Pass(g, cap, i.beforePendingRead);
    PassSize(b, cap, i.beforeTest);
    PassSize(g, cap, i.beforePendingRead);
    PassSize(TakePending(h, CHUNK), cap, i.beforeMainRead);
  }

  /** With a border that a chunk can reach, the call gives up as unlikely if and only if it measured enough, no
    * clear of the main ring came before the first look at the clear count, and too little is left when the rings
    * are read.  What is pending, and what the main ring holds by then, is lost. */
  lemma UnlikelyIffTooLittleLeft(f: Flow, cap: nat, border: nat, deviceLeft: nat, i: Interference)
    requires Resting(f, cap) && border <= CHUNK
    ensures var r := Play(f, cap, border, deviceLeft, i);
            && (r.ret == UNLIKELY <==>
                  && PendingWhenMeasured(f, i) + MainWhenMeasured(f, cap, i) > border && !ClearedEarly(i)
                  && PendingWhenRead(f, i) + MainWhenRead(f, cap, i) < border)
            && (r.ret == UNLIKELY ==> r.end.pending == [] && r.end.main == [] && r.played == [])
  {
    CountedSizes(f, cap, i);
    ChunkSize(f, cap, i);
  }

  /** For that, one of the two rings must have been cleared in between: the pending ring, holding something, after
    * it was measured, or the main ring after the first look at the clear count. */
  lemma UnlikelyNeedsAClear(f: Flow, cap: nat, border: nat, deviceLeft: nat, i: Interference)
    requires Resting(f, cap) && border <= CHUNK && Play(f, cap, border, deviceLeft, i).ret == UNLIKELY
    ensures || (|f.pending| > 0 && (i.beforeMainCount.pendingCleared || i.beforeTest.pendingCleared
                                    || i.beforePendingRead.pendingCleared))
            || i.beforePendingRead.cleared || i.beforeMainRead.cleared
  {
    UnlikelyIffTooLittleLeft(f, cap, border, deviceLeft, i);
  }

  /** Undisturbed, it would take a border larger than the chunk. */
  lemma UnlikelyIffBorderExceedsChunk(f: Flow, cap: nat, border: nat, deviceLeft: nat, i: Interference)
    requires Resting(f, cap) && Uncleared(i)
    ensures Play(f, cap, border, deviceLeft, i).ret == UNLIKELY <==>
            CHUNK < border < |f.pending| + MainWhenMeasured(f, cap, i)
  {
    CountedSizes(f, cap, i);
    ChunkSize(f, cap, i);
  }

  // ---------- What a call does to the bytes ----------

  lemma TakenAndKept(chunk: seq<byte>, deviceLeft: nat)
    ensures Taken(chunk, deviceLeft) + [] + Kept(chunk, deviceLeft) == chunk
    ensures Taken(chunk, deviceLeft) + Kept(chunk, deviceLeft) + [] == chunk
  {
  }

  lemma DeviceIsSound(p: seq<byte>, f: Flow, cap: nat, deviceLeft: nat, i: Interference, exact: bool)
    requires |f.chunk| <= CHUNK && f.pending == [] && |f.main| <= cap && Sound(p, f, exact)
    ensures var r := Device(f, cap, deviceLeft, i);
            Sound(p + r.played, r.end, exact && Calm(i.duringOffer) && Calm(i.afterOffer))
  {
    var g := Pass(f, cap, i.duringOffer);
    var h := Pass(g, cap, i.afterOffer);
    var taken, kept := Taken(f.chunk, deviceLeft), Kept(f.chunk, deviceLeft);
    PassIsSound(p, f, cap, i.duringOffer, exact);
    TakenAndKept(f.chunk, deviceLeft);
    if i.duringOffer.cleared {
      DoneIsSound(p, g, CLEARED, taken, [], kept, false);
    } else {
      PassIsSound(p, g, cap, i.afterOffer, exact && Calm(i.duringOffer));
      DoneIsSound(p, h, PLAYED, taken, kept, [], exact && Calm(i.duringOffer) && Calm(i.afterOffer));
    }
  }

  /** Giving up with a chunk read out. */
  lemma DropIsSound(p: seq<byte>, f: Flow, ret: int, exact: bool)
    requires f.pending == [] && Sound(p, f, exact)
    ensures Sound(p + Done(ret, f, f.pending, []).played, Done(ret, f, f.pending, []).end, exact && f.chunk == [])
  {
    assert [] + f.chunk + [] == f.chunk && [] + f.pending == f.pending;
    DoneIsSound(p, f, ret, [], [], f.chunk, exact);
  }

  /** Returning before anything was read out. */
  lemma RestIsSound(p: seq<byte>, f: Flow, ret: int, exact: bool)
    requires f.chunk == [] && Sound(p, f, exact)
    ensures Sound(p + Done(ret, f, f.pending, []).played, Done(ret, f, f.pending, []).end, exact)
  {
    assert p + [] == p && f.(chunk := [], pending := f.pending) == f;
  }

  lemma OfferIsSound(p: seq<byte>, f: Flow, cap: nat, border: nat, deviceLeft: nat, i: Interference, exact: bool)
    requires |f.chunk| <= CHUNK && f.pending == [] && |f.main| <= cap
    requires Sound(p, f, exact) && (exact ==> |f.chunk| >= border && !ClearedLate(i))
    ensures var r := Offer(f, cap, border, deviceLeft, i);
            Sound(p + r.played, r.end, exact && Calm(i.beforeOffer) && Calm(i.duringOffer) && Calm(i.afterOffer))
  {
    if |f.chunk| < border {
      DropIsSound(p, f, UNLIKELY, exact);
    } else {
      var g := Pass(f, cap, i.beforeOffer);
      PassIsSound(p, f, cap, i.beforeOffer, exact);
      if ClearedLate(i) {
        DropIsSound(p, g, CLEARED, false);
      } else {
        DeviceIsSound(p, g, cap, deviceLeft, i, exact && Calm(i.beforeOffer));
      }
    }
  }

  lemma CountedIsSound(p: seq<byte>, f: Flow, cap: nat, i: Interference, exact: bool)
    requires Resting(f, cap) && Sound(p, f, exact)
    ensures Sound(p, Counted(f, cap, i).flow, exact && Calm(i.beforePendingCount) && Calm(i.beforeMainCount))
  {
    PassIsSound(p, f, cap, i.beforePendingCount, exact);
    PassIsSound(p, Pass(f, cap, i.beforePendingCount), cap, i.beforeMainCount, exact && Calm(i.beforePendingCount));
  }

  lemma TestedIsSound(p: seq<byte>, f: Flow, cap: nat, border: nat, deviceLeft: nat, i: Interference, exact: bool)
    requires Resting(f, cap) && Sound(p, f, exact)
    requires exact ==> Uncleared(i) && border <= |Fill(Pass(f, cap, i.beforeTest), cap, CHUNK, i).chunk|
    ensures var r := Tested(f, cap, border, deviceLeft, i); Sound(p + r.played, r.end, exact)
  {
    var g := Pass(f, cap, i.beforeTest);
    PassIsSound(p, f, cap, i.beforeTest, exact);
    if ClearedEarly(i) {
      RestIsSound(p, g, CLEARED, false);
    } else {
      FillIsSound(p, g, cap, CHUNK, i, exact);
      OfferIsSound(p, Fill(g, cap, CHUNK, i), cap, border, deviceLeft, i, exact);
    }
  }

  /** Whatever other threads write and clear, and wherever, a call can only drop bytes: what was played and what is
    * kept is left over, in order, from what the main ring was fed.  A call that no clear disturbs drops nothing. */
  lemma PlayIsSound(p: seq<byte>, f: Flow, cap: nat, border: nat, deviceLeft: nat, i: Interference, exact: bool)
    requires Resting(f, cap) && Sound(p, f, exact)
    ensures var r := Play(f, cap, border, deviceLeft, i);
            Sound(p + r.played, r.end, exact && Uncleared(i) && border <= CHUNK)
  {
    var found := Counted(f, cap, i);
    CountedIsSound(p, f, cap, i, exact);
    if found.total <= border {
      RestIsSound(p, found.flow, TOO_LITTLE, exact && Calm(i.beforePendingCount) && Calm(i.beforeMainCount));
    } else {
      CountedSizes(f, cap, i);
      ChunkSize(f, cap, i);
      TestedIsSound(p, found.flow, cap, border, deviceLeft, i, exact && Uncleared(i) && border <= CHUNK);
    }
  }

  /** When a call that no clear disturbs does play. */
  lemma PlayedIffEnough(f: Flow, cap: nat, border: nat, deviceLeft: nat, i: Interference)
    requires Resting(f, cap) && border <= CHUNK && Uncleared(i)
    ensures var r := Play(f, cap, border, deviceLeft, i);
            && (r.ret == PLAYED <==> |f.pending| + MainWhenMeasured(f, cap, i) > border)
            && (r.ret != PLAYED ==> r.ret == TOO_LITTLE && r.played == [])
            && (r.ret == PLAYED ==> |r.played| + |r.end.pending| == Min(CHUNK, |f.pending| + MainWhenRead(f, cap, i)))
  {
    CountedSizes(f, cap, i);
    ChunkSize(f, cap, i);
  }

  /** Every way in which a call can end.  A clear of the main ring counts up to the moment the device is done: seen before
    * the rings are read it leaves what is pending, seen later it drops what was read. */
  lemma ReturnCodes(f: Flow, cap: nat, border: nat, deviceLeft: nat, i: Interference)
    requires Resting(f, cap) && border <= 3072
    ensures var r := Play(f, cap, border, deviceLeft, i);
            var early := i.beforePendingCount.cleared || i.beforeMainCount.cleared || i.beforeTest.cleared;
            var late := i.beforePendingRead.cleared || i.beforeMainRead.cleared || i.beforeOffer.cleared;
            var read := PendingWhenRead(f, i) + MainWhenRead(f, cap, i);
            r.ret == if PendingWhenMeasured(f, i) + MainWhenMeasured(f, cap, i) <= border then -5
                     else if early then -1
                     else if read < border then -6
                     else if late || i.duringOffer.cleared then -1
                     else 0
    ensures var r := Play(f, cap, border, deviceLeft, i);
            && (r.ret == -5 || (r.ret == -1 && ClearedEarly(i)) ==>
                  r.played == [] && (r.end.pending == f.pending || r.end.pending == []))
            && (r.ret == -6 || (r.ret == -1 && !ClearedEarly(i)) ==> r.end.pending == [])
            && (r.played != [] ==> r.ret == 0 || (r.ret == -1 && i.duringOffer.cleared))
  {
    CountedSizes(f, cap, i);
    ChunkSize(f, cap, i);
  }

  /** What the device was offered, what it heard and what is kept: `left` bytes, unless that is more than there are. */
  ghost predicate SplitByDevice(c: seq<byte>, left: nat, played: seq<byte>, pending: seq<byte>) {
    && (left <= |c| ==> played == c[..|c| - left] && pending == c[|c| - left..])
    && (left > |c| ==> played == c && pending == [])
  }

  lemma QuietOffer(t: Flow, cap: nat, border: nat, deviceLeft: nat)
    requires border <= |t.chunk| <= CHUNK && t.pending == [] && |t.main| <= cap
    ensures var r := Offer(t, cap, border, deviceLeft, QUIET);
            r.ret == 0 && SplitByDevice(t.chunk, deviceLeft, r.played, r.end.pending) && r.end.main == t.main
  {
    QuietPass(t, cap);
    assert Kept(t.chunk, deviceLeft) + [] == Kept(t.chunk, deviceLeft);
  }

  /** With nobody in between, in plain terms: too little is left alone; otherwise the oldest bytes, first the pending
    * ones, are offered, the device hears what it takes of them, and exactly the rest of them is pending. */
  lemma QuietCall(f: Flow, cap: nat, border: nat, deviceLeft: nat)
    requires Resting(f, cap) && border <= 3072
    ensures var all := f.pending + f.main;
            var r := Play(f, cap, border, deviceLeft, QUIET);
            if |all| <= border then
              r.ret == -5 && r.played == [] && r.end.pending == f.pending && r.end.main == f.main
            else
              var c := all[..Min(3072, |all|)];
              && r.ret == 0 && SplitByDevice(c, deviceLeft, r.played, r.end.pending)
              && r.end.main == all[|c|..]
  {
    QuietPass(f, cap);
    if |f.pending| + |f.main| > border {
      QuietFill(f, cap, CHUNK);
      QuietOffer(Fill(f, cap, CHUNK, QUIET), cap, border, deviceLeft);
    }
  }

  /** The same while other threads write: what is offered is the beginning of pending ++ main ++ what was written. */
  lemma PlaysWhatTheDeviceTakes(f: Flow, cap: nat, border: nat, deviceLeft: nat, i: Interference)
    requires Resting(f, cap) && border <= CHUNK && Uncleared(i)
    requires |f.pending| + MainWhenMeasured(f, cap, i) > border
    ensures var r := Play(Start(f.pending, f.main, f.since), cap, border, deviceLeft, i);
            var n := Min(3072, |f.pending| + MainWhenRead(f, cap, i));
            && r.ret == 0 && f.pending + f.main <= r.end.fed && n <= |r.end.fed|
            && SplitByDevice(r.end.fed[..n], deviceLeft, r.played, r.end.pending)
            && r.end.main == r.end.fed[n..]
  {
    var g := Start(f.pending, f.main, f.since);
    var r := Play(g, cap, border, deviceLeft, i);
    PlayedIffEnough(g, cap, border, deviceLeft, i);
    KeptSize(g, cap, border, deviceLeft, i);
    FedGrows(g, cap, border, deviceLeft, i);
    FedIsCut(f, cap, border, deviceLeft, i);
    SizesSplit(r, Min(3072, |f.pending| + MainWhenRead(f, cap, i)), deviceLeft);
  }

  lemma SizesSplit(r: Outcome, n: nat, deviceLeft: nat)
    requires n <= |r.end.fed| && |r.played| + |r.end.pending| == n
    requires |r.end.pending| == if deviceLeft > n then 0 else deviceLeft
    requires r.played == r.end.fed[..n][..|r.played|] && r.end.pending == r.end.fed[..n][|r.played|..]
    ensures SplitByDevice(r.end.fed[..n], deviceLeft, r.played, r.end.pending)
  {
  }

  lemma FedIsCut(f: Flow, cap: nat, border: nat, deviceLeft: nat, i: Interference)
    requires Resting(f, cap) && border <= CHUNK && Uncleared(i)
    ensures var r := Play(Start(f.pending, f.main, f.since), cap, border, deviceLeft, i);
            var n := |r.played| + |r.end.pending|;
            && n <= |r.end.fed| && r.played == r.end.fed[..n][..|r.played|]
            && r.end.pending == r.end.fed[..n][|r.played|..] && r.end.main == r.end.fed[n..]
  {
    var g := Start(f.pending, f.main, f.since);
    var r := Play(g, cap, border, deviceLeft, i);
    StartIsSound(f.pending, f.main, f.since);
    PlayIsSound([], g, cap, border, deviceLeft, i, true);
    assert [] + r.played == r.played;
    CutBySize(r.played, r.end.pending, r.end.main, r.end.fed);
  }

  lemma CutBySize(played: seq<byte>, pending: seq<byte>, main: seq<byte>, fed: seq<byte>)
    requires played + [] + pending + main == fed
    ensures var n := |played| + |pending|;
            && n <= |fed| && played == fed[..n][..|played|] && pending == fed[..n][|played|..] && main == fed[n..]
  {
  }

  // ---------- Whole runs ----------

  /** `Rewind` is CharBufferBrush: the reader of the main ring gets the last `k` bytes again that were written since
    * the last clear.  What it had not read yet is among them.  `Skip` reads bytes and forgets them. */
  datatype Event =
    | Produce(src: seq<byte>)
    | Clearing
    | ClearingPending
    | Rewind(k: nat)
    | Skip(n: nat)
    | PlayCall(border: nat, deviceLeft: nat, interference: Interference)
    | CallerTurn(k: nat, left1: nat, i1: Interference, left2: nat, i2: Interference)

  datatype Session = Session(flow: Flow, played: seq<byte>)

  /** The last `k` bytes written, as far as there are so many and the ring can hold them. */
  function Replay(f: Flow, cap: nat, k: nat): (s: seq<byte>)
    ensures |s| <= cap && |s| <= |f.since|
  {
    f.since[|f.since| - Min(cap, Min(k, |f.since|))..]
  }

  /** The replay is fed to the reader again, in place of what waited. */
  function Rewound(f: Flow, cap: nat, k: nat): Flow {
    var s := Replay(f, cap, k);
    f.(main := s, offered := f.offered + s, fed := f.fed + s)
  }

  function Skipped(f: Flow, n: nat): Flow {
    f.(main := f.main[Min(n, |f.main|)..])
  }

  /** The bytes the caller skips after rewinding. */
  const SKIPPED := 48

  /** The last call of a turn; the pending ring is cleared behind it. */
  function LastCall(s: Session, cap: nat, deviceLeft: nat, i: Interference): (t: Session)
    requires Resting(s.flow, cap)
    ensures Resting(t.flow, cap)
  {
    var r := Play(s.flow, cap, BORDER_PROMPT, deviceLeft, i);
    Session(r.end.(pending := []), s.played + r.played)
  }

  /** The caller's turn: one call, and if that found too little, the clip is rewound, its header skipped, and one
    * more call made. */
  function Turn(s: Session, cap: nat, k: nat, left1: nat, i1: Interference, left2: nat, i2: Interference): (t: Session)
    requires Resting(s.flow, cap)
    ensures Resting(t.flow, cap)
  {
    var r := Play(s.flow, cap, BORDER_PROMPT, left1, i1);
    var s1 := Session(r.end, s.played + r.played);
    if r.ret != TOO_LITTLE then s1
    else LastCall(Session(Skipped(Rewound(r.end, cap, k), SKIPPED), s1.played), cap, left2, i2)
  }

  function Step(s: Session, cap: nat, e: Event): (t: Session)
    requires Resting(s.flow, cap)
    ensures Resting(t.flow, cap)
  {
    match e
    case Produce(src) => s.(flow := Written(s.flow, cap, src))
    case Clearing => s.(flow := Cleared(s.flow, Meanwhile(false, true, [])))
    case ClearingPending => s.(flow := Cleared(s.flow, Meanwhile(true, false, [])))
    case Rewind(k) => s.(flow := Rewound(s.flow, cap, k))
    case Skip(n) => s.(flow := Skipped(s.flow, n))
    case PlayCall(border, deviceLeft, i) =>
      var r := Play(s.flow, cap, border, deviceLeft, i);
      Session(r.end, s.played + r.played)
    case CallerTurn(k, left1, i1, left2, i2) => Turn(s, cap, k, left1, i1, left2, i2)
  }

  function Run(s: Session, cap: nat, events: seq<Event>): (t: Session)
    requires Resting(s.flow, cap)
    ensures Resting(t.flow, cap)
    decreases |events|
  {
    if events == [] then s else Run(Step(s, cap, events[0]), cap, events[1..])
  }

  /** No clear and no rewind, and a border that a chunk can reach, as both callers' borders are. */
  predicate Undisturbed(e: Event) {
    match e
    case Produce(_) => true
    case PlayCall(border, _, i) => Uncleared(i) && border <= CHUNK
    case _ => false
  }

  lemma RewindIsSound(p: seq<byte>, f: Flow, cap: nat, k: nat)
    requires f.chunk == [] && Sound(p, f, false)
    ensures Sound(p, Rewound(f, cap, k), false)
  {
    var s := Replay(f, cap, k);
    assert p + [] + f.pending + f.main + [] == Whole(p, f);
    DropPiece(p + f.chunk + f.pending, f.main, [], f.fed);
    assert p + f.chunk + f.pending + [] == p + f.chunk + f.pending;
    SubAppend(p + f.chunk + f.pending, f.fed, s);
    SubAppend(f.fed, f.offered, s);
    SubLength(f.fed, f.offered);
  }

  lemma SkipIsSound(p: seq<byte>, f: Flow, n: nat)
    requires Sound(p, f, false)
    ensures Sound(p, Skipped(f, n), false)
  {
    var k := Min(n, |f.main|);
    var x := p + f.chunk + f.pending;
    Join(x, f.main[..k], f.main[k..]);
    assert f.main[..k] + f.main[k..] == f.main;
    DropPiece(x, f.main[..k], f.main[k..], f.fed);
  }

  lemma LastCallIsSound(s: Session, cap: nat, deviceLeft: nat, i: Interference)
    requires Resting(s.flow, cap) && Sound(s.played, s.flow, false)
    ensures var t := LastCall(s, cap, deviceLeft, i); Sound(t.played, t.flow, false)
  {
    var r := Play(s.flow, cap, BORDER_PROMPT, deviceLeft, i);
    PlayIsSound(s.played, s.flow, cap, BORDER_PROMPT, deviceLeft, i, false);
    ClearedIsSound(s.played + r.played, r.end, Meanwhile(true, false, []), false);
  }

  lemma TurnIsSound(s: Session, cap: nat, k: nat, left1: nat, i1: Interference, left2: nat, i2: Interference)
    requires Resting(s.flow, cap) && Sound(s.played, s.flow, false)
    ensures var t := Turn(s, cap, k, left1, i1, left2, i2); Sound(t.played, t.flow, false)
  {
    var r := Play(s.flow, cap, BORDER_PROMPT, left1, i1);
    var p := s.played + r.played;
    PlayIsSound(s.played, s.flow, cap, BORDER_PROMPT, left1, i1, false);
    if r.ret == TOO_LITTLE {
      RewindIsSound(p, r.end, cap, k);
      SkipIsSound(p, Rewound(r.end, cap, k), SKIPPED);
      LastCallIsSound(Session(Skipped(Rewound(r.end, cap, k), SKIPPED), p), cap, left2, i2);
    }
  }

  lemma StepIsSound(s: Session, cap: nat, e: Event, exact: bool)
    requires Resting(s.flow, cap) && Sound(s.played, s.flow, exact)
    ensures var t := Step(s, cap, e); Sound(t.played, t.flow, exact && Undisturbed(e))
  {
    match e
    case Produce(src) => WrittenIsSound(s.played, s.flow, cap, src, exact);
    case Clearing => ClearedIsSound(s.played, s.flow, Meanwhile(false, true, []), exact);
    case ClearingPending => ClearedIsSound(s.played, s.flow, Meanwhile(true, false, []), exact);
    case Rewind(k) => RewindIsSound(s.played, s.flow, cap, k);
    case Skip(n) => SkipIsSound(s.played, s.flow, n);
    case PlayCall(border, deviceLeft, i) => PlayIsSound(s.played, s.flow, cap, border, deviceLeft, i, exact);
    case CallerTurn(k, left1, i1, left2, i2) => TurnIsSound(s, cap, k, left1, i1, left2, i2);
  }

  predicate AllUndisturbed(events: seq<Event>) {
    forall k :: 0 <= k < |events| ==> Undisturbed(events[k])
  }

  /** Over any run what was played, what is pending and what waits are left over, in order, from what the main ring
    * was fed; without clears and rewinds nothing is missing. */
  lemma {:induction false} RunIsSound(s: Session, cap: nat, events: seq<Event>, exact: bool)
    requires Resting(s.flow, cap) && Sound(s.played, s.flow, exact)
    ensures var t := Run(s, cap, events); Sound(t.played, t.flow, exact && AllUndisturbed(events))
    decreases |events|
  {
    if events != [] {
      StepIsSound(s, cap, events[0], exact);
      RunIsSound(Step(s, cap, events[0]), cap, events[1..], exact && Undisturbed(events[0]));
      assert AllUndisturbed(events) ==> Undisturbed(events[0]) && AllUndisturbed(events[1..]);
    }
  }

  /** Over any run without a clear the device hears a beginning of what was written, and never more than one
    * chunk plus the main ring is still to come. */
  lemma EveryRunPlaysAPrefix(cap: nat, events: seq<Event>)
    requires AllUndisturbed(events)
    ensures var t := Run(Session(SILENCE, []), cap, events);
            && t.played + t.flow.pending + t.flow.main == t.flow.fed
            && t.played <= t.flow.fed
            && |t.flow.fed| - |t.played| <= CHUNK + cap
  {
    RunIsSound(Session(SILENCE, []), cap, events, true);
    var t := Run(Session(SILENCE, []), cap, events);
    assert t.played + [] == t.played;
    Join(t.played, t.flow.pending, t.flow.main);
  }

  /** With clears and rewinds at any point, any border and any device, what is played is what the main ring was fed,
    * replays included, with bytes left out: nothing else is doubled, reordered or made up. */
  lemma EveryRunPlaysASubsequence(cap: nat, events: seq<Event>)
    ensures var t := Run(Session(SILENCE, []), cap, events); IsSub(t.played, t.flow.fed)
  {
    RunIsSound(Session(SILENCE, []), cap, events, false);
    var t := Run(Session(SILENCE, []), cap, events);
    Join(t.played + [], t.flow.pending, t.flow.main);
    SubRefl(t.played);
    SubExtend(t.played, t.played, t.flow.pending + t.flow.main);
    assert t.played + [] == t.played;
    SubTrans(t.played, Whole(t.played, t.flow), t.flow.fed);
  }

  /** The main ring took everything that was offered if and only if it had room at every write, and otherwise it
    * took it with bytes left out. */
  lemma CompleteIffRoom(cap: nat, events: seq<Event>)
    ensures var t := Run(Session(SILENCE, []), cap, events).flow;
            IsSub(t.fed, t.offered) && (t.fed == t.offered <==> t.room)
  {
    RunIsSound(Session(SILENCE, []), cap, events, false);
  }

  // ---------- What a clear cuts off ----------

  predicate NothingWritten(i: Interference) {
    && i.beforePendingCount.src == [] && i.beforeMainCount.src == [] && i.beforeTest.src == []
    && i.beforePendingRead.src == [] && i.beforeMainRead.src == [] && i.beforeOffer.src == []
    && i.duringOffer.src == [] && i.afterOffer.src == []
  }

  /** A beginning of all that was there, or of what the main ring held. */
  predicate Stretch(s: seq<byte>, f: Flow) {
    s <= f.pending + f.main || s <= f.main
  }

  lemma SilentPass(f: Flow, cap: nat, m: Meanwhile)
    requires |f.main| <= cap && m.src == []
    ensures Pass(f, cap, m).main == if m.cleared then [] else f.main
  {
  }

  lemma EndsAreStretches(f: Flow)
    ensures Stretch(f.pending + f.main, f) && Stretch(f.pending + [], f)
    ensures Stretch([] + f.main, f) && Stretch([] + [], f)
  {
    assert [] + f.main == f.main;
  }

  lemma TakeMainJoins(f: Flow)
    requires |f.chunk| <= CHUNK
    ensures TakeMain(f, CHUNK).chunk + TakeMain(f, CHUNK).main == f.chunk + f.main
  {
    var n := Min(CHUNK - |f.chunk|, |f.main|);
    Join(f.chunk, f.main[..n], f.main[n..]);
    assert f.main[..n] + f.main[n..] == f.main;
  }

  lemma SilentFill(f: Flow, g: Flow, cap: nat, i: Interference)
    requires Resting(g, cap) && NothingWritten(i)
    requires (g.pending == f.pending || g.pending == []) && (g.main == f.main || g.main == [])
    ensures var h := Fill(g, cap, CHUNK, i);
            && Stretch(h.chunk + h.main, f)
            && (i.beforePendingRead.cleared || i.beforeMainRead.cleared ==> h.main == [])
  {
    var a := Pass(g, cap, i.beforePendingRead);
    var b := TakePending(a, CHUNK);
    var c := Pass(b, cap, i.beforeMainRead);
    SilentPass(g, cap, i.beforePendingRead);
    SilentPass(b, cap, i.beforeMainRead);
    assert c.chunk == a.pending;
    TakeMainJoins(c);
    EndsAreStretches(f);
  }

  /** What the device does with the beginning of a stretch. */
  lemma StretchSplits(f: Flow, chunk: seq<byte>, main: seq<byte>, deviceLeft: nat)
    requires Stretch(chunk + main, f)
    ensures var taken, kept := Taken(chunk, deviceLeft), Kept(chunk, deviceLeft);
            && Stretch(taken + ([] + []), f) && Stretch(taken + (kept + [] + main), f)
            && Stretch(taken + (kept + [] + []), f)
  {
    var taken, kept := Taken(chunk, deviceLeft), Kept(chunk, deviceLeft);
    assert kept + [] == kept && taken + kept == chunk;
    Join(taken, kept, main);
    assert taken + (kept + []) == chunk && taken + ([] + []) == taken;
    assert chunk <= chunk + main && taken <= chunk + main;
  }

  lemma SilentOffer(f: Flow, h: Flow, cap: nat, border: nat, deviceLeft: nat, i: Interference)
    requires |h.chunk| <= CHUNK && h.pending == [] && |h.main| <= cap && NothingWritten(i)
    requires Stretch(h.chunk + h.main, f)
    requires i.beforePendingRead.cleared || i.beforeMainRead.cleared || |h.chunk| < border ==> h.main == []
    ensures var r := Offer(h, cap, border, deviceLeft, i); Stretch(r.played + (r.end.pending + r.end.main), f)
  {
    var a := Pass(h, cap, i.beforeOffer);
    SilentPass(h, cap, i.beforeOffer);
    if |h.chunk| >= border && !ClearedLate(i) {
      SilentPass(a, cap, i.duringOffer);
      SilentPass(Pass(a, cap, i.duringOffer), cap, i.afterOffer);
      StretchSplits(f, h.chunk, h.main, deviceLeft);
    }
  }

  /** If nothing is written during the call, clears cut the stream at its ends only: what was played, followed by
    * what is kept, is a beginning of what was there, or of what the main ring held. */
  lemma ClearsCutOnlyTheEnds(f: Flow, cap: nat, border: nat, deviceLeft: nat, i: Interference)
    requires Resting(f, cap) && border <= CHUNK && NothingWritten(i)
    ensures var r := Play(f, cap, border, deviceLeft, i); Stretch(r.played + (r.end.pending + r.end.main), f)
  {
    var a := Pass(f, cap, i.beforePendingCount);
    var b := Pass(a, cap, i.beforeMainCount);
    var g := Pass(b, cap, i.beforeTest);
    SilentPass(f, cap, i.beforePendingCount);
    SilentPass(a, cap, i.beforeMainCount);
    SilentPass(b, cap, i.beforeTest);
    if Counted(f, cap, i).total > border && !ClearedEarly(i) {
      SilentFill(f, g, cap, i);
      SilentOffer(f, Fill(g, cap, CHUNK, i), cap, border, deviceLeft, i);
    }
  }

  // ---------- Starting the clip again ----------

  /** The call of a restart, counted from the rewinding on: the device hears what was pending and the clip without a
    * gap if and only if it left nothing of the chunk, because what it left is cleared away; and if there was too
    * little for the call, if and only if nothing was pending. */
  lemma RestartIsGaplessIff(f: Flow, cap: nat, deviceLeft: nat, i: Interference)
    requires Resting(f, cap) && Uncleared(i)
    ensures var t := LastCall(Session(Start(f.pending, f.main, f.since), []), cap, deviceLeft, i);
            && f.pending + f.main <= t.flow.fed
            && (t.played + t.flow.main == t.flow.fed <==>
                  if |f.pending| + MainWhenMeasured(f, cap, i) <= BORDER_PROMPT then f.pending == []
                  else deviceLeft == 0 || deviceLeft > Min(CHUNK, |f.pending| + MainWhenRead(f, cap, i)))
  {
    var g := Start(f.pending, f.main, f.since);
    CallIsComplete(f, cap, deviceLeft, i);
    FedGrows(g, cap, BORDER_PROMPT, deviceLeft, i);
    KeptSize(g, cap, BORDER_PROMPT, deviceLeft, i);
    assert [] + Play(g, cap, BORDER_PROMPT, deviceLeft, i).played
        == Play(g, cap, BORDER_PROMPT, deviceLeft, i).played;
  }

  /** A whole turn with nobody in between, over a clip that fits the ring: a call that finds too little plays nothing; the
    * clip is put back without its first 48 bytes, behind what was pending; the device hears what it takes of the first
    * chunk; and nothing stays pending. */
  lemma QuietTurn(s: Session, cap: nat, k: nat, left1: nat, left2: nat)
    requires Resting(s.flow, cap) && |s.flow.pending| + |s.flow.main| <= 2234
    requires 48 <= |s.flow.since| <= cap && k >= |s.flow.since|
    ensures var t := Turn(s, cap, k, left1, QUIET, left2, QUIET);
            var all := s.flow.pending + s.flow.since[48..];
            t.flow.pending == [] &&
            if |all| <= 2234 then t.played == s.played && t.flow.main == s.flow.since[48..]
            else
              var c := all[..Min(3072, |all|)];
              && t.flow.main == all[|c|..]
              && t.played == s.played + if left2 > |c| then c else c[..|c| - left2]
  {
    QuietCall(s.flow, cap, BORDER_PROMPT, left1);
    QuietTooLittle(s.flow, cap, left1);
    var g := Skipped(Rewound(s.flow, cap, k), SKIPPED);
    assert Replay(s.flow, cap, k) == s.flow.since;
    QuietCall(g, cap, BORDER_PROMPT, left2);
    assert s.played + [] == s.played;
  }

  lemma QuietTooLittle(f: Flow, cap: nat, left: nat)
    requires Resting(f, cap) && |f.pending| + |f.main| <= 2234
    ensures Play(f, cap, BORDER_PROMPT, left, QUIET) == Outcome(-5, [], f)
  {
    QuietPass(f, cap);
  }

  lemma CallIsComplete(f: Flow, cap: nat, deviceLeft: nat, i: Interference)
    requires Resting(f, cap) && Uncleared(i)
    ensures var r := Play(Start(f.pending, f.main, f.since), cap, BORDER_PROMPT, deviceLeft, i);
            r.played + r.end.main == r.end.fed <==> r.end.pending == []
  {
    var g := Start(f.pending, f.main, f.since);
    var r := Play(g, cap, BORDER_PROMPT, deviceLeft, i);
    StartIsSound(f.pending, f.main, f.since);
    PlayIsSound([], g, cap, BORDER_PROMPT, deviceLeft, i, true);
    assert [] + r.played == r.played;
    ExactIffNothingPending(r.played, r.end);
  }

  lemma ExactIffNothingPending(p: seq<byte>, f: Flow)
    requires f.chunk == [] && Sound(p, f, true)
    ensures p + f.main == f.fed <==> f.pending == []
  {
    assert |Whole(p, f)| == |p| + |f.pending| + |f.main|;
    if f.pending == [] {
      assert p + [] + [] + f.main == p + f.main;
    }
  }

  /** What stays pending behind a call that no clear disturbs. */
  lemma KeptSize(f: Flow, cap: nat, border: nat, deviceLeft: nat, i: Interference)
    requires Resting(f, cap) && Uncleared(i) && border <= CHUNK
    ensures |Play(f, cap, border, deviceLeft, i).end.pending| ==
            if |f.pending| + MainWhenMeasured(f, cap, i) <= border then |f.pending|
            else if deviceLeft > Min(CHUNK, |f.pending| + MainWhenRead(f, cap, i)) then 0
            else deviceLeft
  {
    CountedSizes(f, cap, i);
    ChunkSize(f, cap, i);
  }

  lemma OfferFeeds(f: Flow, cap: nat, border: nat, deviceLeft: nat, i: Interference)
    requires |f.chunk| <= CHUNK && f.pending == [] && |f.main| <= cap
    ensures f.fed <= Offer(f, cap, border, deviceLeft, i).end.fed
  {
    var g := Pass(f, cap, i.beforeOffer);
    var h := Pass(g, cap, i.duringOffer);
    assert f.fed <= g.fed && g.fed <= h.fed && h.fed <= Pass(h, cap, i.afterOffer).fed;
  }

  lemma FillFeeds(f: Flow, cap: nat, i: Interference)
    requires Resting(f, cap)
    ensures f.fed <= Fill(f, cap, CHUNK, i).fed
  {
    var g := Pass(f, cap, i.beforePendingRead);
    assert f.fed <= g.fed;
    assert g.fed <= Pass(TakePending(g, CHUNK), cap, i.beforeMainRead).fed;
  }

  lemma FedGrows(f: Flow, cap: nat, border: nat, deviceLeft: nat, i: Interference)
    requires Resting(f, cap)
    ensures f.fed <= Play(f, cap, border, deviceLeft, i).end.fed
  {
    var a := Pass(f, cap, i.beforePendingCount);
    var b := Counted(f, cap, i).flow;
    var g := Pass(b, cap, i.beforeTest);
    assert f.fed <= a.fed && a.fed <= b.fed && b.fed <= g.fed;
    FillFeeds(g, cap, i);
    OfferFeeds(Fill(g, cap, CHUNK, i), cap, border, deviceLeft, i);
  }

  // ---------- The code ----------

  /** How a call ended, and how it should have. */
  ghost predicate Agrees(main: Ring, pending: Ring, ret: int, played: seq<byte>, r: Outcome)
    reads main, main.cells, pending, pending.cells
  {
    ret == r.ret && played == r.played && Holds(main, pending, r.end)
  }

  /** PlayAudioTwice (border 2234) and PlayAudioTwice_analog (border 64), which differ in nothing else that matters
    * here. */
  method PlayAudioTwice(main: Ring, pending: Ring, border: nat, deviceLeft: nat, i: Interference, ghost f: Flow)
    returns (ret: int, played: seq<byte>)
    requires Holds(main, pending, f) && Resting(f, main.Capacity())
    modifies main, main.cells, pending, pending.cells
    ensures Agrees(main, pending, ret, played, Play(f, main.Capacity(), border, deviceLeft, i))
  {
    var clearFlag := main.clearCount;
    Elsewhere(main, pending, i.beforePendingCount, f);
    var pendingTotal := Measure(pending);
    ghost var a := Pass(f, main.Capacity(), i.beforePendingCount);
    Elsewhere(main, pending, i.beforeMainCount, a);
    var mainTotal := Measure(main);
    if mainTotal + pendingTotal <= border {
      return TOO_LITTLE, [];
    }
    ghost var b := Pass(a, main.Capacity(), i.beforeMainCount);
    ret, played := TestAndTake(main, pending, clearFlag, border, deviceLeft, i, b);
  }

  method TestAndTake(main: Ring, pending: Ring, clearFlag: byte, border: nat, deviceLeft: nat, i: Interference,
                     ghost f: Flow)
    returns (ret: int, played: seq<byte>)
    requires Holds(main, pending, f) && Resting(f, main.Capacity())
    requires main.clearCount == Bump(Bump(clearFlag, i.beforePendingCount.cleared), i.beforeMainCount.cleared)
    modifies main, main.cells, pending, pending.cells
    ensures Agrees(main, pending, ret, played, Tested(f, main.Capacity(), border, deviceLeft, i))
  {
    Elsewhere(main, pending, i.beforeTest, f);
    if clearFlag != main.clearCount {
      return CLEARED, [];
    }
    ghost var g := Pass(f, main.Capacity(), i.beforeTest);
    ret, played := TakeAndOffer(main, pending, clearFlag, border, deviceLeft, i, g);
  }

  method TakeAndOffer(main: Ring, pending: Ring, clearFlag: byte, border: nat, deviceLeft: nat, i: Interference,
                      ghost f: Flow)
    returns (ret: int, played: seq<byte>)
    requires Holds(main, pending, f) && Resting(f, main.Capacity()) && clearFlag == main.clearCount
    modifies main, main.cells, pending, pending.cells
    ensures Agrees(main, pending, ret, played,
                   Offer(Fill(f, main.Capacity(), CHUNK, i), main.Capacity(), border, deviceLeft, i))
  {
    ghost var t := Fill(f, main.Capacity(), CHUNK, i);
    var ok, tmp := ReadChunk(main, pending, CHUNK, i, f);
    if !ok || |tmp| < border {
      return UNLIKELY, [];
    }
    ret, played := TestAndOffer(main, pending, tmp, clearFlag, deviceLeft, i, t);
  }

  method TestAndOffer(main: Ring, pending: Ring, tmp: seq<byte>, clearFlag: byte, deviceLeft: nat, i: Interference,
                      ghost f: Flow)
    returns (ret: int, played: seq<byte>)
    requires Holds(main, pending, f) && f.chunk == tmp && f.pending == [] && |tmp| <= CHUNK
    requires main.clearCount == Bump(Bump(clearFlag, i.beforePendingRead.cleared), i.beforeMainRead.cleared)
    modifies main, main.cells, pending, pending.cells
    ensures Agrees(main, pending, ret, played, Offer(f, main.Capacity(), 0, deviceLeft, i))
  {
    Elsewhere(main, pending, i.beforeOffer, f);
    if clearFlag != main.clearCount {
      return CLEARED, [];
    }
    ret, played := OfferToDevice(main, pending, tmp, clearFlag, deviceLeft, i, Pass(f, main.Capacity(), i.beforeOffer));
  }

  /** The device takes what it can, and the rest is kept, unless the main ring was cleared meanwhile. */
  method OfferToDevice(main: Ring, pending: Ring, tmp: seq<byte>, clearFlag: byte, deviceLeft: nat, i: Interference,
                       ghost f: Flow)
    returns (ret: int, played: seq<byte>)
    requires Holds(main, pending, f) && f.chunk == tmp && f.pending == [] && |tmp| <= CHUNK
    requires clearFlag == main.clearCount
    modifies main, main.cells, pending, pending.cells
    ensures Agrees(main, pending, ret, played, Device(f, main.Capacity(), deviceLeft, i))
  {
    var len := deviceLeft;
    var leftLen := if len > |tmp| then 0 else len;
    played := tmp[..|tmp| - leftLen];
    assert played == Taken(tmp, deviceLeft) && tmp[|tmp| - leftLen..] == Kept(tmp, deviceLeft);
    Elsewhere(main, pending, i.duringOffer, f);
    if clearFlag != main.clearCount {
      return CLEARED, played;
    }
    KeepRest(main, pending, tmp[|tmp| - leftLen..], i.afterOffer, Pass(f, main.Capacity(), i.duringOffer));
    ret := PLAYED;
  }

  method KeepRest(main: Ring, pending: Ring, back: seq<byte>, m: Meanwhile, ghost f: Flow)
    requires Holds(main, pending, f) && f.pending == [] && |back| <= CHUNK
    modifies main, main.cells, pending, pending.cells
    ensures var g := Pass(f, main.Capacity(), m); Holds(main, pending, g.(chunk := [], pending := back + g.pending))
  {
    Elsewhere(main, pending, m, f);
    PushBack(main, pending, back, Pass(f, main.Capacity(), m));
  }

  /** Last step: keep what the device did not take. */
  method PushBack(main: Ring, pending: Ring, back: seq<byte>, ghost f: Flow)
    requires Holds(main, pending, f) && f.pending == [] && |back| <= CHUNK
    modifies pending`wr, pending`sinceClear, pending`earlier, pending.cells
    ensures Holds(main, pending, f.(chunk := [], pending := back + f.pending))
  {
    assert back + [] == back;
    PutIsConcatenationIffItFits([], pending.Capacity(), back);
    if |back| > 0 {
      var n := pending.Write(back);
    }
  }

  /** The only caller of PlayAudioTwice.  `k` is how far back the rewinding reached: to the last clear, unless the
    * clip used up the memory. */
  method AlarmTurn(main: Ring, pending: Ring, left1: nat, i1: Interference, left2: nat, i2: Interference,
                   ghost s: Session)
    returns (played: seq<byte>, ghost k: nat)
    requires Holds(main, pending, s.flow) && Resting(s.flow, main.Capacity())
    modifies main, main.cells, pending, pending.cells
    ensures var t := Turn(s, main.Capacity(), k, left1, i1, left2, i2);
            Holds(main, pending, t.flow) && t.played == s.played + played
    ensures var since := Play(s.flow, main.Capacity(), BORDER_PROMPT, left1, i1).end.since;
            |since| <= main.Capacity() ==> k >= |since|
  {
    var ret;
    ret, played := PlayAudioTwice(main, pending, BORDER_PROMPT, left1, i1, s.flow);
    ghost var end := Play(s.flow, main.Capacity(), BORDER_PROMPT, left1, i1).end;
    k := |main.sinceClear|;
    if ret == TOO_LITTLE {
      k := RewindAndSkip(main, pending, end);
      ghost var g := Skipped(Rewound(end, main.Capacity(), k), SKIPPED);
      var more := PlayLast(main, pending, left2, i2, Session(g, s.played + played));
      Join(s.played, played, more);
      played := played + more;
    }
  }

  method PlayLast(main: Ring, pending: Ring, deviceLeft: nat, i: Interference, ghost s: Session)
    returns (played: seq<byte>)
    requires Holds(main, pending, s.flow) && Resting(s.flow, main.Capacity())
    modifies main, main.cells, pending, pending.cells
    ensures var t := LastCall(s, main.Capacity(), deviceLeft, i);
            Holds(main, pending, t.flow) && t.played == s.played + played
  {
    var ret;
    ret, played := PlayAudioTwice(main, pending, BORDER_PROMPT, deviceLeft, i, s.flow);
    ghost var r := Play(s.flow, main.Capacity(), BORDER_PROMPT, deviceLeft, i);
    ClearRings(main, pending, Meanwhile(true, false, []), r.end);
  }

  method RewindAndSkip(main: Ring, pending: Ring, ghost f: Flow) returns (ghost k: nat)
    requires Holds(main, pending, f) && Resting(f, main.Capacity())
    modifies main`rd
    ensures Holds(main, pending, Skipped(Rewound(f, main.Capacity(), k), SKIPPED))
    ensures |f.since| <= main.Capacity() ==> k >= |f.since|
  {
    k := RewindRing(main, pending, f);
    SkipHeader(main, pending, Rewound(f, main.Capacity(), k));
  }

  method RewindRing(main: Ring, pending: Ring, ghost f: Flow) returns (ghost k: nat)
    requires Holds(main, pending, f)
    modifies main`rd
    ensures Holds(main, pending, Rewound(f, main.Capacity(), k))
    ensures |f.since| <= main.Capacity() ==> k >= |f.since|
  {
    main.Brush();
    k := |main.Contents()|;
    assert main.Contents() == Replay(f, main.Capacity(), k);
  }

  method SkipHeader(main: Ring, pending: Ring, ghost f: Flow)
    requires Holds(main, pending, f)
    modifies main`rd
    ensures Holds(main, pending, Skipped(f, SKIPPED))
  {
    var n, header := main.Read(SKIPPED);
  }
}
