/** The players of the ring that network packages reach: voice is filled up with blanks to a frame of fixed size, and
  * what the sound card does not take of a frame is not offered again.
  *
  * PlayAudioTwice_D2P and PlayAudioTwice_D2D differ in the sizes below and in nothing else.
  */
module VoicePlayback {
  import opened AudioFlow
  import opened CharBuffer
  import opened Subsequence

  /** `room` is sizeof(tmp_buff); blanks fill it up to `padTo`; `frame` bytes are offered to the device. */
  datatype Format = Format(room: nat, padTo: nat, frame: nat)

  const D2P := Format(3072, 3000, 3000)
  const D2D := Format(3500, 3072, 3500)

  /** sizeof(mic_blank_audio_data). */
  const BLANK_SIZE := 3072

  const SPOKEN := 0
  const CLEARED := -1
  const NOTHING := -2
  const TRIMMED_TOO_FAR := -5

  const BORDER := 64
  const BACKLOG := 3000
  const TRIM_LIMIT := 3024
  const TRIM_BORDER := 2232
  const WARM := 10

  predicate Fit(fmt: Format) {
    && fmt.padTo <= fmt.room && fmt.frame <= fmt.room
    && BORDER < fmt.padTo <= fmt.frame && fmt.padTo <= BLANK_SIZE
    && TRIM_LIMIT <= fmt.room && (fmt.padTo == fmt.frame || TRIM_LIMIT <= fmt.padTo)
  }

  /** whe_d2d_souder_have_been_worked and whe_d2d_souder_stable. */
  datatype Speaker = Speaker(worked: byte, stable: bool)

  /** What other threads do while a backlog is trimmed: before the two reductions, and before each of the two rings is
    * measured again. */
  datatype Trimming = Trimming(before: Meanwhile, beforePendingCount: Meanwhile, beforeMainCount: Meanwhile)

  predicate Untrimmed(t: Trimming) {
    Calm(t.before) && Calm(t.beforePendingCount) && Calm(t.beforeMainCount)
  }

  /** Everything outside that a call depends on: the other threads, what the stack holds where tmp_buff lies, the
    * blank sound, and how much the device leaves. */
  datatype Surroundings = Surroundings(
    i: Interference, t: Trimming, stale: seq<byte>, blank: seq<byte>, deviceLeft: nat)

  predicate Proper(fmt: Format, x: Surroundings) {
    |x.stale| == fmt.room && |x.blank| == BLANK_SIZE
  }

  /** `heard` is all that the device accepted; `out.played` the voice in it. */
  datatype Voice = Voice(out: Outcome, heard: seq<byte>, speaker: Speaker)

  // ---------- One call ----------

  /** What is offered: the voice, blanks behind it, and whatever tmp_buff held behind those. */
  function Frame(fmt: Format, chunk: seq<byte>, x: Surroundings): (f: seq<byte>)
    requires Fit(fmt) && Proper(fmt, x) && |chunk| <= fmt.room
    ensures |f| == fmt.frame
  {
    Padded(fmt, chunk, x)[..fmt.frame]
  }

  /** tmp_buff when it is offered. */
  function Padded(fmt: Format, chunk: seq<byte>, x: Surroundings): (t: seq<byte>)
    requires Fit(fmt) && Proper(fmt, x) && |chunk| <= fmt.room
    ensures |t| == fmt.room
  {
    var body := if |chunk| < fmt.padTo then chunk + x.blank[..fmt.padTo - |chunk|] else chunk;
    body + x.stale[|body|..]
  }

  /** A frame begins with the voice, as far as there is room for it; blanks follow up to the padding border. */
  lemma FrameParts(fmt: Format, chunk: seq<byte>, x: Surroundings)
    requires Fit(fmt) && Proper(fmt, x) && |chunk| <= fmt.room
    ensures var f, n := Frame(fmt, chunk, x), Min(|chunk|, fmt.frame);
            && f[..n] == chunk[..n]
            && (|chunk| < fmt.padTo ==> f[|chunk|..fmt.padTo] == x.blank[..fmt.padTo - |chunk|])
  {
    var t := Padded(fmt, chunk, x);
    var m := if |chunk| < fmt.padTo then fmt.padTo else |chunk|;
    assert t[..m][..|chunk|] == chunk;
    assert |chunk| < fmt.padTo ==> t[..m][|chunk|..] == x.blank[..fmt.padTo - |chunk|];
    assert t[..fmt.frame][..Min(|chunk|, fmt.frame)] == t[..m][..|chunk|][..Min(|chunk|, fmt.frame)];
    assert |chunk| < fmt.padTo ==> t[..fmt.frame][|chunk|..fmt.padTo] == t[..m][|chunk|..];
  }

  function Accepted(fmt: Format, deviceLeft: nat): (n: nat)
    ensures n <= fmt.frame
  {
    fmt.frame - LeftOf(fmt.frame, deviceLeft)
  }

  /** The voice in the accepted part of a frame, and the voice behind it. */
  function Spoken(fmt: Format, chunk: seq<byte>, deviceLeft: nat): seq<byte> {
    chunk[..Min(|chunk|, Accepted(fmt, deviceLeft))]
  }

  function Dropped(fmt: Format, chunk: seq<byte>, deviceLeft: nat): seq<byte> {
    chunk[Min(|chunk|, Accepted(fmt, deviceLeft))..]
  }

  function Heard(fmt: Format, chunk: seq<byte>, x: Surroundings): seq<byte>
    requires Fit(fmt) && Proper(fmt, x) && |chunk| <= fmt.room
  {
    Frame(fmt, chunk, x)[..Accepted(fmt, x.deviceLeft)]
  }

  /** Between two calls. */
  ghost predicate Resting(f: Flow, cap: nat) {
    f.chunk == [] && |f.pending| < PENDING_SIZE && |f.main| <= cap
  }

  function Silent(ret: int, f: Flow, s: Speaker): Voice {
    Voice(Done(ret, f, f.pending, []), [], s)
  }

  /** The end of a call: the device works on the frame. */
  function Device(f: Flow, cap: nat, s: Speaker, i: Interference, played: seq<byte>, heard: seq<byte>): (v: Voice)
    requires |f.pending| < PENDING_SIZE && |f.main| <= cap && s.worked < 255
    ensures Resting(v.out.end, cap)
  {
    var g := Pass(f, cap, i.duringOffer);
    var h := Pass(g, cap, i.afterOffer);
    var ended := s.(worked := s.worked + 1);
    if i.duringOffer.cleared then Voice(Done(CLEARED, g, g.pending, played), heard, ended)
    else Voice(Done(SPOKEN, h, h.pending, played), heard, ended)
  }

  predicate ClearedLate(i: Interference) {
    i.beforePendingRead.cleared || i.beforeMainRead.cleared || i.beforeOffer.cleared
  }

  /** From behind the first look at the clear count. */
  function Speak(fmt: Format, f: Flow, cap: nat, s: Speaker, x: Surroundings): (v: Voice)
    requires Fit(fmt) && Proper(fmt, x) && Resting(f, cap) && s.worked < 255
    ensures Resting(v.out.end, cap)
  {
    var t := Fill(f, cap, fmt.room, x.i);
    var g := Pass(t, cap, x.i.beforeOffer);
    if ClearedLate(x.i) then Silent(CLEARED, g, s)
    else Device(g, cap, s, x.i, Spoken(fmt, t.chunk, x.deviceLeft), Heard(fmt, t.chunk, x))
  }

  /** What a call has measured, and whether the main ring was cleared so far. */
  datatype Found = Found(total: nat, flow: Flow, cleared: bool)

  function Counted(f: Flow, cap: nat, i: Interference): (x: Found)
    requires Resting(f, cap)
    ensures Resting(x.flow, cap)
  {
    var a := Pass(f, cap, i.beforePendingCount);
    var b := Pass(a, cap, i.beforeMainCount);
    Found(|a.pending| + |b.main|, b, i.beforePendingCount.cleared || i.beforeMainCount.cleared)
  }

  /** With 3000 bytes or more in the main ring the pending bytes are dropped, and then the oldest waiting bytes down
    * to 3000, unless there are 3024 or more of them.  `measured` is the size of the main ring as it was measured. */
  function Trimmed(f: Flow, measured: nat): Flow {
    f.(pending := if measured >= BACKLOG then [] else f.pending,
       main := if BACKLOG < measured < BACKLOG + TRIM_LIMIT then f.main[Min(measured - BACKLOG, |f.main|)..]
               else f.main)
  }

  function Recounted(x: Found, cap: nat, t: Trimming): (y: Found)
    requires Resting(x.flow, cap)
    ensures Resting(y.flow, cap)
  {
    var a := Pass(x.flow, cap, t.before);
    var b := Pass(Trimmed(a, |x.flow.main|), cap, t.beforePendingCount);
    var c := Pass(b, cap, t.beforeMainCount);
    Found(|b.pending| + |c.main|, c,
          x.cleared || t.before.cleared || t.beforePendingCount.cleared || t.beforeMainCount.cleared)
  }

  /** From the first look at the clear count on. */
  function Tested(fmt: Format, found: Found, cap: nat, s: Speaker, x: Surroundings): (v: Voice)
    requires Fit(fmt) && Proper(fmt, x) && Resting(found.flow, cap) && s.worked < 255
    ensures Resting(v.out.end, cap)
  {
    var g := Pass(found.flow, cap, x.i.beforeTest);
    if found.cleared || x.i.beforeTest.cleared then Silent(CLEARED, g, s)
    else if found.total <= BORDER then Silent(NOTHING, g, s)
    else Speak(fmt, g, cap, s, x)
  }

  predicate Stable(s: Speaker) {
    s.worked >= WARM || s.stable
  }

  /** What the speaker is from the beginning of a call on. */
  function Settled(s: Speaker): Speaker {
    if Stable(s) then Speaker(0, true) else s
  }

  /** A speaker that has worked for a while looks at the backlog. */
  function Measured(f: Flow, cap: nat, s: Speaker, x: Surroundings): (y: Found)
    requires Resting(f, cap)
    ensures Resting(y.flow, cap)
  {
    var found := Counted(f, cap, x.i);
    if Stable(s) && found.total > BACKLOG then Recounted(found, cap, x.t) else found
  }

  /** The call, on the contents of the two rings. */
  function Play(fmt: Format, f: Flow, cap: nat, s: Speaker, x: Surroundings): (v: Voice)
    requires Fit(fmt) && Proper(fmt, x) && Resting(f, cap)
    ensures Resting(v.out.end, cap)
  {
    var found := Measured(f, cap, s, x);
    if Stable(s) && Counted(f, cap, x.i).total > BACKLOG && found.total <= TRIM_BORDER
    then Silent(TRIMMED_TOO_FAR, found.flow, Settled(s))
    else Tested(fmt, found, cap, Settled(s), x)
  }

  // ---------- What a call keeps, whatever the others do ----------

  /** Of the bytes of both rings, the device heard a part, and the rest is kept or gone, in order. */
  ghost predicate Keeps(p: seq<byte>, f: Flow, v: Voice) {
    && Sound(p + v.out.played, v.out.end, false)
    && Missing(p + v.out.played, v.out.end) >= Missing(p, f)
    && v.out.played <= v.heard
  }

  lemma SilentKeeps(p: seq<byte>, f: Flow, ret: int, s: Speaker)
    requires Sound(p, f, false)
    ensures var v := Silent(ret, f, s); Keeps(p, f, v) && Missing(p + [], v.out.end) == Missing(p, f) + |f.chunk|
  {
    assert p + [] == p;
    Join(p + f.chunk, f.pending, f.main);
    DropPiece(p, f.chunk, f.pending + f.main, f.fed);
    Join(p, f.pending, f.main);
  }

  lemma SpokenIsHeard(fmt: Format, chunk: seq<byte>, x: Surroundings)
    requires Fit(fmt) && Proper(fmt, x) && |chunk| <= fmt.room
    ensures Spoken(fmt, chunk, x.deviceLeft) <= Heard(fmt, chunk, x)
    ensures Spoken(fmt, chunk, x.deviceLeft) == Heard(fmt, chunk, x) <==> Accepted(fmt, x.deviceLeft) <= |chunk|
  {
    var n, a := Min(|chunk|, Accepted(fmt, x.deviceLeft)), Accepted(fmt, x.deviceLeft);
    var m := Min(|chunk|, fmt.frame);
    FrameParts(fmt, chunk, x);
    assert Frame(fmt, chunk, x)[..m][..n] == chunk[..m][..n];
    assert Frame(fmt, chunk, x)[..m][..n] == Heard(fmt, chunk, x)[..n];
    assert chunk[..m][..n] == Spoken(fmt, chunk, x.deviceLeft);
  }

  lemma DeviceKeeps(fmt: Format, p: seq<byte>, f: Flow, cap: nat, s: Speaker, x: Surroundings)
    requires Fit(fmt) && Proper(fmt, x) && |f.chunk| <= fmt.room && |f.pending| < PENDING_SIZE && |f.main| <= cap
    requires s.worked < 255 && Sound(p, f, false)
    ensures var v := Device(f, cap, s, x.i, Spoken(fmt, f.chunk, x.deviceLeft), Heard(fmt, f.chunk, x));
            && Keeps(p, f, v)
            && (Calm(x.i.duringOffer) && Calm(x.i.afterOffer) ==>
                  Missing(p + v.out.played, v.out.end) == Missing(p, f) + |Dropped(fmt, f.chunk, x.deviceLeft)|)
  {
    var g := Pass(f, cap, x.i.duringOffer);
    var h := Pass(g, cap, x.i.afterOffer);
    PassIsSound(p, f, cap, x.i.duringOffer, false);
    PassIsSound(p, g, cap, x.i.afterOffer, false);
    SpokenIsHeard(fmt, f.chunk, x);
    EndKeeps(fmt, p, if x.i.duringOffer.cleared then g else h, x.deviceLeft);
  }

  lemma EndKeeps(fmt: Format, p: seq<byte>, f: Flow, deviceLeft: nat)
    requires Sound(p, f, false)
    ensures var played := Spoken(fmt, f.chunk, deviceLeft);
            var end := Done(SPOKEN, f, f.pending, played).end;
            && Sound(p + played, end, false)
            && Missing(p + played, end) == Missing(p, f) + |Dropped(fmt, f.chunk, deviceLeft)|
  {
    var played, dropped := Spoken(fmt, f.chunk, deviceLeft), Dropped(fmt, f.chunk, deviceLeft);
    assert played + dropped + [] == f.chunk && [] + f.pending == f.pending;
    DoneIsSound(p, f, SPOKEN, played, [], dropped, false);
  }

  lemma SpeakKeeps(fmt: Format, p: seq<byte>, f: Flow, cap: nat, s: Speaker, x: Surroundings)
    requires Fit(fmt) && Proper(fmt, x) && Resting(f, cap) && s.worked < 255 && Sound(p, f, false)
    ensures var v := Speak(fmt, f, cap, s, x);
            && Keeps(p, f, v)
            && (Uncleared(x.i) ==>
                  Missing(p + v.out.played, v.out.end) ==
                    Missing(p, f) + |Dropped(fmt, Fill(f, cap, fmt.room, x.i).chunk, x.deviceLeft)|)
  {
    var t := Fill(f, cap, fmt.room, x.i);
    var g := Pass(t, cap, x.i.beforeOffer);
    FillIsSound(p, f, cap, fmt.room, x.i, false);
    PassIsSound(p, t, cap, x.i.beforeOffer, false);
    if ClearedLate(x.i) {
      SilentKeeps(p, g, CLEARED, s);
    } else {
      DeviceKeeps(fmt, p, g, cap, s, x);
    }
  }

  /** The voice in the chunk that the device does not take. */
  function LostAtDevice(fmt: Format, found: Found, cap: nat, x: Surroundings): nat
    requires Resting(found.flow, cap)
  {
    if found.total <= BORDER then 0
    else |Dropped(fmt, Fill(Pass(found.flow, cap, x.i.beforeTest), cap, fmt.room, x.i).chunk, x.deviceLeft)|
  }

  lemma TestedKeeps(fmt: Format, p: seq<byte>, found: Found, cap: nat, s: Speaker, x: Surroundings)
    requires Fit(fmt) && Proper(fmt, x) && Resting(found.flow, cap) && s.worked < 255 && Sound(p, found.flow, false)
    ensures var v := Tested(fmt, found, cap, s, x);
            && Keeps(p, found.flow, v)
            && (Uncleared(x.i) && !found.cleared ==>
                  Missing(p + v.out.played, v.out.end) == Missing(p, found.flow) + LostAtDevice(fmt, found, cap, x))
  {
    var g := Pass(found.flow, cap, x.i.beforeTest);
    PassIsSound(p, found.flow, cap, x.i.beforeTest, false);
    if found.cleared || x.i.beforeTest.cleared {
      SilentKeeps(p, g, CLEARED, s);
    } else if found.total <= BORDER {
      SilentKeeps(p, g, NOTHING, s);
    } else {
      SpeakKeeps(fmt, p, g, cap, s, x);
    }
  }

  lemma CountedKeeps(p: seq<byte>, f: Flow, cap: nat, i: Interference)
    requires Resting(f, cap) && Sound(p, f, false)
    ensures var g := Counted(f, cap, i).flow;
            && Sound(p, g, false) && Missing(p, g) >= Missing(p, f)
            && (Calm(i.beforePendingCount) && Calm(i.beforeMainCount) ==> Missing(p, g) == Missing(p, f))
  {
    PassIsSound(p, f, cap, i.beforePendingCount, false);
    PassIsSound(p, Pass(f, cap, i.beforePendingCount), cap, i.beforeMainCount, false);
  }

  /** Bytes that trimming takes out of the rings. */
  function TrimLoss(f: Flow, measured: nat): nat {
    (if measured >= BACKLOG then |f.pending| else 0)
    + if BACKLOG < measured < BACKLOG + TRIM_LIMIT then Min(measured - BACKLOG, |f.main|) else 0
  }

  lemma TrimmedKeeps(p: seq<byte>, f: Flow, measured: nat)
    requires f.chunk == [] && Sound(p, f, false)
    ensures Sound(p, Trimmed(f, measured), false)
    ensures Missing(p, Trimmed(f, measured)) == Missing(p, f) + TrimLoss(f, measured)
  {
    var g := f.(pending := if measured >= BACKLOG then [] else f.pending);
    var k := if BACKLOG < measured < BACKLOG + TRIM_LIMIT then Min(measured - BACKLOG, |f.main|) else 0;
    ClearedIsSound(p, f, Meanwhile(measured >= BACKLOG, false, []), false);
    assert Cleared(f, Meanwhile(measured >= BACKLOG, false, [])) == g;
    var y := p + g.chunk + g.pending;
    Join(y, f.main[..k], f.main[k..]);
    assert f.main[..k] + f.main[k..] == f.main;
    DropPiece(y, f.main[..k], f.main[k..], f.fed);
    assert Trimmed(f, measured) == g.(main := f.main[k..]);
  }

  lemma RecountedKeeps(p: seq<byte>, x: Found, cap: nat, t: Trimming)
    requires Resting(x.flow, cap) && Sound(p, x.flow, false)
    ensures var g := Recounted(x, cap, t).flow;
            && Sound(p, g, false)
            && Missing(p, g) >= Missing(p, x.flow) + TrimLoss(Pass(x.flow, cap, t.before), |x.flow.main|)
            && (Untrimmed(t) ==>
                  Missing(p, g) == Missing(p, x.flow) + TrimLoss(Pass(x.flow, cap, t.before), |x.flow.main|))
  {
    var a := Pass(x.flow, cap, t.before);
    var b := Trimmed(a, |x.flow.main|);
    var c := Pass(b, cap, t.beforePendingCount);
    PassIsSound(p, x.flow, cap, t.before, false);
    TrimmedKeeps(p, a, |x.flow.main|);
    PassIsSound(p, b, cap, t.beforePendingCount, false);
    PassIsSound(p, c, cap, t.beforeMainCount, false);
  }

  /** What trimming takes out, if the call comes to it. */
  function LostToTrim(f: Flow, cap: nat, s: Speaker, x: Surroundings): nat
    requires Resting(f, cap)
  {
    var found := Counted(f, cap, x.i);
    if Stable(s) && found.total > BACKLOG then TrimLoss(Pass(found.flow, cap, x.t.before), |found.flow.main|) else 0
  }

  lemma MeasuredKeeps(p: seq<byte>, f: Flow, cap: nat, s: Speaker, x: Surroundings)
    requires Resting(f, cap) && Sound(p, f, false)
    ensures var g := Measured(f, cap, s, x).flow;
            && Sound(p, g, false)
            && Missing(p, g) >= Missing(p, f) + LostToTrim(f, cap, s, x)
            && (Uncleared(x.i) && Untrimmed(x.t) ==> Missing(p, g) == Missing(p, f) + LostToTrim(f, cap, s, x))
  {
    CountedKeeps(p, f, cap, x.i);
    RecountedKeeps(p, Counted(f, cap, x.i), cap, x.t);
  }

  /** Whatever other threads write and clear, and wherever: the voice heard and what is kept is left over, in order,
    * from what the main ring was fed; every call adds to what is missing or leaves it; and what the device hears is
    * that voice with something behind it. */
  lemma PlayKeeps(fmt: Format, p: seq<byte>, f: Flow, cap: nat, s: Speaker, x: Surroundings)
    requires Fit(fmt) && Proper(fmt, x) && Resting(f, cap) && Sound(p, f, false)
    ensures Keeps(p, f, Play(fmt, f, cap, s, x))
  {
    var found := Measured(f, cap, s, x);
    MeasuredKeeps(p, f, cap, s, x);
    SilentKeeps(p, found.flow, TRIMMED_TOO_FAR, Settled(s));
    TestedKeeps(fmt, p, found, cap, Settled(s), x);
  }

  // ---------- When a call drops nothing and adds nothing ----------

  predicate Undisturbed(x: Surroundings) {
    Uncleared(x.i) && Untrimmed(x.t)
  }

  /** The size of the main ring when a call that no clear disturbs measures it, and whether the call then looks at
    * the backlog, and cuts it. */
  function MainWhenMeasured(f: Flow, cap: nat, i: Interference): nat {
    SizeAfter(SizeAfter(|f.main|, cap, i.beforePendingCount), cap, i.beforeMainCount)
  }

  predicate Backlogged(f: Flow, cap: nat, s: Speaker, x: Surroundings) {
    Stable(s) && |f.pending| + MainWhenMeasured(f, cap, x.i) > BACKLOG
  }

  predicate Cuts(f: Flow, cap: nat, s: Speaker, x: Surroundings) {
    var m := MainWhenMeasured(f, cap, x.i);
    && Backlogged(f, cap, s, x)
    && ((m >= BACKLOG && f.pending != []) || BACKLOG < m < BACKLOG + TRIM_LIMIT)
  }

  /** The size of the main ring when the call decides whether there is enough, and when it reads it, if it does not
    * cut. */
  function MainWhenJudged(f: Flow, cap: nat, s: Speaker, x: Surroundings): nat {
    var m := MainWhenMeasured(f, cap, x.i);
    if Backlogged(f, cap, s, x) then
      SizeAfter(SizeAfter(SizeAfter(m, cap, x.t.before), cap, x.t.beforePendingCount), cap, x.t.beforeMainCount)
    else m
  }

  function MainWhenRead(f: Flow, cap: nat, s: Speaker, x: Surroundings): nat {
    SizeAfter(SizeAfter(SizeAfter(MainWhenJudged(f, cap, s, x), cap, x.i.beforeTest), cap, x.i.beforePendingRead), cap,
              x.i.beforeMainRead)
  }

  /** The call does not cut the backlog, and either has nothing to play or the device takes exactly the voice. */
  predicate Faithful(fmt: Format, f: Flow, cap: nat, s: Speaker, x: Surroundings) {
    && !Cuts(f, cap, s, x)
    && (|| |f.pending| + MainWhenJudged(f, cap, s, x) <= BORDER
        || Accepted(fmt, x.deviceLeft) == Min(fmt.room, |f.pending| + MainWhenRead(f, cap, s, x)))
  }

  lemma CountedSizes(f: Flow, cap: nat, i: Interference)
    requires Resting(f, cap) && Calm(i.beforePendingCount) && Calm(i.beforeMainCount)
    ensures var found := Counted(f, cap, i);
            && !found.cleared && found.flow.pending == f.pending
            && |found.flow.main| == MainWhenMeasured(f, cap, i)
            && found.total == |f.pending| + MainWhenMeasured(f, cap, i)
  {
    PassSize(f, cap, i.beforePendingCount);
    PassSize(Pass(f, cap, i.beforePendingCount), cap, i.beforeMainCount);
  }

  lemma CutsIffLoses(f: Flow, cap: nat, s: Speaker, x: Surroundings)
    requires Resting(f, cap) && Undisturbed(x)
    ensures Cuts(f, cap, s, x) <==> LostToTrim(f, cap, s, x) > 0
  {
    CountedSizes(f, cap, x.i);
    PassSize(Counted(f, cap, x.i).flow, cap, x.t.before);
  }

  lemma RecountedSizes(y: Found, cap: nat, t: Trimming)
    requires Resting(y.flow, cap) && Untrimmed(t) && !y.cleared
    requires TrimLoss(Pass(y.flow, cap, t.before), |y.flow.main|) == 0
    ensures var again := Recounted(y, cap, t);
            && !again.cleared && again.flow.pending == y.flow.pending
            && |again.flow.main| ==
               SizeAfter(SizeAfter(SizeAfter(|y.flow.main|, cap, t.before), cap, t.beforePendingCount), cap,
                         t.beforeMainCount)
            && |again.flow.main| >= |y.flow.main|
            && again.total == |y.flow.pending| + |again.flow.main|
  {
    var a := Pass(y.flow, cap, t.before);
    var b := Pass(Trimmed(a, |y.flow.main|), cap, t.beforePendingCount);
    PassSize(y.flow, cap, t.before);
    assert Trimmed(a, |y.flow.main|).main == a.main && Trimmed(a, |y.flow.main|).pending == a.pending;
    PassSize(Trimmed(a, |y.flow.main|), cap, t.beforePendingCount);
    PassSize(b, cap, t.beforeMainCount);
  }

  lemma MeasuredSizes(f: Flow, cap: nat, s: Speaker, x: Surroundings)
    requires Resting(f, cap) && Undisturbed(x) && !Cuts(f, cap, s, x)
    ensures var found := Measured(f, cap, s, x);
            && !found.cleared && found.flow.pending == f.pending
            && |found.flow.main| == MainWhenJudged(f, cap, s, x)
            && found.total == |f.pending| + MainWhenJudged(f, cap, s, x)
            && (Backlogged(f, cap, s, x) ==> found.total > BACKLOG)
  {
    CountedSizes(f, cap, x.i);
    CutsIffLoses(f, cap, s, x);
    if Backlogged(f, cap, s, x) {
      RecountedSizes(Counted(f, cap, x.i), cap, x.t);
    }
  }

  lemma ChunkSize(fmt: Format, f: Flow, cap: nat, i: Interference)
    requires Resting(f, cap) && Calm(i.beforeTest) && Calm(i.beforePendingRead) && Calm(i.beforeMainRead)
    ensures var first := SizeAfter(SizeAfter(|f.main|, cap, i.beforeTest), cap, i.beforePendingRead);
            |Fill(Pass(f, cap, i.beforeTest), cap, fmt.room, i).chunk| ==
            Min(fmt.room, |f.pending| + SizeAfter(first, cap, i.beforeMainRead))
  {
    var g := Pass(f, cap, i.beforeTest);
    var h := Pass(g, cap, i.beforePendingRead);
    PassSize(f, cap, i.beforeTest);
    PassSize(g, cap, i.beforePendingRead);
    PassSize(TakePending(h, fmt.room), cap, i.beforeMainRead);
  }

  /** What the device hears is the voice alone if and only if it does not get to the end of it. */
  lemma HeardIffNoBlank(fmt: Format, found: Found, cap: nat, s: Speaker, x: Surroundings)
    requires Fit(fmt) && Proper(fmt, x) && Resting(found.flow, cap) && s.worked < 255
    requires Uncleared(x.i) && !found.cleared
    ensures var v := Tested(fmt, found, cap, s, x);
            v.heard == v.out.played <==>
              || found.total <= BORDER
              || Accepted(fmt, x.deviceLeft) <= |Fill(Pass(found.flow, cap, x.i.beforeTest), cap, fmt.room, x.i).chunk|
  {
    var t := Fill(Pass(found.flow, cap, x.i.beforeTest), cap, fmt.room, x.i);
    SpokenIsHeard(fmt, t.chunk, x);
  }

  lemma TestedIsFaithfulIff(fmt: Format, p: seq<byte>, found: Found, cap: nat, s: Speaker, x: Surroundings)
    requires Fit(fmt) && Proper(fmt, x) && Resting(found.flow, cap) && s.worked < 255 && Sound(p, found.flow, false)
    requires Uncleared(x.i) && !found.cleared
    ensures var v := Tested(fmt, found, cap, s, x);
            var chunk := Fill(Pass(found.flow, cap, x.i.beforeTest), cap, fmt.room, x.i).chunk;
            Missing(p + v.out.played, v.out.end) == Missing(p, found.flow) && v.heard == v.out.played <==>
              found.total <= BORDER || Accepted(fmt, x.deviceLeft) == |chunk|
  {
    TestedKeeps(fmt, p, found, cap, s, x);
    HeardIffNoBlank(fmt, found, cap, s, x);
  }

  lemma CutLoses(fmt: Format, p: seq<byte>, f: Flow, cap: nat, s: Speaker, x: Surroundings)
    requires Fit(fmt) && Proper(fmt, x) && Resting(f, cap) && Sound(p, f, false) && LostToTrim(f, cap, s, x) > 0
    ensures var v := Play(fmt, f, cap, s, x); Missing(p + v.out.played, v.out.end) > Missing(p, f)
  {
    var found := Measured(f, cap, s, x);
    MeasuredKeeps(p, f, cap, s, x);
    SilentKeeps(p, found.flow, TRIMMED_TOO_FAR, Settled(s));
    TestedKeeps(fmt, p, found, cap, Settled(s), x);
  }

  lemma UncutIsTested(fmt: Format, f: Flow, cap: nat, s: Speaker, x: Surroundings)
    requires Fit(fmt) && Proper(fmt, x) && Resting(f, cap) && Undisturbed(x) && !Cuts(f, cap, s, x)
    ensures Play(fmt, f, cap, s, x) == Tested(fmt, Measured(f, cap, s, x), cap, Settled(s), x)
  {
    CountedSizes(f, cap, x.i);
    MeasuredSizes(f, cap, s, x);
  }

  lemma UncutChunk(fmt: Format, f: Flow, cap: nat, s: Speaker, x: Surroundings)
    requires Resting(f, cap) && Undisturbed(x) && !Cuts(f, cap, s, x)
    ensures var found := Measured(f, cap, s, x);
            && !found.cleared && found.total == |f.pending| + MainWhenJudged(f, cap, s, x)
            && |Fill(Pass(found.flow, cap, x.i.beforeTest), cap, fmt.room, x.i).chunk|
               == Min(fmt.room, |f.pending| + MainWhenRead(f, cap, s, x))
  {
    MeasuredSizes(f, cap, s, x);
    ChunkSize(fmt, Measured(f, cap, s, x).flow, cap, x.i);
  }

  lemma UncutIsFaithfulIff(fmt: Format, p: seq<byte>, f: Flow, cap: nat, s: Speaker, x: Surroundings)
    requires Fit(fmt) && Proper(fmt, x) && Resting(f, cap) && Sound(p, f, false) && Undisturbed(x)
    requires !Cuts(f, cap, s, x)
    ensures var v := Tested(fmt, Measured(f, cap, s, x), cap, Settled(s), x);
            (Missing(p + v.out.played, v.out.end) == Missing(p, f) && v.heard == v.out.played)
            <==> Faithful(fmt, f, cap, s, x)
  {
    CutsIffLoses(f, cap, s, x);
    MeasuredKeeps(p, f, cap, s, x);
    UncutChunk(fmt, f, cap, s, x);
    TestedIsFaithfulIff(fmt, p, Measured(f, cap, s, x), cap, Settled(s), x);
  }

  /** A call that no clear disturbs drops nothing and adds nothing to what the device hears if and only if it does not
    * cut the backlog, and either has too little to play or the device takes exactly the voice there is. */
  lemma FaithfulIff(fmt: Format, p: seq<byte>, f: Flow, cap: nat, s: Speaker, x: Surroundings)
    requires Fit(fmt) && Proper(fmt, x) && Resting(f, cap) && Sound(p, f, false) && Undisturbed(x)
    ensures var v := Play(fmt, f, cap, s, x);
            (Missing(p + v.out.played, v.out.end) == Missing(p, f) && v.heard == v.out.played)
            <==> Faithful(fmt, f, cap, s, x)
  {
    CutsIffLoses(f, cap, s, x);
    if Cuts(f, cap, s, x) {
      CutLoses(fmt, p, f, cap, s, x);
    } else {
      UncutIsTested(fmt, f, cap, s, x);
      UncutIsFaithfulIff(fmt, p, f, cap, s, x);
    }
  }

  /** What trimming makes of the rings, for a speaker that looks at the backlog. */
  function Rest(f: Flow, stable: bool): (seq<byte>, seq<byte>) {
    var m := |f.main|;
    if !stable || |f.pending| + m <= 3000 then (f.pending, f.main)
    else (if m >= 3000 then [] else f.pending, if 3000 < m < 6024 then f.main[m - 3000..] else f.main)
  }

  lemma QuietMeasure(f: Flow, cap: nat, s: Speaker, x: Surroundings)
    requires Resting(f, cap) && x.i == QUIET && x.t == Trimming(NOBODY, NOBODY, NOBODY)
    ensures var rest := Rest(f, s.worked >= 10 || s.stable);
            var found := Measured(f, cap, s, x);
            && found.flow.chunk == [] && found.flow.pending == rest.0 && found.flow.main == rest.1
            && found.total == |rest.0| + |rest.1| && !found.cleared
            && (Counted(f, cap, x.i).total > 3000 && Stable(s) ==> found.total > 2232)
  {
    QuietPass(f, cap);
    var t := Trimmed(f, |f.main|);
    QuietPass(t, cap);
  }

  lemma QuietTest(fmt: Format, found: Found, cap: nat, s: Speaker, x: Surroundings)
    requires Fit(fmt) && Proper(fmt, x) && Resting(found.flow, cap) && s.worked < 255
    requires x.i == QUIET && !found.cleared
    ensures var v := Tested(fmt, found, cap, s, x);
            var all := found.flow.pending + found.flow.main;
            if found.total <= 64 then
              v.out.ret == -2 && v.heard == [] && v.speaker == s
              && v.out.end.pending == found.flow.pending && v.out.end.main == found.flow.main
            else
              var c := all[..Min(fmt.room, |all|)];
              && v.out.ret == 0
              && v.heard == Frame(fmt, c, x)[..if x.deviceLeft > fmt.frame then fmt.frame
                                               else fmt.frame - x.deviceLeft]
              && v.out.end.pending + v.out.end.main == all[|c|..] && v.speaker == s.(worked := s.worked + 1)
  {
    QuietPass(found.flow, cap);
    QuietFill(found.flow, cap, fmt.room);
    var t := Fill(found.flow, cap, fmt.room, QUIET);
    QuietPass(t, cap);
  }

  /** With nobody in between, in plain terms: a speaker that has offered ten frames cuts the backlog; then up to 64 bytes
    * are left alone; otherwise the oldest bytes go into the frame, the device hears the beginning of it that it takes,
    * and what the frame had no room for waits on. */
  lemma QuietCall(fmt: Format, f: Flow, cap: nat, s: Speaker, x: Surroundings)
    requires Fit(fmt) && Proper(fmt, x) && Resting(f, cap)
    requires x.i == QUIET && x.t == Trimming(NOBODY, NOBODY, NOBODY)
    ensures var v := Play(fmt, f, cap, s, x);
            var stable := s.worked >= 10 || s.stable;
            var rest := Rest(f, stable);
            var all := rest.0 + rest.1;
            var settled := if stable then Speaker(0, true) else s;
            if |all| <= 64 then
              v.out.ret == -2 && v.heard == [] && v.speaker == settled
              && v.out.end.pending == rest.0 && v.out.end.main == rest.1
            else
              var c := all[..Min(fmt.room, |all|)];
              && v.out.ret == 0
              && v.heard == Frame(fmt, c, x)[..if x.deviceLeft > fmt.frame then fmt.frame
                                               else fmt.frame - x.deviceLeft]
              && v.out.end.pending + v.out.end.main == all[|c|..]
              && v.speaker == settled.(worked := settled.worked + 1)
  {
    QuietMeasure(f, cap, s, x);
    QuietTest(fmt, Measured(f, cap, s, x), cap, Settled(s), x);
  }

  /** A clear of the main ring before the backlog is cut, while it is, or before the first look at the clear count. */
  predicate ClearsEarly(x: Surroundings, looked: bool) {
    || x.i.beforePendingCount.cleared || x.i.beforeMainCount.cleared || x.i.beforeTest.cleared
    || (looked && (x.t.before.cleared || x.t.beforePendingCount.cleared || x.t.beforeMainCount.cleared))
  }

  predicate ClearsLate(x: Surroundings) {
    x.i.beforePendingRead.cleared || x.i.beforeMainRead.cleared || x.i.beforeOffer.cleared
  }

  lemma TestedReturns(fmt: Format, found: Found, cap: nat, s: Speaker, x: Surroundings)
    requires Fit(fmt) && Proper(fmt, x) && Resting(found.flow, cap) && s.worked < 255
    ensures var v := Tested(fmt, found, cap, s, x);
            var offered := !found.cleared && !x.i.beforeTest.cleared && found.total > 64 && !ClearsLate(x);
            && v.out.ret == (if found.cleared || x.i.beforeTest.cleared then -1
                             else if found.total <= 64 then -2
                             else if ClearsLate(x) || x.i.duringOffer.cleared then -1
                             else 0)
            && |v.heard| == (if !offered then 0
                             else if x.deviceLeft > fmt.frame then fmt.frame else fmt.frame - x.deviceLeft)
            && v.speaker.stable == s.stable && v.speaker.worked == s.worked + if offered then 1 else 0
  {
  }

  /** Every way in which a call can end.  A clear of the main ring counts up to the moment the device is done; the device
    * hears something, and the speaker counts a frame, only if none came before it was asked. */
  lemma ReturnCodes(fmt: Format, f: Flow, cap: nat, s: Speaker, x: Surroundings)
    requires Fit(fmt) && Proper(fmt, x) && Resting(f, cap)
    ensures var v := Play(fmt, f, cap, s, x);
            var stable := s.worked >= 10 || s.stable;
            var looked := stable && Counted(f, cap, x.i).total > 3000;
            var total := Measured(f, cap, s, x).total;
            var tooFar := looked && total <= 2232;
            var offered := !tooFar && !ClearsEarly(x, looked) && total > 64 && !ClearsLate(x);
            && v.out.ret == (if tooFar then -5
                             else if ClearsEarly(x, looked) then -1
                             else if total <= 64 then -2
                             else if ClearsLate(x) || x.i.duringOffer.cleared then -1
                             else 0)
            && |v.heard| == (if !offered then 0
                             else if x.deviceLeft > fmt.frame then fmt.frame else fmt.frame - x.deviceLeft)
            && v.speaker.stable == stable
            && v.speaker.worked == (if stable then 0 else s.worked) + if offered then 1 else 0
  {
    TestedReturns(fmt, Measured(f, cap, s, x), cap, Settled(s), x);
  }

  /** One package in the ring, a device that takes everything, and nobody in between: what is heard in D2P is the
    * package and 1976 blank bytes that nobody sent. */
  lemma OnePackageIsPadded(data: seq<byte>, stale: seq<byte>, blank: seq<byte>, cap: nat)
    requires |data| == 1024 <= cap && |stale| == D2P.room && |blank| == BLANK_SIZE
    ensures var x := Surroundings(QUIET, Trimming(NOBODY, NOBODY, NOBODY), stale, blank, 0);
            Play(D2P, Start([], data, data), cap, Speaker(0, false), x).heard == data + blank[..1976]
  {
    var x := Surroundings(QUIET, Trimming(NOBODY, NOBODY, NOBODY), stale, blank, 0);
    QuietCall(D2P, Start([], data, data), cap, Speaker(0, false), x);
    assert [] + data == data && data[..1024] == data;
    PackageFrame(data, x);
  }

  lemma PackageFrame(data: seq<byte>, x: Surroundings)
    requires |data| == 1024 && Proper(D2P, x)
    ensures Frame(D2P, data, x)[..3000] == data + x.blank[..1976]
  {
    FrameParts(D2P, data, x);
    var f := Frame(D2P, data, x);
    assert f[..3000] == f[..1024] + f[1024..3000];
  }

  /** In D2D the same package is heard with 2048 blank bytes behind it and 428 bytes that lay on the stack. */
  lemma OnePackageInD2D(data: seq<byte>, stale: seq<byte>, blank: seq<byte>, cap: nat)
    requires |data| == 1024 <= cap && |stale| == 3500 && |blank| == 3072
    ensures var x := Surroundings(QUIET, Trimming(NOBODY, NOBODY, NOBODY), stale, blank, 0);
            Play(D2D, Start([], data, data), cap, Speaker(0, false), x).heard == data + blank[..2048] + stale[3072..]
  {
    var x := Surroundings(QUIET, Trimming(NOBODY, NOBODY, NOBODY), stale, blank, 0);
    QuietCall(D2D, Start([], data, data), cap, Speaker(0, false), x);
    assert [] + data == data && data[..1024] == data;
    D2DFrame(data, x);
  }

  lemma D2DFrame(data: seq<byte>, x: Surroundings)
    requires |data| == 1024 && |x.stale| == 3500 && |x.blank| == 3072
    ensures Proper(D2D, x) && Frame(D2D, data, x)[..3500] == data + x.blank[..2048] + x.stale[3072..]
  {
  }

  // ---------- Whole runs ----------

  /** Packages arrive, either ring is cleared, a conversation begins, or a player is called. */
  datatype Event =
    | Arrive(src: seq<byte>)
    | Clearing
    | ClearingPending
    | Begin
    | Call(d2p: bool, x: Surroundings)

  function FormatOf(d2p: bool): (fmt: Format)
    ensures Fit(fmt)
  {
    if d2p then D2P else D2D
  }

  predicate Legal(e: Event) {
    e.Call? ==> Proper(FormatOf(e.d2p), e.x)
  }

  predicate AllLegal(events: seq<Event>) {
    forall k :: 0 <= k < |events| ==> Legal(events[k])
  }

  /** `voice` is the voice the device heard so far, `heard` all that it heard. */
  datatype Session = Session(flow: Flow, speaker: Speaker, voice: seq<byte>, heard: seq<byte>)

  /** The rings as a run finds them. */
  function Opening(lead: seq<byte>, waiting: seq<byte>): Session {
    Session(Start(lead, waiting, waiting), Speaker(0, false), [], [])
  }

  function Called(s: Session, v: Voice): Session {
    Session(v.out.end, v.speaker, s.voice + v.out.played, s.heard + v.heard)
  }

  function Step(s: Session, cap: nat, e: Event): (t: Session)
    requires Resting(s.flow, cap) && Legal(e)
    ensures Resting(t.flow, cap)
  {
    match e
    case Arrive(src) => s.(flow := Written(s.flow, cap, src))
    case Clearing => s.(flow := Cleared(s.flow, Meanwhile(false, true, [])))
    case ClearingPending => s.(flow := Cleared(s.flow, Meanwhile(true, false, [])))
    case Begin => s.(speaker := Speaker(0, false))
    case Call(d2p, x) => Called(s, Play(FormatOf(d2p), s.flow, cap, s.speaker, x))
  }

  function Run(s: Session, cap: nat, events: seq<Event>): (t: Session)
    requires Resting(s.flow, cap) && AllLegal(events)
    ensures Resting(t.flow, cap)
    decreases |events|
  {
    if events == [] then s else Run(Step(s, cap, events[0]), cap, events[1..])
  }

  /** Bytes that the device heard and nobody sent. */
  function Extra(s: Session): int {
    |s.heard| - |s.voice|
  }

  function Gone(s: Session): int {
    Missing(s.voice, s.flow)
  }

  ghost predicate Inv(s: Session) {
    Sound(s.voice, s.flow, false) && IsSub(s.voice, s.heard)
  }

  lemma CallKeeps(s: Session, v: Voice)
    requires Inv(s) && Keeps(s.voice, s.flow, v)
    ensures var t := Called(s, v); Inv(t) && Gone(t) >= Gone(s) && Extra(t) >= Extra(s)
    ensures Extra(Called(s, v)) == Extra(s) <==> v.heard == v.out.played
  {
    var rest := v.heard[|v.out.played|..];
    assert v.heard == v.out.played + rest;
    SubAppend(s.voice, s.heard, v.out.played);
    SubExtend(s.voice + v.out.played, s.heard + v.out.played, rest);
    Join(s.heard, v.out.played, rest);
  }

  lemma StepKeeps(s: Session, cap: nat, e: Event)
    requires Resting(s.flow, cap) && Legal(e) && Inv(s)
    ensures var t := Step(s, cap, e); Inv(t) && Gone(t) >= Gone(s) && Extra(t) >= Extra(s)
  {
    match e
    case Arrive(src) => WrittenIsSound(s.voice, s.flow, cap, src, false);
    case Clearing => ClearedIsSound(s.voice, s.flow, Meanwhile(false, true, []), false);
    case ClearingPending => ClearedIsSound(s.voice, s.flow, Meanwhile(true, false, []), false);
    case Begin =>
    case Call(d2p, x) =>
      PlayKeeps(FormatOf(d2p), s.voice, s.flow, cap, s.speaker, x);
      CallKeeps(s, Play(FormatOf(d2p), s.flow, cap, s.speaker, x));
  }

  /** Over any run nothing that is missing comes back, and nothing that was added is taken back. */
  lemma {:induction false} RunKeeps(s: Session, cap: nat, events: seq<Event>)
    requires Resting(s.flow, cap) && AllLegal(events) && Inv(s)
    ensures var t := Run(s, cap, events); Inv(t) && Gone(t) >= Gone(s) && Extra(t) >= Extra(s)
    decreases |events|
  {
    if events != [] {
      StepKeeps(s, cap, events[0]);
      RunKeeps(Step(s, cap, events[0]), cap, events[1..]);
    }
  }

  lemma OpeningInv(lead: seq<byte>, waiting: seq<byte>)
    ensures var s := Opening(lead, waiting); Inv(s) && Gone(s) == 0 && Extra(s) == 0
  {
    StartIsSound(lead, waiting, waiting);
  }

  /** With packages arriving and clears anywhere, any backlog and any device, the voice heard is what the ring was fed
    * with bytes left out, and what the device hears is that voice with other sounds put in. */
  lemma EveryRunSpeaksASubsequence(lead: seq<byte>, waiting: seq<byte>, cap: nat, events: seq<Event>)
    requires |lead| < PENDING_SIZE && |waiting| <= cap && AllLegal(events)
    ensures var t := Run(Opening(lead, waiting), cap, events);
            && IsSub(t.voice, t.flow.fed) && IsSub(t.voice, t.heard)
            && IsSub(t.voice + t.flow.pending + t.flow.main, t.flow.fed)
            && IsSub(t.flow.fed, t.flow.offered) && (t.flow.fed == t.flow.offered <==> t.flow.room)
  {
    OpeningInv(lead, waiting);
    RunKeeps(Opening(lead, waiting), cap, events);
    var t := Run(Opening(lead, waiting), cap, events);
    assert t.voice + [] == t.voice;
    Join(t.voice, t.flow.pending, t.flow.main);
    SubRefl(t.voice);
    SubExtend(t.voice, t.voice, t.flow.pending + t.flow.main);
    SubTrans(t.voice, Whole(t.voice, t.flow), t.flow.fed);
  }

  /** No clear inside a call. */
  predicate CallsUndisturbed(events: seq<Event>) {
    forall k :: 0 <= k < |events| && events[k].Call? ==> Undisturbed(events[k].x)
  }

  predicate FaithfulEvent(s: Session, cap: nat, e: Event)
    requires Resting(s.flow, cap) && Legal(e)
  {
    match e
    case Arrive(_) => true
    case Clearing => s.flow.main == []
    case ClearingPending => s.flow.pending == []
    case Begin => true
    case Call(d2p, x) => Faithful(FormatOf(d2p), s.flow, cap, s.speaker, x)
  }

  predicate AllFaithful(s: Session, cap: nat, events: seq<Event>)
    requires Resting(s.flow, cap) && AllLegal(events)
    decreases |events|
  {
    events == [] ||
    (FaithfulEvent(s, cap, events[0]) && AllFaithful(Step(s, cap, events[0]), cap, events[1..]))
  }

  lemma StepIsFaithfulIff(s: Session, cap: nat, e: Event)
    requires Resting(s.flow, cap) && Legal(e) && Inv(s) && (e.Call? ==> Undisturbed(e.x))
    ensures var t := Step(s, cap, e);
            (Gone(t) == Gone(s) && Extra(t) == Extra(s)) <==> FaithfulEvent(s, cap, e)
  {
    match e
    case Arrive(src) => WrittenIsSound(s.voice, s.flow, cap, src, false);
    case Clearing => ClearedIsSound(s.voice, s.flow, Meanwhile(false, true, []), false);
    case ClearingPending => ClearedIsSound(s.voice, s.flow, Meanwhile(true, false, []), false);
    case Begin =>
    case Call(d2p, x) =>
      PlayKeeps(FormatOf(d2p), s.voice, s.flow, cap, s.speaker, x);
      CallKeeps(s, Play(FormatOf(d2p), s.flow, cap, s.speaker, x));
      FaithfulIff(FormatOf(d2p), s.voice, s.flow, cap, s.speaker, x);
  }

  lemma {:induction false} RunIsFaithfulIff(s: Session, cap: nat, events: seq<Event>)
    requires Resting(s.flow, cap) && AllLegal(events) && Inv(s) && CallsUndisturbed(events)
    ensures var t := Run(s, cap, events);
            (Gone(t) == Gone(s) && Extra(t) == Extra(s)) <==> AllFaithful(s, cap, events)
    decreases |events|
  {
    if events != [] {
      var s1 := Step(s, cap, events[0]);
      StepKeeps(s, cap, events[0]);
      StepIsFaithfulIff(s, cap, events[0]);
      RunKeeps(s1, cap, events[1..]);
      RunIsFaithfulIff(s1, cap, events[1..]);
    }
  }

  /** Over any run with no clear inside a call, the device has heard the voice and nothing else, and what it heard,
    * what is pending and what waits are all there was, if and only if every event of the run was harmless: each clear
    * met an empty ring, and each call was faithful. */
  lemma EveryRunIsFaithfulIff(lead: seq<byte>, waiting: seq<byte>, cap: nat, events: seq<Event>)
    requires |lead| < PENDING_SIZE && |waiting| <= cap && AllLegal(events) && CallsUndisturbed(events)
    ensures var s := Opening(lead, waiting);
            var t := Run(s, cap, events);
            (t.heard == t.voice && t.heard + t.flow.pending + t.flow.main == t.flow.fed)
            <==> AllFaithful(s, cap, events)
  {
    var s := Opening(lead, waiting);
    var t := Run(s, cap, events);
    OpeningInv(lead, waiting);
    RunKeeps(s, cap, events);
    RunIsFaithfulIff(s, cap, events);
    SoundIsExactIffNothingMissing(t.voice, t.flow);
    SubLength(t.voice, t.heard);
    assert t.voice + [] == t.voice;
  }

  // ---------- When the speaker counts as stable ----------

  /** The frames offered since a conversation began, after one more event. */
  function FramesAfter(before: nat, s: Session, cap: nat, e: Event): nat
    requires Resting(s.flow, cap) && Legal(e)
  {
    match e
    case Begin => 0
    case Call(d2p, x) => if Play(FormatOf(d2p), s.flow, cap, s.speaker, x).out.ret == 0 then before + 1 else before
    case _ => before
  }

  function FramesOffered(before: nat, s: Session, cap: nat, events: seq<Event>): nat
    requires Resting(s.flow, cap) && AllLegal(events)
    decreases |events|
  {
    if events == [] then before
    else FramesOffered(FramesAfter(before, s, cap, events[0]), Step(s, cap, events[0]), cap, events[1..])
  }

  ghost predicate Counting(s: Speaker, n: nat) {
    if s.stable then n >= 10 && s.worked < 255 else s.worked == n <= 10
  }

  lemma TestedCounts(fmt: Format, found: Found, cap: nat, s: Speaker, x: Surroundings)
    requires Fit(fmt) && Proper(fmt, x) && Resting(found.flow, cap) && s.worked < 255
    requires Uncleared(x.i) && !found.cleared
    ensures var v := Tested(fmt, found, cap, s, x);
            v.speaker == if v.out.ret == 0 then s.(worked := s.worked + 1) else s
  {
  }

  lemma CallCounts(fmt: Format, f: Flow, cap: nat, s: Speaker, x: Surroundings)
    requires Fit(fmt) && Proper(fmt, x) && Resting(f, cap) && Undisturbed(x)
    ensures var v := Play(fmt, f, cap, s, x);
            var settled := if s.worked >= 10 || s.stable then Speaker(0, true) else s;
            v.speaker == if v.out.ret == 0 then settled.(worked := settled.worked + 1) else settled
  {
    var found := Measured(f, cap, s, x);
    TestedCounts(fmt, found, cap, Settled(s), x);
  }

  lemma StepCounts(n: nat, s: Session, cap: nat, e: Event)
    requires Resting(s.flow, cap) && Legal(e) && (e.Call? ==> Undisturbed(e.x)) && Counting(s.speaker, n)
    ensures Counting(Step(s, cap, e).speaker, FramesAfter(n, s, cap, e))
  {
    if e.Call? {
      CallCounts(FormatOf(e.d2p), s.flow, cap, s.speaker, e.x);
    }
  }

  lemma {:induction false} RunCounts(n: nat, s: Session, cap: nat, events: seq<Event>)
    requires Resting(s.flow, cap) && AllLegal(events) && CallsUndisturbed(events) && Counting(s.speaker, n)
    ensures Counting(Run(s, cap, events).speaker, FramesOffered(n, s, cap, events))
    decreases |events|
  {
    if events != [] {
      StepCounts(n, s, cap, events[0]);
      RunCounts(FramesAfter(n, s, cap, events[0]), Step(s, cap, events[0]), cap, events[1..]);
    }
  }

  /** Over every run with no clear inside a call, the next call looks at the backlog if and only if ten frames or more
    * were offered since the conversation began. */
  lemma LooksAtBacklogIffTenFrames(lead: seq<byte>, waiting: seq<byte>, cap: nat, events: seq<Event>)
    requires |lead| < PENDING_SIZE && |waiting| <= cap && AllLegal(events) && CallsUndisturbed(events)
    ensures var s := Opening(lead, waiting);
            var t := Run(s, cap, events);
            t.speaker.worked >= 10 || t.speaker.stable <==> FramesOffered(0, s, cap, events) >= 10
  {
    RunCounts(0, Opening(lead, waiting), cap, events);
  }

  // ---------- The code ----------

  /** A clear count, a byte, after `n` clears. */
  predicate Ticked(before: byte, now: byte, n: nat) {
    now == before + n || now == before + n - 256
  }

  /** Behind the blanks tmp_buff still holds what it held at the beginning. */
  ghost predicate Untouched(fmt: Format, tmp: array<byte>, x: Surroundings)
    requires Fit(fmt) && Proper(fmt, x)
    reads tmp
  {
    tmp.Length == fmt.room && forall k :: fmt.padTo <= k < fmt.frame ==> tmp[k] == x.stale[k]
  }

  /** The chunk and the blanks behind it go into tmp_buff; the beginning of that is offered. */
  method BuildFrame(fmt: Format, tmp: array<byte>, chunk: seq<byte>, x: Surroundings) returns (offered: seq<byte>)
    requires Fit(fmt) && Proper(fmt, x) && |chunk| <= fmt.room
    requires Untouched(fmt, tmp, x)
    modifies tmp
    ensures offered == Frame(fmt, chunk, x)
  {
    CopyInto(tmp, 0, chunk);
    if |chunk| < fmt.padTo {
      CopyInto(tmp, |chunk|, x.blank[..fmt.padTo - |chunk|]);
    }
    offered := tmp[..fmt.frame];
    FrameIs(fmt, chunk, x, offered);
  }

  lemma FrameIs(fmt: Format, chunk: seq<byte>, x: Surroundings, f: seq<byte>)
    requires Fit(fmt) && Proper(fmt, x) && |chunk| <= fmt.room && |f| == fmt.frame
    requires forall k :: 0 <= k < fmt.frame ==>
               f[k] == if k < |chunk| then chunk[k] else if k < fmt.padTo then x.blank[k - |chunk|] else x.stale[k]
    ensures f == Frame(fmt, chunk, x)
  {
  }

  /** memcpy, or the way CharBufferRead fills its destination. */
  method CopyInto(tmp: array<byte>, at: nat, src: seq<byte>)
    requires at + |src| <= tmp.Length
    modifies tmp
    ensures forall k :: 0 <= k < tmp.Length ==>
              tmp[k] == if at <= k < at + |src| then src[k - at] else old(tmp[k])
  {
    forall k | 0 <= k < |src| {
      tmp[at + k] := src[k];
    }
  }

  lemma OneTick(before: byte, now: byte, n: nat, cleared: bool)
    requires Ticked(before, now, n) && n < 255
    ensures Ticked(before, Bump(now, cleared), n + if cleared then 1 else 0)
  {
  }

  lemma NoTicks(before: byte, a: bool, b: bool, c: bool)
    ensures Bump(Bump(Bump(before, a), b), c) == before <==> !a && !b && !c
  {
  }

  class Player {
    /** whe_d2d_souder_have_been_worked and whe_d2d_souder_stable. */
    var worked: byte
    var stable: bool

    ghost function State(): Speaker
      reads this
    {
      Speaker(worked, stable)
    }

    constructor ()
      ensures State() == Speaker(0, false)
    {
      worked, stable := 0, false;
    }

    /** What the main thread does when a conversation has enough voice to begin. */
    method Begin()
      modifies this
      ensures State() == Speaker(0, false)
    {
      worked, stable := 0, false;
    }

    ghost predicate Agrees(main: Ring, pending: Ring, ret: int, heard: seq<byte>, v: Voice)
      reads this, main, main.cells, pending, pending.cells
    {
      ret == v.out.ret && heard == v.heard && State() == v.speaker && Holds(main, pending, v.out.end)
    }

    /** PlayAudioTwice_D2P and PlayAudioTwice_D2D.  `tmp` is tmp_buff, with whatever the stack held there. */
    method PlayVoice(fmt: Format, main: Ring, pending: Ring, tmp: array<byte>, x: Surroundings, ghost f: Flow)
      returns (ret: int, heard: seq<byte>)
      requires Fit(fmt) && Proper(fmt, x) && tmp[..] == x.stale
      requires tmp != main.cells && tmp != pending.cells
      requires Holds(main, pending, f) && Resting(f, main.Capacity())
      modifies this, tmp, main, main.cells, pending, pending.cells
      ensures Agrees(main, pending, ret, heard, Play(fmt, f, main.Capacity(), old(State()), x))
    {
      var clearFlag := main.clearCount;
      var tooFar, total, out;
      ghost var n: nat;
      tooFar, total, out, n := Judge(main, pending, clearFlag, x, f);
      CopyInto(tmp, 0, out);
      ghost var found := Measured(f, main.Capacity(), old(State()), x);
      if tooFar {
        return TRIMMED_TOO_FAR, [];
      }
      ret, heard := TestAndSpeak(fmt, main, pending, tmp, total, clearFlag, n, x, found);
    }

    /** How much there is, after a backlog was cut; and whether it was cut too far. */
    method Judge(main: Ring, pending: Ring, clearFlag: byte, x: Surroundings, ghost f: Flow)
      returns (tooFar: bool, total: nat, out: seq<byte>, ghost n: nat)
      requires Holds(main, pending, f) && Resting(f, main.Capacity()) && clearFlag == main.clearCount
      modifies this, main, main.cells, pending
      ensures State() == Settled(old(State()))
      ensures var found := Measured(f, main.Capacity(), old(State()), x);
              && Holds(main, pending, found.flow) && total == found.total && (found.cleared <==> n > 0)
              && tooFar == (Stable(old(State())) && Counted(f, main.Capacity(), x.i).total > BACKLOG
                            && total <= TRIM_BORDER)
      ensures n <= 5 && Ticked(clearFlag, main.clearCount, n) && |out| < TRIM_LIMIT
    {
      var pendingTotal, mainTotal;
      pendingTotal, mainTotal, n := Count(main, pending, x.i, f);
      total := mainTotal + pendingTotal;
      tooFar, out := false, [];
      if worked >= WARM || stable {
        worked, stable := 0, true;
        if total > BACKLOG {
          total, out, n := CutBacklog(main, pending, mainTotal, clearFlag, n, x.t, Counted(f, main.Capacity(), x.i));
          tooFar := total <= TRIM_BORDER;
        }
      }
    }

    method Count(main: Ring, pending: Ring, i: Interference, ghost f: Flow)
      returns (pendingTotal: nat, mainTotal: nat, ghost n: nat)
      requires Holds(main, pending, f) && Resting(f, main.Capacity())
      modifies main, main.cells, pending
      ensures var found := Counted(f, main.Capacity(), i);
              && Holds(main, pending, found.flow)
              && mainTotal == |found.flow.main| && pendingTotal + mainTotal == found.total
              && (found.cleared <==> n > 0)
      ensures n <= 2 && Ticked(old(main.clearCount), main.clearCount, n)
    {
      n := (if i.beforePendingCount.cleared then 1 else 0) + if i.beforeMainCount.cleared then 1 else 0;
      Elsewhere(main, pending, i.beforePendingCount, f);
      pendingTotal := Measure(pending);
      Elsewhere(main, pending, i.beforeMainCount, Pass(f, main.Capacity(), i.beforePendingCount));
      mainTotal := Measure(main);
    }

    /** The difference of two unsigned ints is compared, so a main ring below 3000 bytes counts as far above. */
    method CutBacklog(main: Ring, pending: Ring, measured: nat, clearFlag: byte, ghost m: nat, t: Trimming,
                      ghost found: Found)
      returns (total: nat, out: seq<byte>, ghost n: nat)
      requires Holds(main, pending, found.flow) && Resting(found.flow, main.Capacity())
      requires measured == |found.flow.main| && (found.cleared <==> m > 0)
      requires m <= 2 && Ticked(clearFlag, main.clearCount, m)
      modifies main, main.cells, pending
      ensures var again := Recounted(found, main.Capacity(), t);
              Holds(main, pending, again.flow) && total == again.total && (again.cleared <==> n > 0)
      ensures n <= 5 && Ticked(clearFlag, main.clearCount, n) && |out| < TRIM_LIMIT
    {
      n := m + if t.before.cleared then 1 else 0;
      OneTick(clearFlag, main.clearCount, m, t.before.cleared);
      out := PassAndCut(main, pending, measured, t.before, found.flow);
      ghost var flag, l := main.clearCount, n + if t.beforePendingCount.cleared then 1 else 0;
      total := CountAgain(main, pending, t, Trimmed(Pass(found.flow, main.Capacity(), t.before), measured));
      OneTick(clearFlag, flag, n, t.beforePendingCount.cleared);
      OneTick(clearFlag, Bump(flag, t.beforePendingCount.cleared), l, t.beforeMainCount.cleared);
      n := l + if t.beforeMainCount.cleared then 1 else 0;
    }

    method PassAndCut(main: Ring, pending: Ring, measured: nat, m: Meanwhile, ghost f: Flow) returns (out: seq<byte>)
      requires Holds(main, pending, f)
      modifies main, main.cells, pending
      ensures Holds(main, pending, Trimmed(Pass(f, main.Capacity(), m), measured)) && |out| < TRIM_LIMIT
      ensures main.clearCount == Bump(old(main.clearCount), m.cleared)
    {
      Elsewhere(main, pending, m, f);
      out := Cut(main, pending, measured, Pass(f, main.Capacity(), m));
    }

    method CountAgain(main: Ring, pending: Ring, t: Trimming, ghost f: Flow) returns (total: nat)
      requires Holds(main, pending, f) && Resting(f, main.Capacity())
      modifies main, main.cells, pending
      ensures var b := Pass(f, main.Capacity(), t.beforePendingCount);
              var c := Pass(b, main.Capacity(), t.beforeMainCount);
              Holds(main, pending, c) && total == |b.pending| + |c.main|
      ensures main.clearCount ==
              Bump(Bump(old(main.clearCount), t.beforePendingCount.cleared), t.beforeMainCount.cleared)
    {
      Elsewhere(main, pending, t.beforePendingCount, f);
      var pendingTotal := Measure(pending);
      Elsewhere(main, pending, t.beforeMainCount, Pass(f, main.Capacity(), t.beforePendingCount));
      var mainTotal := Measure(main);
      total := mainTotal + pendingTotal;
    }

    method Cut(main: Ring, pending: Ring, measured: nat, ghost f: Flow) returns (out: seq<byte>)
      requires Holds(main, pending, f)
      modifies main, pending
      ensures Holds(main, pending, Trimmed(f, measured)) && |out| < TRIM_LIMIT
      ensures main.clearCount == old(main.clearCount)
    {
      out := [];
      if measured >= BACKLOG {
        ClearRings(main, pending, Meanwhile(true, false, []), f);
      }
      if measured > BACKLOG && measured - BACKLOG < TRIM_LIMIT {
        out := SkipMain(main, pending, measured - BACKLOG, if measured >= BACKLOG then f.(pending := []) else f);
      }
    }

    method SkipMain(main: Ring, pending: Ring, size: nat, ghost f: Flow) returns (out: seq<byte>)
      requires Holds(main, pending, f)
      modifies main`rd
      ensures Holds(main, pending, f.(main := f.main[Min(size, |f.main|)..])) && |out| <= size
    {
      var k;
      k, out := main.Read(size);
    }

    method TestAndSpeak(fmt: Format, main: Ring, pending: Ring, tmp: array<byte>, total: nat, clearFlag: byte,
                        ghost n: nat, x: Surroundings, ghost found: Found)
      returns (ret: int, heard: seq<byte>)
      requires Fit(fmt) && Proper(fmt, x) && tmp != main.cells && tmp != pending.cells
      requires Untouched(fmt, tmp, x) && worked < 255
      requires Holds(main, pending, found.flow) && Resting(found.flow, main.Capacity())
      requires total == found.total && (found.cleared <==> n > 0)
      requires n <= 5 && Ticked(clearFlag, main.clearCount, n)
      modifies this`worked, tmp, main, main.cells, pending
      ensures Agrees(main, pending, ret, heard, Tested(fmt, found, main.Capacity(), old(State()), x))
    {
      Elsewhere(main, pending, x.i.beforeTest, found.flow);
      if clearFlag != main.clearCount {
        return CLEARED, [];
      }
      if total <= BORDER {
        return NOTHING, [];
      }
      ghost var g := Pass(found.flow, main.Capacity(), x.i.beforeTest);
      ret, heard := ReadAndSpeak(fmt, main, pending, tmp, clearFlag, x, g);
    }

    method ReadAndSpeak(fmt: Format, main: Ring, pending: Ring, tmp: array<byte>, clearFlag: byte, x: Surroundings,
                        ghost f: Flow)
      returns (ret: int, heard: seq<byte>)
      requires Fit(fmt) && Proper(fmt, x) && tmp != main.cells && tmp != pending.cells
      requires Untouched(fmt, tmp, x) && worked < 255
      requires Holds(main, pending, f) && Resting(f, main.Capacity()) && clearFlag == main.clearCount
      modifies this`worked, tmp, main, main.cells, pending
      ensures Agrees(main, pending, ret, heard, Speak(fmt, f, main.Capacity(), old(State()), x))
    {
      var chunk := ReadAndPass(main, pending, fmt.room, clearFlag, x.i, f);
      if clearFlag != main.clearCount {
        return CLEARED, [];
      }
      ghost var g := Pass(Fill(f, main.Capacity(), fmt.room, x.i), main.Capacity(), x.i.beforeOffer);
      ret, heard := SpeakChunk(fmt, main, pending, tmp, chunk, clearFlag, x, g);
    }

    method ReadAndPass(main: Ring, pending: Ring, room: nat, clearFlag: byte, i: Interference, ghost f: Flow)
      returns (chunk: seq<byte>)
      requires Holds(main, pending, f) && Resting(f, main.Capacity()) && room > 0 && clearFlag == main.clearCount
      modifies main, main.cells, pending
      ensures var t := Fill(f, main.Capacity(), room, i);
              chunk == t.chunk && Holds(main, pending, Pass(t, main.Capacity(), i.beforeOffer))
      ensures clearFlag != main.clearCount <==> ClearedLate(i)
    {
      NoTicks(clearFlag, i.beforePendingRead.cleared, i.beforeMainRead.cleared, i.beforeOffer.cleared);
      var ok;
      ok, chunk := ReadChunk(main, pending, room, i, f);
      Elsewhere(main, pending, i.beforeOffer, Fill(f, main.Capacity(), room, i));
    }

    method SpeakChunk(fmt: Format, main: Ring, pending: Ring, tmp: array<byte>, chunk: seq<byte>, clearFlag: byte,
                      x: Surroundings, ghost f: Flow)
      returns (ret: int, heard: seq<byte>)
      requires Fit(fmt) && Proper(fmt, x) && tmp != main.cells && tmp != pending.cells
      requires Untouched(fmt, tmp, x) && worked < 255
      requires Holds(main, pending, f) && |f.pending| < PENDING_SIZE && |f.main| <= main.Capacity()
      requires chunk == f.chunk && |chunk| <= fmt.room && clearFlag == main.clearCount
      modifies this`worked, tmp, main, main.cells, pending
      ensures Agrees(main, pending, ret, heard, Device(f, main.Capacity(), old(State()), x.i,
                Spoken(fmt, chunk, x.deviceLeft), Heard(fmt, chunk, x)))
    {
      var offered := BuildFrame(fmt, tmp, chunk, x);
      heard := offered[..|offered| - (if x.deviceLeft > |offered| then 0 else x.deviceLeft)];
      ret := OfferToDevice(main, pending, heard, Spoken(fmt, chunk, x.deviceLeft), clearFlag, x.i, f);
    }

    /** The device works; the rest of the frame is forgotten. */
    method OfferToDevice(main: Ring, pending: Ring, heard: seq<byte>, ghost played: seq<byte>, clearFlag: byte,
                         i: Interference, ghost f: Flow)
      returns (ret: int)
      requires Holds(main, pending, f) && |f.pending| < PENDING_SIZE && |f.main| <= main.Capacity()
      requires clearFlag == main.clearCount && worked < 255
      modifies this`worked, main, main.cells, pending
      ensures Agrees(main, pending, ret, heard, Device(f, main.Capacity(), old(State()), i, played, heard))
    {
      worked := worked + 1;
      Elsewhere(main, pending, i.duringOffer, f);
      if clearFlag != main.clearCount {
        return CLEARED;
      }
      Elsewhere(main, pending, i.afterOffer, Pass(f, main.Capacity(), i.duringOffer));
      ret := SPOKEN;
    }
  }
}
