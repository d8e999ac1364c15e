/** From the sender's buffers to the ring that network packages reach ("bcu-network-audio-rx"), and from there to the
  * sound card through the only two players that read this ring.
  */
module EndToEnd {
  import opened AudioFlow
  import opened CharBuffer
  import opened Packets
  import opened Subsequence
  import Voice = VoicePlayback

  /** The bytes of the first k packages. */
  function FirstBytes(counter: int, bufs: seq<seq<byte>>, k: nat): seq<byte>
    requires k <= |FragmentsOfAll(counter, bufs)|
  {
    Flatten(FragmentsOfAll(counter, bufs)[..k])
  }

  /** Packages that have arrived so far, in order and without loss, carry a beginning of what was sent. */
  lemma ArrivedIsPrefix(counter: int, bufs: seq<seq<byte>>, k: nat)
    requires k <= |FragmentsOfAll(counter, bufs)|
    ensures FirstBytes(counter, bufs, k) <= Concat(bufs)
    ensures k == |FragmentsOfAll(counter, bufs)| ==> FirstBytes(counter, bufs, k) == Concat(bufs)
  {
    var ps := FragmentsOfAll(counter, bufs);
    FragmentsOfAllAreFaithful(counter, bufs);
    FlattenConcat(ps[..k], ps[k..]);
    assert ps[..k] + ps[k..] == ps;
  }

  /** Losing packages loses bytes and does nothing else. */
  lemma {:induction false} LostPackages(got: seq<Packet>, sent: seq<Packet>)
    requires IsSub(got, sent)
    ensures IsSub(Flatten(got), Flatten(sent))
    decreases |sent|
  {
    if got != [] {
      var g, s := |got| - 1, |sent| - 1;
      FlattenLast(got);
      FlattenLast(sent);
      if got[g] == sent[s] && IsSub(got[..g], sent[..s]) {
        LostPackages(got[..g], sent[..s]);
        SubAppend(Flatten(got[..g]), Flatten(sent[..s]), sent[s].data);
      } else {
        LostPackages(got, sent[..s]);
        SubExtend(Flatten(got), Flatten(sent[..s]), sent[s].data);
      }
    }
  }

  lemma FlattenLast(ps: seq<Packet>)
    requires ps != []
    ensures Flatten(ps) == Flatten(ps[..|ps| - 1]) + ps[|ps| - 1].data
  {
    var last := [ps[|ps| - 1]];
    assert ps == ps[..|ps| - 1] + last;
    FlattenConcat(ps[..|ps| - 1], last);
    assert last[1..] == [];
  }

  // ---------- The network ring, whoever reads it ----------

  /** A package arrives, a reader takes up to `n` bytes, or the ring is cleared. */
  datatype Happening = Comes(p: Packet) | Take(n: nat) | Wipe

  /** `taken` is everything the readers removed so far. */
  datatype State = State(taken: seq<byte>, flow: Flow)

  function Removed(s: State, n: nat): State {
    var k := Min(n, |s.flow.main|);
    State(s.taken + s.flow.main[..k], s.flow.(main := s.flow.main[k..]))
  }

  function Step(s: State, cap: nat, h: Happening): (t: State)
    requires |s.flow.main| <= cap
    ensures |t.flow.main| <= cap
  {
    match h
    case Comes(p) => s.(flow := Written(s.flow, cap, p.data))
    case Take(n) => Removed(s, n)
    case Wipe => s.(flow := Cleared(s.flow, Meanwhile(false, true, [])))
  }

  function Run(s: State, cap: nat, hs: seq<Happening>): (t: State)
    requires |s.flow.main| <= cap
    ensures |t.flow.main| <= cap
    decreases |hs|
  {
    if hs == [] then s else Run(Step(s, cap, hs[0]), cap, hs[1..])
  }

  /** The packages that arrive during a run. */
  function Came(hs: seq<Happening>): seq<Packet>
    decreases |hs|
  {
    if hs == [] then []
    else if hs[0].Comes? then [hs[0].p] + Came(hs[1..])
    else Came(hs[1..])
  }

  predicate NoWipe(hs: seq<Happening>) {
    forall k :: 0 <= k < |hs| ==> !hs[k].Wipe?
  }

  ghost predicate Inv(s: State, exact: bool) {
    s.flow.chunk == [] && s.flow.pending == [] && Sound(s.taken, s.flow, exact)
  }

  lemma RemovedKeepsInv(s: State, n: nat, exact: bool)
    requires Inv(s, exact)
    ensures Inv(Removed(s, n), exact)
  {
    var k := Min(n, |s.flow.main|);
    assert s.flow.main[..k] + s.flow.main[k..] == s.flow.main;
    assert s.taken + [] + [] + (s.flow.main[..k] + s.flow.main[k..])
        == s.taken + s.flow.main[..k] + [] + [] + s.flow.main[k..];
  }

  lemma StepKeepsInv(s: State, cap: nat, h: Happening, exact: bool)
    requires |s.flow.main| <= cap && Inv(s, exact)
    ensures Inv(Step(s, cap, h), exact && !h.Wipe?)
    ensures Step(s, cap, h).flow.offered == if h.Comes? then s.flow.offered + h.p.data else s.flow.offered
  {
    match h
    case Comes(p) => WrittenIsSound(s.taken, s.flow, cap, p.data, exact);
    case Take(n) => RemovedKeepsInv(s, n, exact);
    case Wipe => ClearedIsSound(s.taken, s.flow, Meanwhile(false, true, []), exact);
  }

  lemma {:induction false} RunKeepsInv(s: State, cap: nat, hs: seq<Happening>, exact: bool)
    requires |s.flow.main| <= cap && Inv(s, exact)
    ensures Inv(Run(s, cap, hs), exact && NoWipe(hs))
    ensures Run(s, cap, hs).flow.offered == s.flow.offered + Flatten(Came(hs))
    decreases |hs|
  {
    if hs != [] {
      var s1 := Step(s, cap, hs[0]);
      StepKeepsInv(s, cap, hs[0], exact);
      RunKeepsInv(s1, cap, hs[1..], exact && !hs[0].Wipe?);
      assert NoWipe(hs) ==> !hs[0].Wipe? && NoWipe(hs[1..]);
      if hs[0].Comes? {
        Join(s.flow.offered, hs[0].p.data, Flatten(Came(hs[1..])));
        assert Came(hs)[1..] == Came(hs[1..]);
      }
    }
  }

  lemma RingHolds(cap: nat, hs: seq<Happening>)
    ensures var t := Run(State([], SILENCE), cap, hs);
            && IsSub(t.taken + t.flow.main, t.flow.fed) && (NoWipe(hs) ==> t.taken + t.flow.main == t.flow.fed)
            && t.flow.offered == Flatten(Came(hs))
            && IsSub(t.flow.fed, t.flow.offered) && (t.flow.room ==> t.flow.fed == t.flow.offered)
  {
    RunKeepsInv(State([], SILENCE), cap, hs, true);
    NothingBetween(Run(State([], SILENCE), cap, hs));
    assert [] + Flatten(Came(hs)) == Flatten(Came(hs));
  }

  lemma NothingBetween(t: State)
    requires t.flow.chunk == [] && t.flow.pending == []
    ensures Whole(t.taken, t.flow) == t.taken + t.flow.main
  {
    assert t.taken + [] + [] == t.taken;
  }

  /** For any buffers sent, the first k packages arriving anywhere in a run of arrivals and reads: while the ring has
    * room, what the readers removed and what waits are together exactly the bytes of these packages, and so a
    * beginning of what was sent, and all of it in the end. */
  lemma NetworkRingDeliversWhatWasSent(counter: int, bufs: seq<seq<byte>>, k: nat, cap: nat, hs: seq<Happening>)
    requires k <= |FragmentsOfAll(counter, bufs)| && NoWipe(hs)
    ensures var t := Run(State([], SILENCE), cap, hs);
            Came(hs) == FragmentsOfAll(counter, bufs)[..k] && t.flow.room ==>
              && t.taken + t.flow.main == FirstBytes(counter, bufs, k) <= Concat(bufs)
              && (k == |FragmentsOfAll(counter, bufs)| ==> t.taken + t.flow.main == Concat(bufs))
  {
    RingHolds(cap, hs);
    ArrivedIsPrefix(counter, bufs, k);
  }

  /** Whatever goes wrong - packages lost, the ring too full, the ring cleared at any point - the readers get what was
    * sent with bytes left out: nothing doubled, reordered or made up. */
  lemma NetworkRingDeliversNothingElse(counter: int, bufs: seq<seq<byte>>, cap: nat, hs: seq<Happening>)
    requires IsSub(Came(hs), FragmentsOfAll(counter, bufs))
    ensures var t := Run(State([], SILENCE), cap, hs); IsSub(t.taken + t.flow.main, Concat(bufs))
  {
    var t := Run(State([], SILENCE), cap, hs);
    RingHolds(cap, hs);
    LostPackages(Came(hs), FragmentsOfAll(counter, bufs));
    FragmentsOfAllAreFaithful(counter, bufs);
    SubTrans(t.taken + t.flow.main, t.flow.fed, t.flow.offered);
    SubTrans(t.taken + t.flow.main, t.flow.offered, Concat(bufs));
  }

  // ---------- To the sound card ----------

  /** Through the players of this ring, whatever they drop and put in and whatever is cleared: the voice the device
    * hears is what was sent with bytes left out.  `head` is what the box itself put in front, such as the header that
    * entering an intercom state writes. */
  lemma VoiceIsWhatWasSent(counter: int, bufs: seq<seq<byte>>, got: seq<Packet>, head: seq<byte>,
                           lead: seq<byte>, waiting: seq<byte>, cap: nat, events: seq<Voice.Event>)
    requires IsSub(got, FragmentsOfAll(counter, bufs))
    requires |lead| < PENDING_SIZE && |waiting| <= cap && Voice.AllLegal(events)
    ensures var t := Voice.Run(Voice.Opening(lead, waiting), cap, events);
            t.flow.offered == head + Flatten(got) ==>
              IsSub(t.voice, head + Concat(bufs)) && IsSub(t.voice, t.heard)
  {
    var t := Voice.Run(Voice.Opening(lead, waiting), cap, events);
    Voice.EveryRunSpeaksASubsequence(lead, waiting, cap, events);
    if t.flow.offered == head + Flatten(got) {
      LostPackages(got, FragmentsOfAll(counter, bufs));
      FragmentsOfAllAreFaithful(counter, bufs);
      SubPrepend(head, Flatten(got), Concat(bufs));
      SubTrans(t.voice, t.flow.fed, t.flow.offered);
      SubTrans(t.voice, t.flow.offered, head + Concat(bufs));
    }
  }

  /** With the packages arriving in order into a ring that has room, and no clear inside a call: the device has heard
    * exactly what was sent, up to what is still in the rings, if and only if every call was faithful and every clear
    * met an empty ring. */
  lemma CardHearsWhatWasSentIff(counter: int, bufs: seq<seq<byte>>, k: nat, head: seq<byte>,
                                lead: seq<byte>, waiting: seq<byte>, cap: nat, events: seq<Voice.Event>)
    requires k <= |FragmentsOfAll(counter, bufs)|
    requires |lead| < PENDING_SIZE && |waiting| <= cap && Voice.AllLegal(events) && Voice.CallsUndisturbed(events)
    ensures var s := Voice.Opening(lead, waiting);
            var t := Voice.Run(s, cap, events);
            t.flow.offered == head + FirstBytes(counter, bufs, k) && t.flow.room ==>
              ((t.heard == t.voice && t.heard + t.flow.pending + t.flow.main == head + FirstBytes(counter, bufs, k))
               <==> Voice.AllFaithful(s, cap, events))
              && head + FirstBytes(counter, bufs, k) <= head + Concat(bufs)
  {
    Voice.EveryRunSpeaksASubsequence(lead, waiting, cap, events);
    Voice.EveryRunIsFaithfulIff(lead, waiting, cap, events);
    ArrivedIsPrefix(counter, bufs, k);
  }
}
