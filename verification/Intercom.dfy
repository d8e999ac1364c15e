/** The ownership state machine: live announcement and the four intercom states, who owns the microphone,
  * where the audio goes, and the recording commands.
  *
  * A state object is written by name.  `ids` holds the state_id field of each object, which enter functions
  * assign through the active pointer.  `ann` and `intercom` are the two active pointers.
  */
module Intercom {
  import opened Events

  const LIVE_DST_NO := 231
  const CC_DST_NO := 230

  datatype Mic = ForAnnounce | ForIntercom | Unowned

  datatype Destination = Destination(name: string, no: int)

  const NOWHERE := Destination("", 0)
  const TO_EAMP := Destination("EAMP", LIVE_DST_NO)
  const TO_CC := Destination("CC", CC_DST_NO)

  function ToPcu(no: int): Destination {
    Destination("PCU", no)
  }

  const D2D_RECORDING := 0
  const D2P_RECORDING := 1

  /** One command handed out by SendCommonCMDToCCUTORecordingAudioData. */
  datatype Recording = Recording(kind: int, peer: int, begin: bool)

  // ---------- The rule table ----------

  datatype Trigger =
    | PttOrDriverCall | PttReleaseAndDriverRelease | ConfirmPcuCall | ConfirmReleasePcu
    | TimeOut | TransferToD2DOrDriverCall | ConfirmTransferToD2P

  datatype Rule = Empty | Rule(src: StateObject, dst: StateObject, trigger: Trigger)

  const RECORD_OF_RULES := 50

  /** BCURuleTableInit: two rules out of idle, one out of D2D, two out of D2P, two out of hang-up. */
  const RULES: seq<Rule> := [
    Rule(IdleIntercom, D2D, PttOrDriverCall),
    Rule(IdleIntercom, D2P, ConfirmPcuCall),
    Rule(D2D, IdleIntercom, PttReleaseAndDriverRelease),
    Rule(D2P, IdleIntercom, ConfirmReleasePcu),
    Rule(D2P, HangUp, TransferToD2DOrDriverCall),
    Rule(HangUp, D2D, TimeOut),
    Rule(HangUp, D2P, ConfirmTransferToD2P)]

  /** The whole table: unused records stay empty. */
  function RuleTable(): seq<Rule> {
    RULES + seq(RECORD_OF_RULES - |RULES|, _ => Empty)
  }

  type Ids = map<StateObject, int>

  /** Every object carries the id it was declared with. */
  ghost predicate Declared(ids: Ids) {
    forall o: StateObject :: o in ids && ids[o] == DeclaredId(o)
  }

  const DECLARED_IDS: Ids := map o: StateObject | o in ALL_STATES :: DeclaredId(o)

  predicate Fires(ids: Ids, r: Rule, id: int, t: Trigger) {
    r.Rule? && r.src in ids && ids[r.src] == id && r.trigger == t
  }

  /** The first rule whose source has the given id decides. */
  function Target(ids: Ids, rules: seq<Rule>, id: int, t: Trigger): Rule {
    if rules == [] then Empty
    else if Fires(ids, rules[0], id, t) then rules[0]
    else Target(ids, rules[1..], id, t)
  }

  /** With the declared ids the seven rules are deterministic and closed: at most one fires, and it leads
    * from the active intercom object to another one. */
  lemma RulesAreDeterministicAndClosed(ids: Ids, i: nat, j: nat, o: StateObject, t: Trigger)
    requires Declared(ids) && i < |RULES| && j < |RULES|
    requires Fires(ids, RULES[i], DeclaredId(o), t) && Fires(ids, RULES[j], DeclaredId(o), t)
    ensures i == j && RULES[i].src == o && RULES[i].dst != o
    ensures RULES[i].dst in {IdleIntercom, D2D, D2P, HangUp}
  {
  }

  // ---------- The state ----------

  /** `log` is history. */
  datatype Box = Box(
    ann: StateObject, intercom: StateObject, ids: Ids, rules: seq<Rule>,
    mic: Mic, dest: Destination,
    liveButton: int, d2dButton: int, d2pButton: int, thisRequest: int,
    receptPcu: int, refusePcu: int, hangUpPcu: int,
    timedOut: int, opposite: int, log: seq<Recording>)

  function AnnId(b: Box): int {
    if b.ann in b.ids then b.ids[b.ann] else 0
  }

  function IntercomId(b: Box): int {
    if b.intercom in b.ids then b.ids[b.intercom] else 0
  }

  /** BCUStateInit. */
  function Initial(opposite: int): Box {
    Box(IdleAnn, IdleIntercom, DECLARED_IDS, RuleTable(), Unowned, NOWHERE, 0, 0, 0, 0, 0, 0, 0, 0, opposite, [])
  }

  // ---------- Enter and exit actions ----------

  function IdleAnnEnter(b: Box): Box {
    b.(ids := b.ids[b.ann := ANN_IDLE])
  }

  function LiveAnnEnter(b: Box): Box {
    b.(liveButton := 1, dest := TO_EAMP, mic := ForAnnounce)
  }

  function LiveAnnExit(b: Box): Box {
    b.(liveButton := 0, dest := NOWHERE, mic := Unowned)
  }

  /** The exit action of the active announcement, as far as these handlers reach it. */
  function AnnExit(b: Box): Box {
    if b.ann.LiveAnn? then LiveAnnExit(b) else b
  }

  function Record(b: Box, kind: int, peer: int, begin: bool): Box {
    b.(log := b.log + [Recording(kind, peer, begin)])
  }

  function RecordIfRequested(b: Box, begin: bool): Box {
    if b.thisRequest == 1 then Record(b, D2D_RECORDING, b.opposite, begin) else b
  }

  /** D2D and D2P give the microphone back to an announcement that is still active. */
  function HandBack(b: Box): Box {
    if AnnId(b) in {LIVE_ANN_EVENT, OCC_EVENT, MIC_3D5_OUTER_EVENT}
    then b.(mic := ForAnnounce, dest := TO_EAMP)
    else b.(mic := Unowned, dest := NOWHERE)
  }

  function IntercomEnter(b: Box): Box {
    match b.intercom
    case IdleIntercom => b.(ids := b.ids[b.intercom := INTERCOM_IDLE])
    case D2D => RecordIfRequested(b, true).(d2dButton := 1, mic := ForIntercom, dest := TO_CC)
    case D2P =>
      Record(b, D2P_RECORDING, b.receptPcu, true).(mic := ForIntercom, dest := ToPcu(b.receptPcu))
    case HangUp =>
      RecordIfRequested(b, true).(
        hangUpPcu := if b.receptPcu != 0 then b.receptPcu else b.hangUpPcu,
        d2dButton := 1, mic := ForIntercom, dest := TO_CC)
    case _ => b
  }

  function IntercomExit(b: Box): Box {
    match b.intercom
    case D2D => HandBack(RecordIfRequested(b, false)).(d2dButton := 0, thisRequest := 0)
    case D2P => HandBack(Record(b, D2P_RECORDING, b.receptPcu, false))
    case HangUp => RecordIfRequested(b, false).(d2dButton := 0, mic := Unowned, dest := NOWHERE)
    case _ => b
  }

  /** The active pointer is moved between the exit and the enter action. */
  function MoveIntercom(b: Box, dst: StateObject): Box {
    IntercomEnter(IntercomExit(b).(intercom := dst))
  }

  /** StateMachineExchange. */
  function Exchange(b: Box, t: Trigger): Box {
    var r := Target(b.ids, b.rules, IntercomId(b), t);
    if r.Rule? then MoveIntercom(b, r.dst) else b
  }

  // ---------- Handlers ----------

  /** ExitFromLiveWithoutTS, and the same statements inside JudgeWhetherHaveD2DRequest. */
  function ExitFromLive(b: Box): Box {
    IdleAnnEnter(AnnExit(b).(ann := IdleAnn))
  }

  function ExchangeToLive(b: Box): Box {
    LiveAnnEnter(AnnExit(b).(ann := LiveAnn))
  }

  /** PAHandle; `edge` is what GetLiveExternButtonState reports: 1 pressed, 0 released, 3 no change. */
  function PAHandle(b: Box, edge: int): Box {
    if IntercomId(b) != INTERCOM_IDLE then b
    else if edge == 1 && b.liveButton == 0 then ExchangeToLive(b)
    else if edge == 0 && b.liveButton == 1 then ExitFromLive(b)
    else b
  }

  /** The number of the first PCU whose entry is 1, or 0. */
  function FirstWaiting(requests: seq<int>, from: nat): (no: int)
    requires from <= |requests|
    ensures 0 <= no <= |requests|
    decreases |requests| - from
  {
    if from == |requests| then 0
    else if requests[from] == 1 then from + 1
    else FirstWaiting(requests, from + 1)
  }

  /** PCHandle; the request counter and the table of waiting PCUs are maintained elsewhere. */
  function PCHandle(b: Box, pressed: bool, requestNumber: int, requests: seq<int>): Box {
    var no := FirstWaiting(requests, 0);
    if requestNumber == 0 || no <= 0 || no > 12 || !pressed then b
    else if b.d2pButton == 0 then
      if AnnId(b) == LIVE_ANN_EVENT && IntercomId(b) == INTERCOM_IDLE then
        MoveIntercom(ExitFromLive(b).(receptPcu := no), D2P).(d2pButton := 1)
      else if AnnId(b) == ANN_IDLE && IntercomId(b) == INTERCOM_IDLE then
        MoveIntercom(b.(receptPcu := no), D2P).(d2pButton := 1)
      else b
    else if b.d2pButton == 1 then
      MoveIntercom(b.(receptPcu := no, refusePcu := no), IdleIntercom).(d2pButton := 0)
    else b
  }

  /** JudegWhetherRequestD2D. */
  function RequestD2D(b: Box, pressed: bool): Box {
    if IntercomId(b) == INTERCOM_IDLE && pressed && b.mic == Unowned && b.d2dButton == 0
    then b.(thisRequest := 1) else b
  }

  function LeaveD2D(b: Box): Box {
    if IntercomId(b) == D2D_HANGUP_D2P_EVENT then Exchange(b, ConfirmTransferToD2P)
    else if IntercomId(b) == D2D_INTERCOMM_EVENT then Exchange(b, PttReleaseAndDriverRelease)
    else b
  }

  /** NetFinishD2D. */
  function NetFinishD2D(b: Box): Box {
    if b.d2dButton != 1 then b else LeaveD2D(b)
  }

  /** judgeWheteherExitD2DEnterD2P. */
  function ExitD2DEnterD2P(b: Box): Box {
    if IntercomId(b) == D2D_HANGUP_D2P_EVENT then Exchange(b, ConfirmTransferToD2P) else b
  }

  /** The answer to a D2D request once no announcement is live. */
  function AnswerD2D(b: Box, c: Command): Box {
    if !WantsExchange(AnnId(b), IntercomId(b), c) then b
    else if IntercomId(b) == D2P_INTERCOMM_EVENT then Exchange(b, TransferToD2DOrDriverCall)
    else Exchange(b, PttOrDriverCall)
  }

  /** JudgeWhetherHaveD2DRequest. */
  function NetworkD2D(b: Box, c: Command): Box {
    if c.intercom == D2D_INTERCOMM_EVENT && c.d2dActive == 1 && c.d2dRequestOrOver == 0 && c.d2dResponse == 0 then
      var quiet := if AnnId(b) == LIVE_ANN_EVENT && IntercomId(b) != D2P_INTERCOMM_EVENT
                   then ExitFromLive(b) else b;
      AnswerD2D(quiet, c)
    else if c.intercom == D2D_INTERCOMM_EVENT && c.d2dActive == 0 then
      if IntercomId(b) == D2D_INTERCOMM_EVENT then NetFinishD2D(b) else ExitD2DEnterD2P(b)
    else b
  }

  /** JudgeWhetherD2DHaveFinished. */
  function D2DFinished(b: Box, pressed: bool): Box {
    if IntercomId(b) in {D2D_INTERCOMM_EVENT, D2D_HANGUP_D2P_EVENT} && pressed && b.d2dButton == 1
    then LeaveD2D(b) else b
  }

  /** D2DHangUpD2PTimeOutHandle. */
  function HangUpTimeOut(b: Box): Box {
    if b.timedOut == 1 then Exchange(b.(timedOut := 0), TimeOut) else b
  }

  /** ForceBreakD2DToD2P. */
  function ForceBreak(b: Box): Box {
    LeaveD2D(b)
  }

  /** What happens to the box: a handler runs, or the hang-up timer fires. */
  datatype Event =
    | Pa(edge: int)
    | Pc(pressed: bool, requestNumber: int, requests: seq<int>)
    | Request(pressed: bool)
    | Network(c: Command)
    | Finished(pressed: bool)
    | TimerFires
    | TimeOutPoll
    | Break

  function Step(b: Box, e: Event): Box {
    match e
    case Pa(edge) => PAHandle(b, edge)
    case Pc(pressed, n, requests) => PCHandle(b, pressed, n, requests)
    case Request(pressed) => RequestD2D(b, pressed)
    case Network(c) => NetworkD2D(b, c)
    case Finished(pressed) => D2DFinished(b, pressed)
    case TimerFires => b.(timedOut := 1)
    case TimeOutPoll => HangUpTimeOut(b)
    case Break => ForceBreak(b)
  }

  function Run(b: Box, events: seq<Event>): Box
    decreases |events|
  {
    if events == [] then b else Run(Step(b, events[0]), events[1..])
  }

  // ---------- What every run keeps ----------

  /** The recordings of one kind strictly alternate, starting with a begin; `open` tells whether the last
    * one is a begin. */
  ghost predicate Bracketed(log: seq<Recording>, kind: int, open: bool) {
    if log == [] then !open
    else
      var last, front := log[|log| - 1], log[..|log| - 1];
      if last.kind != kind then Bracketed(front, kind, open)
      else last.begin == open && Bracketed(front, kind, !open)
  }

  /** Who owns the microphone and where audio goes is a function of the two active states. */
  predicate Owned(b: Box) {
    if b.ann == LiveAnn then b.mic == ForAnnounce && b.dest == TO_EAMP
    else if b.intercom == D2D || b.intercom == HangUp then b.mic == ForIntercom && b.dest == TO_CC
    else if b.intercom == D2P then b.mic == ForIntercom && b.dest == ToPcu(b.receptPcu)
    else b.mic == Unowned && b.dest == NOWHERE
  }

  predicate InD2D(b: Box) {
    b.intercom == D2D || b.intercom == HangUp
  }

  predicate Connected(b: Box) {
    b.intercom == D2P || b.intercom == HangUp
  }

  predicate OwnRecordingOpen(b: Box) {
    InD2D(b) && b.thisRequest == 1
  }

  ghost predicate Inv(b: Box) {
    && Declared(b.ids) && b.rules == RuleTable()
    && (b.ann == IdleAnn || b.ann == LiveAnn)
    && IsIntercom(b.intercom)
    && (b.ann == LiveAnn ==> b.intercom == IdleIntercom)
    && Owned(b)
    && b.liveButton == (if b.ann == LiveAnn then 1 else 0)
    && b.d2dButton == (if InD2D(b) then 1 else 0)
    && (b.intercom == D2P || b.intercom == HangUp ==> b.d2pButton == 1 && 1 <= b.receptPcu <= 12)
    && (b.intercom == HangUp ==> b.hangUpPcu == b.receptPcu)
    && Bracketed(b.log, D2P_RECORDING, b.intercom == D2P)
    && Bracketed(b.log, D2D_RECORDING, OwnRecordingOpen(b))
  }

  lemma RecordStep(log: seq<Recording>, r: Recording, kind: int, open: bool)
    ensures Bracketed(log + [r], kind, open) <==>
            if r.kind != kind then Bracketed(log, kind, open)
            else r.begin == open && Bracketed(log, kind, !open)
  {
  }

  /** What is left of the invariant between the exit and the enter action. */
  ghost predicate Left(b: Box) {
    && Declared(b.ids) && b.rules == RuleTable() && b.ann == IdleAnn
    && b.mic == Unowned && b.dest == NOWHERE
    && b.liveButton == 0 && b.d2dButton == 0
    && Bracketed(b.log, D2P_RECORDING, false) && Bracketed(b.log, D2D_RECORDING, false)
  }

  predicate IsIntercom(o: StateObject) {
    o == IdleIntercom || o == D2D || o == D2P || o == HangUp
  }

  /** What an exit action relies on. */
  ghost predicate Exitable(b: Box) {
    && Declared(b.ids) && b.rules == RuleTable() && b.ann == IdleAnn && IsIntercom(b.intercom)
    && (b.intercom == IdleIntercom ==> b.mic == Unowned && b.dest == NOWHERE)
    && b.liveButton == 0 && b.d2dButton == (if InD2D(b) then 1 else 0)
    && Bracketed(b.log, D2P_RECORDING, b.intercom == D2P)
    && Bracketed(b.log, D2D_RECORDING, OwnRecordingOpen(b))
  }

  lemma ExitLeaves(b: Box)
    requires Exitable(b)
    ensures var e := IntercomExit(b);
            && Left(e) && e.receptPcu == b.receptPcu && e.hangUpPcu == b.hangUpPcu
            && e.d2pButton == b.d2pButton && e.opposite == b.opposite && e.intercom == b.intercom
            && (b.intercom == HangUp ==> e.thisRequest == b.thisRequest)
  {
    if b.intercom == D2P {
      RecordStep(b.log, Recording(D2P_RECORDING, b.receptPcu, false), D2D_RECORDING, false);
      RecordStep(b.log, Recording(D2P_RECORDING, b.receptPcu, false), D2P_RECORDING, false);
    } else {
      RecordStep(b.log, Recording(D2D_RECORDING, b.opposite, false), D2D_RECORDING, false);
      RecordStep(b.log, Recording(D2D_RECORDING, b.opposite, false), D2P_RECORDING, false);
    }
  }

  lemma EnterOwns(b: Box)
    requires Left(b)
    requires IsIntercom(b.intercom)
    ensures var e := IntercomEnter(b);
            && Declared(e.ids) && e.rules == RuleTable() && e.intercom == b.intercom && e.ann == IdleAnn && Owned(e)
            && e.liveButton == 0 && e.d2dButton == (if InD2D(b) then 1 else 0)
            && e.d2pButton == b.d2pButton && e.receptPcu == b.receptPcu && e.thisRequest == b.thisRequest
            && (b.intercom == HangUp && b.receptPcu != 0 ==> e.hangUpPcu == b.receptPcu)
            && Bracketed(e.log, D2P_RECORDING, b.intercom == D2P)
            && Bracketed(e.log, D2D_RECORDING, OwnRecordingOpen(e))
  {
    RecordStep(b.log, Recording(D2D_RECORDING, b.opposite, true), D2D_RECORDING, true);
    RecordStep(b.log, Recording(D2D_RECORDING, b.opposite, true), D2P_RECORDING, false);
    RecordStep(b.log, Recording(D2P_RECORDING, b.receptPcu, true), D2D_RECORDING, false);
    RecordStep(b.log, Recording(D2P_RECORDING, b.receptPcu, true), D2P_RECORDING, true);
  }

  /** Moving to any intercom state keeps everything, as long as D2P and hang-up have a PCU to talk to. */
  lemma MoveKeepsInv(b: Box, dst: StateObject)
    requires Inv(b) && b.ann == IdleAnn
    requires IsIntercom(dst)
    requires dst == D2P || dst == HangUp ==> b.d2pButton == 1 && 1 <= b.receptPcu <= 12
    ensures Inv(MoveIntercom(b, dst)) && MoveIntercom(b, dst).intercom == dst
    ensures MoveIntercom(b, dst).receptPcu == b.receptPcu && MoveIntercom(b, dst).d2pButton == b.d2pButton
    ensures b.intercom == HangUp ==> MoveIntercom(b, dst).thisRequest == b.thisRequest
  {
    ExitLeaves(b);
    EnterOwns(IntercomExit(b).(intercom := dst));
  }

  /** The edges of the table: where each trigger leads from each state. */
  function Edge(o: StateObject, t: Trigger): Rule {
    match (o, t)
    case (IdleIntercom, PttOrDriverCall) => RULES[0]
    case (IdleIntercom, ConfirmPcuCall) => RULES[1]
    case (D2D, PttReleaseAndDriverRelease) => RULES[2]
    case (D2P, ConfirmReleasePcu) => RULES[3]
    case (D2P, TransferToD2DOrDriverCall) => RULES[4]
    case (HangUp, TimeOut) => RULES[5]
    case (HangUp, ConfirmTransferToD2P) => RULES[6]
    case _ => Empty
  }

  function Next(o: StateObject, t: Trigger): StateObject {
    if Edge(o, t).Rule? then Edge(o, t).dst else o
  }

  lemma {:induction false} TargetFrom(ids: Ids, rules: seq<Rule>, id: int, t: Trigger, k: nat)
    requires k <= |rules|
    requires forall i :: 0 <= i < k ==> !Fires(ids, rules[i], id, t)
    ensures Target(ids, rules, id, t) == Target(ids, rules[k..], id, t)
    ensures k < |rules| && Fires(ids, rules[k], id, t) ==> Target(ids, rules, id, t) == rules[k]
    ensures k == |rules| ==> Target(ids, rules, id, t) == Empty
  {
    if k > 0 {
      assert !Fires(ids, rules[0], id, t);
      forall i | 0 <= i < k - 1
        ensures !Fires(ids, rules[1..][i], id, t)
      {
        assert rules[1..][i] == rules[i + 1];
      }
      TargetFrom(ids, rules[1..], id, t, k - 1);
      assert rules[1..][k - 1..] == rules[k..];
    } else {
      assert rules[0..] == rules;
    }
  }

  /** The position of that edge in the table, or the table size. */
  function EdgeIndex(o: StateObject, t: Trigger): nat {
    match (o, t)
    case (IdleIntercom, PttOrDriverCall) => 0
    case (IdleIntercom, ConfirmPcuCall) => 1
    case (D2D, PttReleaseAndDriverRelease) => 2
    case (D2P, ConfirmReleasePcu) => 3
    case (D2P, TransferToD2DOrDriverCall) => 4
    case (HangUp, TimeOut) => 5
    case (HangUp, ConfirmTransferToD2P) => 6
    case _ => 7
  }

  lemma OnlyEdgeFires(ids: Ids, rules: seq<Rule>, o: StateObject, t: Trigger, i: nat)
    requires Declared(ids) && rules == RuleTable() && i < RECORD_OF_RULES
    ensures Fires(ids, rules[i], DeclaredId(o), t) <==> i == EdgeIndex(o, t) < 7
  {
    if i < 7 {
      assert rules[i] == RULES[i];
      assert rules[i].src in ids && ids[rules[i].src] == DeclaredId(rules[i].src);
    } else {
      assert rules[i] == Empty;
    }
  }

  /** The search through the table finds exactly these edges. */
  lemma SearchFindsEdge(ids: Ids, rules: seq<Rule>, o: StateObject, t: Trigger)
    requires Declared(ids) && rules == RuleTable()
    ensures Target(ids, rules, DeclaredId(o), t) == Edge(o, t)
  {
    var k := if EdgeIndex(o, t) < 7 then EdgeIndex(o, t) else RECORD_OF_RULES;
    forall i | 0 <= i < k
      ensures !Fires(ids, rules[i], DeclaredId(o), t)
    {
      OnlyEdgeFires(ids, rules, o, t, i);
    }
    if k < 7 {
      OnlyEdgeFires(ids, rules, o, t, k);
    }
    TargetFrom(ids, rules, DeclaredId(o), t, k);
  }

  /** Any trigger, in any state without a live announcement, keeps the invariant and follows its edge. */
  lemma ExchangeKeepsInv(b: Box, t: Trigger)
    requires Inv(b) && b.ann == IdleAnn
    requires !(b.intercom == IdleIntercom && t == ConfirmPcuCall)
    ensures Inv(Exchange(b, t)) && Exchange(b, t).intercom == Next(b.intercom, t)
    ensures Exchange(b, t).receptPcu == b.receptPcu && Exchange(b, t).d2pButton == b.d2pButton
    ensures b.intercom == HangUp ==> Exchange(b, t).thisRequest == b.thisRequest
    ensures Edge(b.intercom, t).Empty? ==> Exchange(b, t) == b
  {
    SearchFindsEdge(b.ids, b.rules, b.intercom, t);
    if Edge(b.intercom, t).Rule? {
      MoveKeepsInv(b, Next(b.intercom, t));
    }
  }

  lemma ExitFromLiveKeepsInv(b: Box)
    requires Inv(b) && b.intercom == IdleIntercom
    ensures Inv(ExitFromLive(b)) && ExitFromLive(b).ann == IdleAnn
    ensures ExitFromLive(b).intercom == IdleIntercom
  {
  }

  /** The three ways out of D2D and hang-up. */
  lemma LeaveKeepsInv(b: Box)
    requires Inv(b)
    ensures Inv(LeaveD2D(b)) && LeaveD2D(b).receptPcu == b.receptPcu && LeaveD2D(b).d2pButton == b.d2pButton
    ensures LeaveD2D(b).intercom == (if b.intercom == HangUp then D2P
                                     else if b.intercom == D2D then IdleIntercom else b.intercom)
    ensures !InD2D(b) ==> LeaveD2D(b) == b
  {
    if b.intercom == HangUp {
      ExchangeKeepsInv(b, ConfirmTransferToD2P);
    } else if b.intercom == D2D {
      ExchangeKeepsInv(b, PttReleaseAndDriverRelease);
    }
  }

  lemma HangUpLeavesLikeD2D(b: Box)
    requires Inv(b) && b.intercom != D2D
    ensures ExitD2DEnterD2P(b) == LeaveD2D(b)
  {
  }

  lemma AnswerKeepsInv(b: Box, c: Command)
    requires Inv(b) && b.ann == IdleAnn
    ensures Inv(AnswerD2D(b, c)) && AnswerD2D(b, c).receptPcu == b.receptPcu
    ensures AnswerD2D(b, c).d2pButton == b.d2pButton
    ensures b.intercom == IdleIntercom ==> !Connected(AnswerD2D(b, c))
    ensures InD2D(b) ==> AnswerD2D(b, c) == b
    ensures b.intercom == D2P ==> AnswerD2D(b, c).intercom in {D2P, HangUp}
    ensures AnswerD2D(b, c).intercom == b.intercom ==> AnswerD2D(b, c) == b
  {
    var t := if b.intercom == D2P then TransferToD2DOrDriverCall else PttOrDriverCall;
    ExchangeKeepsInv(b, t);
    assert AnswerD2D(b, c) == b || AnswerD2D(b, c) == Exchange(b, t);
  }

  /** A request or an over of D2D from the network. */
  lemma NetworkKeepsInv(b: Box, c: Command)
    requires Inv(b)
    ensures Inv(NetworkD2D(b, c))
    ensures NetworkD2D(b, c).intercom == b.intercom ==> NetworkD2D(b, c).thisRequest == b.thisRequest
    ensures NetworkD2D(b, c).receptPcu == b.receptPcu && NetworkD2D(b, c).d2pButton == b.d2pButton
    ensures Connected(NetworkD2D(b, c)) <==> Connected(b)
    ensures b.intercom == HangUp ==> NetworkD2D(b, c).intercom in {HangUp, D2P}
    ensures b.intercom == D2D ==> NetworkD2D(b, c).intercom in {D2D, IdleIntercom}
  {
    if c.intercom == D2D_INTERCOMM_EVENT && c.d2dActive == 1 && c.d2dRequestOrOver == 0 && c.d2dResponse == 0 {
      var quiet := b;
      if b.ann == LiveAnn {
        ExitFromLiveKeepsInv(b);
        quiet := ExitFromLive(b);
      }
      AnswerKeepsInv(quiet, c);
    } else {
      LeaveKeepsInv(b);
      if b.intercom != D2D {
        HangUpLeavesLikeD2D(b);
      }
    }
  }

  lemma PcKeepsInv(b: Box, pressed: bool, n: int, requests: seq<int>)
    requires Inv(b)
    ensures Inv(PCHandle(b, pressed, n, requests))
  {
    var no := FirstWaiting(requests, 0);
    if 1 <= no <= 12 && b.d2pButton == 0 && b.intercom == IdleIntercom {
      ExitFromLiveKeepsInv(b);
      var quiet := if b.ann == LiveAnn then ExitFromLive(b) else b;
      EnterD2P(quiet.(receptPcu := no));
    } else if 1 <= no <= 12 && b.d2pButton == 1 {
      if b.ann == LiveAnn {
        IdleToIdle(b.(receptPcu := no, refusePcu := no));
      } else {
        LeaveForIdle(b, no);
      }
    }
  }

  lemma EnterD2P(b: Box)
    requires Inv(b) && b.ann == IdleAnn && b.intercom == IdleIntercom && 1 <= b.receptPcu <= 12
    ensures Inv(MoveIntercom(b, D2P).(d2pButton := 1))
  {
    ExitLeaves(b);
    EnterOwns(IntercomExit(b).(intercom := D2P));
  }

  lemma IdleToIdle(b: Box)
    requires Inv(b) && b.intercom == IdleIntercom
    ensures Inv(MoveIntercom(b, IdleIntercom).(d2pButton := 0))
  {
  }

  /** The exit action runs after the PCU number was overwritten; only the peer named in the over command
    * depends on it. */
  lemma LeaveForIdle(b: Box, no: int)
    requires Inv(b) && b.ann == IdleAnn && 1 <= no <= 12
    ensures Inv(MoveIntercom(b.(receptPcu := no, refusePcu := no), IdleIntercom).(d2pButton := 0))
  {
    var c := b.(receptPcu := no, refusePcu := no);
    ExitLeaves(c);
    EnterOwns(IntercomExit(c).(intercom := IdleIntercom));
  }

  lemma PaKeepsInv(b: Box, edge: int)
    requires Inv(b)
    ensures Inv(PAHandle(b, edge))
  {
    if b.intercom == IdleIntercom {
      ExitFromLiveKeepsInv(b);
    }
  }

  lemma TimeOutKeepsInv(b: Box)
    requires Inv(b)
    ensures var t := HangUpTimeOut(b);
            && Inv(t) && t.d2pButton == b.d2pButton && t.receptPcu == b.receptPcu
            && t.intercom == (if b.timedOut == 1 && b.intercom == HangUp then D2D else b.intercom)
            && (InD2D(b) ==> t.thisRequest == b.thisRequest)
  {
    if b.timedOut == 1 {
      var c := b.(timedOut := 0);
      if b.ann == LiveAnn {
        SearchFindsEdge(c.ids, c.rules, c.intercom, TimeOut);
      } else {
        ExchangeKeepsInv(c, TimeOut);
      }
    }
  }

  lemma StepKeepsInv(b: Box, e: Event)
    requires Inv(b)
    ensures Inv(Step(b, e))
  {
    match e
    case Pa(edge) => PaKeepsInv(b, edge);
    case Pc(pressed, n, requests) => PcKeepsInv(b, pressed, n, requests);
    case Request(_) =>
    case Network(c) => NetworkKeepsInv(b, c);
    case Finished(_) => LeaveKeepsInv(b);
    case TimerFires =>
    case TimeOutPoll => TimeOutKeepsInv(b);
    case Break => LeaveKeepsInv(b);
  }

  lemma {:induction false} RunKeepsInv(b: Box, events: seq<Event>)
    requires Inv(b)
    ensures Inv(Run(b, events))
    decreases |events|
  {
    if events != [] {
      StepKeepsInv(b, events[0]);
      RunKeepsInv(Step(b, events[0]), events[1..]);
    }
  }

  // ---------- The results ----------

  /** Over every run from power-up the two active states determine who owns the microphone and where audio
    * goes, and a live announcement never coexists with an active intercom. */
  lemma EveryRunKeepsOwnership(opposite: int, events: seq<Event>)
    ensures var b := Run(Initial(opposite), events);
            && Owned(b)
            && !(b.ann == LiveAnn && b.intercom != IdleIntercom)
            && (b.liveButton == 1 <==> b.ann == LiveAnn)
            && (b.d2dButton == 1 <==> InD2D(b))
  {
    InitialInv(opposite);
    RunKeepsInv(Initial(opposite), events);
  }

  lemma InitialInv(opposite: int)
    ensures Inv(Initial(opposite))
  {
    forall o: StateObject
      ensures o in DECLARED_IDS && DECLARED_IDS[o] == DeclaredId(o)
    {
      DeclaredIdHolds(o);
    }
  }

  lemma DeclaredIdHolds(o: StateObject)
    ensures o in DECLARED_IDS && DECLARED_IDS[o] == DeclaredId(o)
  {
  }

  /** No run changes the id of any state object, although two enter actions write ids through the active
    * pointer. */
  lemma EveryRunKeepsIdentities(opposite: int, events: seq<Event>)
    ensures Declared(Run(Initial(opposite), events).ids)
  {
    InitialInv(opposite);
    RunKeepsInv(Initial(opposite), events);
  }

  /** It is moving the pointer first that saves the ids: entering idle through any other object changes that
    * object's id. */
  lemma EnteringIdleThroughAnotherObjectWouldRenameIt(b: Box, o: StateObject)
    requires Declared(b.ids)
    ensures Declared(b.ids[o := INTERCOM_IDLE]) <==> o == IdleIntercom
  {
    if Declared(b.ids[o := INTERCOM_IDLE]) {
      assert b.ids[o := INTERCOM_IDLE][o] == DeclaredId(o);
    }
  }

  /** Recording commands are well bracketed over every run. */
  lemma EveryRunBracketsRecordings(opposite: int, events: seq<Event>)
    ensures var b := Run(Initial(opposite), events);
            && Bracketed(b.log, D2P_RECORDING, b.intercom == D2P)
            && Bracketed(b.log, D2D_RECORDING, InD2D(b) && b.thisRequest == 1)
  {
    InitialInv(opposite);
    RunKeepsInv(Initial(opposite), events);
  }

  /** What bracketing says about single commands: between two begins of a kind lies an over, between two
    * overs a begin, and the first command of a kind is a begin. */
  lemma {:induction false} BracketedAlternates(log: seq<Recording>, kind: int, open: bool, i: int, j: nat)
    requires Bracketed(log, kind, open)
    requires -1 <= i < j < |log| && log[j].kind == kind
    requires i >= 0 ==> log[i].kind == kind
    requires forall k :: i < k < j ==> log[k].kind != kind
    ensures log[j].begin == (if i >= 0 then !log[i].begin else true)
    decreases |log|
  {
    var last := |log| - 1;
    var front := log[..last];
    if log[last].kind != kind {
      BracketedAlternates(front, kind, open, i, j);
    } else if j < last {
      BracketedAlternates(front, kind, !open, i, j);
    } else {
      LastOfKind(front, kind, !open, i);
    }
  }

  lemma {:induction false} LastOfKind(log: seq<Recording>, kind: int, open: bool, i: int)
    requires Bracketed(log, kind, open) && -1 <= i < |log|
    requires i >= 0 ==> log[i].kind == kind
    requires forall k :: i < k < |log| ==> log[k].kind != kind
    ensures open == (if i >= 0 then log[i].begin else false)
    decreases |log|
  {
    if log != [] && log[|log| - 1].kind != kind {
      LastOfKind(log[..|log| - 1], kind, open, i);
    }
  }

  lemma PcLeavesD2D(b: Box, pressed: bool, n: int, requests: seq<int>)
    requires Inv(b) && b.intercom != IdleIntercom
    ensures PCHandle(b, pressed, n, requests) == b
         || PCHandle(b, pressed, n, requests).intercom == IdleIntercom
  {
  }

  /** The initiator flag does not change while the box stays in D2D or hang-up. */
  lemma RequestFlagIsFrozen(b: Box, e: Event)
    requires Inv(b) && InD2D(b) && InD2D(Step(b, e))
    ensures Step(b, e).thisRequest == b.thisRequest
  {
    match e
    case Pc(pressed, n, requests) => PcLeavesD2D(b, pressed, n, requests);
    case Network(c) => NetworkKeepsInv(b, c);
    case Finished(_) => LeaveKeepsInv(b);
    case TimeOutPoll => TimeOutKeepsInv(b);
    case Break => LeaveKeepsInv(b);
    case _ =>
  }

  /** Being driven out of D2P into hang-up and back into D2P, by whatever events, resumes with the same
    * PCU. */
  lemma HangUpStepKeepsPcu(b: Box, e: Event)
    requires Inv(b) && (b.intercom == D2P || b.intercom == HangUp)
    requires Step(b, e).intercom == D2P || Step(b, e).intercom == HangUp
    ensures Step(b, e).receptPcu == b.receptPcu
  {
    match e
    case Pc(pressed, n, requests) => PcLeavesD2D(b, pressed, n, requests);
    case Network(c) => NetworkKeepsInv(b, c);
    case Finished(_) => LeaveKeepsInv(b);
    case TimeOutPoll => TimeOutKeepsInv(b);
    case Break => LeaveKeepsInv(b);
    case _ =>
  }

  ghost predicate StaysConnected(b: Box, events: seq<Event>)
    decreases |events|
  {
    && (b.intercom == D2P || b.intercom == HangUp)
    && (events == [] || StaysConnected(Step(b, events[0]), events[1..]))
  }

  lemma {:induction false} HangUpRoundTrip(b: Box, events: seq<Event>)
    requires Inv(b) && StaysConnected(b, events)
    ensures var t := Run(b, events);
            && t.receptPcu == b.receptPcu
            && (t.intercom == D2P ==> t.dest == ToPcu(b.receptPcu))
            && (t.intercom == HangUp ==> t.hangUpPcu == b.receptPcu)
    decreases |events|
  {
    if events != [] {
      HangUpStepKeepsPcu(b, events[0]);
      StepKeepsInv(b, events[0]);
      HangUpRoundTrip(Step(b, events[0]), events[1..]);
    }
  }

  /** Ending D2P by its button first stores the number of the PCU that now waits longest, so the over command
    * names the PCU of the begin command if and only if that is still the connected one. */
  lemma OverNamesConnectedPcuIffStillFirst(b: Box, n: int, requests: seq<int>)
    requires Inv(b) && b.intercom == D2P && n != 0 && 1 <= FirstWaiting(requests, 0) <= 12
    ensures var t := PCHandle(b, true, n, requests);
            && t.intercom == IdleIntercom && |t.log| == |b.log| + 1
            && (t.log[|b.log|] == Recording(D2P_RECORDING, b.receptPcu, false)
                <==> FirstWaiting(requests, 0) == b.receptPcu)
  {
  }

  // ---------- What the button flag of D2P tells ----------

  /** A press that PCHandle acts upon. */
  predicate EffectivePress(e: Event) {
    e.Pc? && e.pressed && e.requestNumber != 0 && 1 <= FirstWaiting(e.requests, 0) <= 12
  }

  /** Hang-up is left by its time-out. */
  predicate TimesOut(b: Box, e: Event) {
    e.TimeOutPoll? && b.timedOut == 1 && b.intercom == HangUp
  }

  /** Whether hang-up timed out in a run and no effective press came since. */
  predicate TimedOutSincePress(b: Box, before: bool, events: seq<Event>)
    decreases |events|
  {
    if events == [] then before
    else
      var now := TimesOut(b, events[0]) || (before && !EffectivePress(events[0]));
      TimedOutSincePress(Step(b, events[0]), now, events[1..])
  }

  predicate FlagInv(b: Box, stale: bool) {
    b.d2pButton == (if Connected(b) || stale then 1 else 0) && !(Connected(b) && stale)
  }

  lemma PressFlag(b: Box, e: Event)
    requires Inv(b) && e.Pc?
    ensures var t := Step(b, e);
            && (!EffectivePress(e) ==> t == b)
            && (EffectivePress(e) && b.d2pButton == 1 ==> t.d2pButton == 0 && t.intercom == IdleIntercom)
            && (EffectivePress(e) && b.d2pButton == 0 && b.intercom == IdleIntercom ==>
                  t.d2pButton == 1 && t.intercom == D2P)
            && (EffectivePress(e) && b.d2pButton == 0 && b.intercom != IdleIntercom ==> t == b)
  {
  }

  /** Nothing but an effective press touches the flag, and nothing but that and the time-out changes whether a PCU is
    * connected. */
  lemma OthersKeepFlag(b: Box, e: Event)
    requires Inv(b) && !e.Pc?
    ensures Step(b, e).d2pButton == b.d2pButton
    ensures Connected(Step(b, e)) <==> Connected(b) && !TimesOut(b, e)
  {
    match e
    case Pa(edge) => PaKeepsInv(b, edge);
    case Network(c) => NetworkKeepsInv(b, c);
    case Finished(_) => LeaveKeepsInv(b);
    case TimeOutPoll => TimeOutKeepsInv(b);
    case Break => LeaveKeepsInv(b);
    case _ =>
  }

  lemma StepKeepsFlag(b: Box, stale: bool, e: Event)
    requires Inv(b) && FlagInv(b, stale)
    ensures FlagInv(Step(b, e), TimesOut(b, e) || (stale && !EffectivePress(e)))
  {
    if e.Pc? {
      PressFlag(b, e);
    } else {
      OthersKeepFlag(b, e);
    }
  }

  lemma {:induction false} RunKeepsFlag(b: Box, stale: bool, events: seq<Event>)
    requires Inv(b) && FlagInv(b, stale)
    ensures FlagInv(Run(b, events), TimedOutSincePress(b, stale, events))
    decreases |events|
  {
    if events != [] {
      StepKeepsInv(b, events[0]);
      StepKeepsFlag(b, stale, events[0]);
      RunKeepsFlag(Step(b, events[0]), TimesOut(b, events[0]) || (stale && !EffectivePress(events[0])), events[1..]);
    }
  }

  /** Over every run from power-up the flag of the D2P button tells whether a PCU is connected if and only if hang-up
    * has not timed out since the last effective press.  After a time-out it stays 1 while nobody is connected, and
    * the next effective press resets it: from idle it connects nobody, and in D2D it ends that call. */
  lemma FlagAgreesIffNoTimeOutSince(opposite: int, events: seq<Event>, press: Event)
    ensures var b := Run(Initial(opposite), events);
            var stale := TimedOutSincePress(Initial(opposite), false, events);
            && ((b.d2pButton == 1 <==> Connected(b)) <==> !stale)
            && (stale ==> b.d2pButton == 1 && !Connected(b))
            && (EffectivePress(press) && stale ==>
                  Step(b, press).intercom == IdleIntercom && Step(b, press).d2pButton == 0)
            && (EffectivePress(press) && b.intercom == IdleIntercom ==>
                  (Connected(Step(b, press)) <==> !stale))
  {
    var b := Run(Initial(opposite), events);
    InitialInv(opposite);
    RunKeepsInv(Initial(opposite), events);
    RunKeepsFlag(Initial(opposite), false, events);
    if press.Pc? {
      PressFlag(b, press);
    }
  }

  // ---------- What each event does ----------

  /** The commands handed out when an intercom state is left, and when one is entered. */
  function OverCommands(b: Box): seq<Recording> {
    if b.intercom == D2P then [Recording(D2P_RECORDING, b.receptPcu, false)]
    else if InD2D(b) && b.thisRequest == 1 then [Recording(D2D_RECORDING, b.opposite, false)]
    else []
  }

  function BeginCommands(b: Box): seq<Recording> {
    if b.intercom == D2P then [Recording(D2P_RECORDING, b.receptPcu, true)]
    else if InD2D(b) && b.thisRequest == 1 then [Recording(D2D_RECORDING, b.opposite, true)]
    else []
  }

  /** What comes of a box that went from one intercom state to another: the announcement is idle, the PCU the same, the
    * commands of both states are handed out, and the request is forgotten when D2D ends. */
  predicate Went(b: Box, t: Box, dst: StateObject) {
    && t.ann == IdleAnn && t.intercom == dst && t.receptPcu == b.receptPcu && t.d2pButton == b.d2pButton
    && t.opposite == b.opposite && t.thisRequest == (if b.intercom == D2D then 0 else b.thisRequest)
    && t.log == b.log + OverCommands(b) + BeginCommands(t)
  }

  lemma ExitGoes(b: Box)
    requires Inv(b) && b.ann == IdleAnn
    ensures var e := IntercomExit(b);
            && e.ann == IdleAnn && e.receptPcu == b.receptPcu && e.d2pButton == b.d2pButton
            && e.opposite == b.opposite && e.thisRequest == (if b.intercom == D2D then 0 else b.thisRequest)
            && e.log == b.log + OverCommands(b)
  {
  }

  lemma EnterGoes(b: Box)
    requires IsIntercom(b.intercom)
    ensures var e := IntercomEnter(b);
            && e.ann == b.ann && e.intercom == b.intercom && e.receptPcu == b.receptPcu
            && e.d2pButton == b.d2pButton && e.opposite == b.opposite && e.thisRequest == b.thisRequest
            && e.log == b.log + BeginCommands(b)
  {
  }

  lemma MoveGoes(b: Box, dst: StateObject)
    requires Inv(b) && b.ann == IdleAnn && IsIntercom(dst)
    ensures Went(b, MoveIntercom(b, dst), dst)
  {
    ExitGoes(b);
    EnterGoes(IntercomExit(b).(intercom := dst));
  }

  lemma ExchangeGoes(b: Box, t: Trigger)
    requires Inv(b) && b.ann == IdleAnn
    ensures if Edge(b.intercom, t).Rule? then Went(b, Exchange(b, t), Edge(b.intercom, t).dst)
            else Exchange(b, t) == b
  {
    SearchFindsEdge(b.ids, b.rules, b.intercom, t);
    if Edge(b.intercom, t).Rule? {
      MoveGoes(b, Edge(b.intercom, t).dst);
    }
  }

  /** The PA button: with the intercom idle a press leads to a live announcement and a release to none; every other edge,
    * and every edge outside idle, changes nothing. */
  lemma PaButtonDoes(b: Box, edge: int)
    requires Inv(b)
    ensures var t := Step(b, Pa(edge));
            && (b.intercom == IdleIntercom && edge == 1 ==> t.ann == LiveAnn && t.intercom == IdleIntercom)
            && (b.intercom == IdleIntercom && edge == 0 ==> t.ann == IdleAnn && t.intercom == IdleIntercom)
            && (b.intercom != IdleIntercom || (edge != 0 && edge != 1) ==> t == b)
            && ((edge == 1 && b.ann == LiveAnn) || (edge == 0 && b.ann == IdleAnn) ==> t == b)
            && t.log == b.log && t.thisRequest == b.thisRequest
  {
  }

  /** The D2D button: a press marks this box as the one that asks, if and only if nothing is going on. */
  lemma RequestButtonDoes(b: Box, pressed: bool)
    requires Inv(b)
    ensures Step(b, Request(pressed)) ==
            if pressed && b.ann == IdleAnn && b.intercom == IdleIntercom then b.(thisRequest := 1) else b
  {
  }

  /** A D2D request from the network that carries no announcement. */
  predicate RequestsD2D(c: Command) {
    && c.ann == ANN_IDLE && c.intercom == D2D_INTERCOMM_EVENT
    && c.d2dActive == 1 && c.d2dRequestOrOver == 0 && c.d2dResponse == 0
  }

  /** The end of D2D from the network. */
  predicate EndsD2D(c: Command) {
    c.intercom == D2D_INTERCOMM_EVENT && c.d2dActive == 0
  }

  /** Neither a request nor an end of D2D. */
  predicate IsAnotherCommand(c: Command) {
    || c.intercom != D2D_INTERCOMM_EVENT
    || (c.d2dActive != 0 && c.d2dActive != 1)
    || (c.d2dActive == 1 && (c.d2dRequestOrOver != 0 || c.d2dResponse != 0))
  }

  lemma QuietForD2D(b: Box)
    requires Inv(b)
    ensures var q := if b.ann == LiveAnn then ExitFromLive(b) else b;
            && Inv(q) && q.ann == IdleAnn && q.intercom == b.intercom && q.receptPcu == b.receptPcu
            && q.d2pButton == b.d2pButton && q.opposite == b.opposite && q.thisRequest == b.thisRequest
            && q.log == b.log && OverCommands(q) == OverCommands(b)
  {
  }

  lemma AnswerGoes(b: Box, c: Command)
    requires Inv(b) && b.ann == IdleAnn && RequestsD2D(c)
    ensures var t := AnswerD2D(b, c);
            && (b.intercom == IdleIntercom ==> Went(b, t, D2D))
            && (b.intercom == D2P ==> Went(b, t, HangUp))
            && (b.intercom == D2D || b.intercom == HangUp ==> t == b)
  {
    ExchangeGoes(b, if b.intercom == D2P then TransferToD2DOrDriverCall else PttOrDriverCall);
  }

  /** A request leads from idle, with or without a live announcement, to D2D; from D2P to hang-up with the same PCU; and
    * leaves D2D and hang-up alone. */
  lemma NetworkRequestDoes(b: Box, c: Command)
    requires Inv(b) && RequestsD2D(c)
    ensures var t := Step(b, Network(c));
            && (b.intercom == IdleIntercom ==> Went(b, t, D2D))
            && (b.intercom == D2P ==> Went(b, t, HangUp) && t.hangUpPcu == b.receptPcu)
            && (b.intercom == D2D || b.intercom == HangUp ==> t == b)
  {
    QuietForD2D(b);
    NetworkKeepsInv(b, c);
    var q := if b.ann == LiveAnn then ExitFromLive(b) else b;
    AnswerGoes(q, c);
    assert Step(b, Network(c)) == AnswerD2D(q, c);
  }

  lemma LeaveGoes(b: Box)
    requires Inv(b)
    ensures var t := LeaveD2D(b);
            && (b.intercom == D2D ==> Went(b, t, IdleIntercom))
            && (b.intercom == HangUp ==> Went(b, t, D2P))
            && (!InD2D(b) ==> t == b)
  {
    if b.intercom == HangUp {
      ExchangeGoes(b, ConfirmTransferToD2P);
    } else if b.intercom == D2D {
      ExchangeGoes(b, PttReleaseAndDriverRelease);
    }
  }

  /** An over leads from D2D to idle and from hang-up back to D2P with the same PCU, and changes nothing else; a command
    * that neither ends nor requests D2D changes nothing. */
  lemma NetworkOverDoes(b: Box, c: Command)
    requires Inv(b)
    ensures var t := Step(b, Network(c));
            && (EndsD2D(c) && b.intercom == D2D ==> Went(b, t, IdleIntercom))
            && (EndsD2D(c) && b.intercom == HangUp ==> Went(b, t, D2P))
            && (EndsD2D(c) && !InD2D(b) ==> t == b)
            && (IsAnotherCommand(c) ==> t == b)
  {
    LeaveGoes(b);
    if b.intercom != D2D {
      HangUpLeavesLikeD2D(b);
    }
  }

  /** The local button, the break and the timer. */
  lemma LocalEventsDo(b: Box, e: Event)
    requires Inv(b)
    ensures var t := Step(b, e);
            && ((e.Finished? && e.pressed) || e.Break? ==>
                  && (b.intercom == D2D ==> Went(b, t, IdleIntercom))
                  && (b.intercom == HangUp ==> Went(b, t, D2P))
                  && (!InD2D(b) ==> t == b))
            && (e.Finished? && !e.pressed ==> t == b)
            && (e.TimerFires? ==> t == b.(timedOut := 1))
            && (e.TimeOutPoll? && b.timedOut == 1 ==>
                  if b.intercom == HangUp then Went(b, t, D2D) && t.timedOut == 0 else t == b.(timedOut := 0))
            && (e.TimeOutPoll? && b.timedOut != 1 ==> t == b)
  {
    LeaveGoes(b);
    if e.TimeOutPoll? && b.timedOut == 1 {
      TimeOutGoes(b);
    }
  }

  lemma TimeOutGoes(b: Box)
    requires Inv(b) && b.timedOut == 1
    ensures var t := HangUpTimeOut(b);
            if b.intercom == HangUp then Went(b, t, D2D) && t.timedOut == 0 else t == b.(timedOut := 0)
  {
    var c := b.(timedOut := 0);
    SearchFindsEdge(c.ids, c.rules, c.intercom, TimeOut);
    if b.intercom == HangUp {
      ExchangeGoes(c, TimeOut);
    }
  }

  lemma ConnectGoes(b: Box, no: int)
    requires Inv(b) && b.intercom == IdleIntercom
    ensures var q := if b.ann == LiveAnn then ExitFromLive(b) else b;
            var t := MoveIntercom(q.(receptPcu := no), D2P).(d2pButton := 1);
            && t.ann == IdleAnn && t.intercom == D2P && t.receptPcu == no && t.dest == ToPcu(no)
            && t.log == b.log + [Recording(D2P_RECORDING, no, true)]
  {
    ExitFromLiveKeepsInv(b);
  }

  lemma DisconnectGoes(b: Box, no: int)
    requires Inv(b)
    ensures var c := b.(receptPcu := no, refusePcu := no);
            var t := MoveIntercom(c, IdleIntercom).(d2pButton := 0);
            && t.ann == b.ann && t.intercom == IdleIntercom && t.receptPcu == no && t.refusePcu == no
            && t.log == b.log + OverCommands(b.(receptPcu := no))
  {
  }

  /** The D2P button: with its flag off and the intercom idle an effective press ends a live announcement and connects the
    * first waiting PCU; with the flag on it leads to idle. */
  lemma PcuButtonDoes(b: Box, e: Event)
    requires Inv(b) && EffectivePress(e)
    ensures var t := Step(b, e);
            var no := FirstWaiting(e.requests, 0);
            && (b.d2pButton == 0 && b.intercom == IdleIntercom ==>
                  && t.ann == IdleAnn && t.intercom == D2P && t.receptPcu == no && t.d2pButton == 1
                  && t.dest == ToPcu(no) && t.log == b.log + [Recording(D2P_RECORDING, no, true)])
            && (b.d2pButton == 0 && b.intercom != IdleIntercom ==> t == b)
            && (b.d2pButton == 1 ==>
                  && t.ann == b.ann && t.intercom == IdleIntercom && t.receptPcu == no && t.refusePcu == no
                  && t.d2pButton == 0 && t.log == b.log + OverCommands(b.(receptPcu := no)))
  {
    var no := FirstWaiting(e.requests, 0);
    if b.d2pButton == 0 && b.intercom == IdleIntercom {
      ConnectGoes(b, no);
    } else if b.d2pButton == 1 {
      DisconnectGoes(b, no);
    }
  }

  /** The first waiting PCU is the first entry that is 1. */
  lemma {:induction false} FirstWaitingIs(requests: seq<int>, from: nat)
    requires from <= |requests|
    ensures var no := FirstWaiting(requests, from);
            if no == 0 then forall k :: from <= k < |requests| ==> requests[k] != 1
            else from < no && requests[no - 1] == 1 && forall k :: from <= k < no - 1 ==> requests[k] != 1
    decreases |requests| - from
  {
    if from < |requests| {
      FirstWaitingIs(requests, from + 1);
    }
  }

  /** A call that this box asked for is recorded from its begin to its end; one that it did not ask for is not. */
  lemma CallIsRecordedIffRequested(b: Box, pressed: bool, request: Command, over: Command)
    requires Inv(b) && b.ann == IdleAnn && b.intercom == IdleIntercom && b.thisRequest == 0
    requires RequestsD2D(request) && EndsD2D(over)
    ensures var t := Step(Step(Step(b, Request(pressed)), Network(request)), Network(over));
            && t.intercom == IdleIntercom && t.thisRequest == 0
            && t.log == b.log + if pressed then [Recording(D2D_RECORDING, b.opposite, true),
                                                 Recording(D2D_RECORDING, b.opposite, false)] else []
  {
    var s1 := Step(b, Request(pressed));
    var s2 := Step(s1, Network(request));
    RequestButtonDoes(b, pressed);
    StepKeepsInv(b, Request(pressed));
    NetworkRequestDoes(s1, request);
    StepKeepsInv(s1, Network(request));
    NetworkOverDoes(s2, over);
  }
}
