/** The control unit that carries the ownership state machine: its fields are assigned one by one, and every
  * method is tied to the function of the same name in module Intercom. */
module ControlUnit {
  import opened Events
  import opened Intercom

  // ---------- Building the rule table ----------

  /** A rule goes into the first empty record; a full table ignores it. */
  function Added(rules: seq<Rule>, r: Rule): seq<Rule> {
    if rules == [] then []
    else if rules[0].Empty? then [r] + rules[1..]
    else [rules[0]] + Added(rules[1..], r)
  }

  /** The table after the first `k` additions. */
  function Filled(k: nat): seq<Rule>
    requires k <= |RULES|
  {
    RULES[..k] + seq(RECORD_OF_RULES - k, _ => Empty)
  }

  lemma {:induction false} AddedAt(rules: seq<Rule>, r: Rule, k: nat)
    requires k < |rules| && rules[k].Empty?
    requires forall i :: 0 <= i < k ==> !rules[i].Empty?
    ensures Added(rules, r) == rules[k := r]
  {
    if k > 0 {
      AddedAt(rules[1..], r, k - 1);
    }
  }

  lemma {:induction false} FullTableIgnores(rules: seq<Rule>, r: Rule)
    requires forall i :: 0 <= i < |rules| ==> !rules[i].Empty?
    ensures Added(rules, r) == rules
  {
    if rules != [] {
      FullTableIgnores(rules[1..], r);
    }
  }

  lemma AddingFills(k: nat)
    requires k < |RULES|
    ensures Added(Filled(k), RULES[k]) == Filled(k + 1)
  {
    AddedAt(Filled(k), RULES[k], k);
    assert Filled(k)[k := RULES[k]] == Filled(k + 1);
  }

  /** The table of waiting PCUs has an entry for each of the twelve. */
  predicate TwelveEntries(e: Event) {
    e.Pc? ==> |e.requests| == 12
  }

  class ControlUnit {
    var ann: StateObject
    var intercom: StateObject
    var ids: Ids
    const rules: array<Rule>
    var mic: Mic
    var dest: Destination
    var liveButton: int
    var d2dButton: int
    var d2pButton: int
    var thisRequest: int
    var receptPcu: int
    var refusePcu: int
    var hangUpPcu: int
    var timedOut: int
    const opposite: int
    var log: seq<Recording>

    ghost predicate Valid()
      reads this
    {
      rules.Length == RECORD_OF_RULES
    }

    ghost function View(): Box
      reads this, rules
    {
      Box(ann, intercom, ids, rules[..], mic, dest, liveButton, d2dButton, d2pButton, thisRequest,
          receptPcu, refusePcu, hangUpPcu, timedOut, opposite, log)
    }

    /** The state_id field of an object. */
    function Id(o: StateObject): int
      reads this
    {
      if o in ids then ids[o] else 0
    }

    /** BCUStateInit and BCURuleTableInit. */
    constructor (oppositeNo: int)
      ensures Valid() && fresh(rules) && View() == Initial(oppositeNo)
    {
      rules := new Rule[RECORD_OF_RULES];
      ann, intercom, ids, mic, dest := IdleAnn, IdleIntercom, DECLARED_IDS, Unowned, NOWHERE;
      liveButton, d2dButton, d2pButton, thisRequest := 0, 0, 0, 0;
      receptPcu, refusePcu, hangUpPcu, timedOut, opposite, log := 0, 0, 0, 0, oppositeNo, [];
      new;
      RuleTableInit();
    }

    /** BCURuleInit. */
    method RuleInit()
      requires rules.Length == RECORD_OF_RULES
      modifies rules
      ensures rules[..] == Filled(0)
    {
      var i := 0;
      while i < RECORD_OF_RULES
        invariant 0 <= i <= RECORD_OF_RULES
        invariant forall j :: 0 <= j < i ==> rules[j] == Empty
      {
        rules[i] := Empty;
        i := i + 1;
      }
    }

    /** BCUAddRule. */
    method AddRule(r: Rule)
      requires r.Rule?
      modifies rules
      ensures rules[..] == Added(old(rules[..]), r)
    {
      var i := 0;
      while i < rules.Length
        invariant 0 <= i <= rules.Length
        invariant rules[..] == old(rules[..])
        invariant forall j :: 0 <= j < i ==> !rules[j].Empty?
      {
        if rules[i].Empty? {
          AddedAt(rules[..], r, i);
          rules[i] := r;
          return;
        }
        i := i + 1;
      }
      FullTableIgnores(rules[..], r);
    }

    method AddNext(ghost k: nat, r: Rule)
      requires k < |RULES| && r == RULES[k] && r.Rule? && rules[..] == Filled(k)
      modifies rules
      ensures rules[..] == Filled(k + 1)
    {
      AddingFills(k);
      AddRule(r);
    }

    /** BCURuleTableInit. */
    method RuleTableInit()
      requires rules.Length == RECORD_OF_RULES
      modifies rules
      ensures rules[..] == RuleTable()
    {
      RuleInit();
      AddNext(0, Rule(IdleIntercom, D2D, PttOrDriverCall));
      AddNext(1, Rule(IdleIntercom, D2P, ConfirmPcuCall));
      AddNext(2, Rule(D2D, IdleIntercom, PttReleaseAndDriverRelease));
      AddNext(3, Rule(D2P, IdleIntercom, ConfirmReleasePcu));
      AddNext(4, Rule(D2P, HangUp, TransferToD2DOrDriverCall));
      AddNext(5, Rule(HangUp, D2D, TimeOut));
      AddNext(6, Rule(HangUp, D2P, ConfirmTransferToD2P));
    }

    // ---------- Enter and exit actions ----------

    method SendRecording(kind: int, peer: int, begin: bool)
      modifies this`log
      ensures View() == Record(old(View()), kind, peer, begin)
    {
      log := log + [Recording(kind, peer, begin)];
    }

    method EnterAnn()
      requires Valid() && (ann.IdleAnn? || ann.LiveAnn?)
      modifies this
      ensures Valid()
      ensures View() == if ann.IdleAnn? then IdleAnnEnter(old(View())) else LiveAnnEnter(old(View()))
    {
      if ann.IdleAnn? {
        ids := ids[ann := ANN_IDLE];
      } else {
        liveButton := 1;
        dest := TO_EAMP;
        mic := ForAnnounce;
      }
    }

    method ExitAnn()
      requires Valid()
      modifies this
      ensures Valid() && View() == AnnExit(old(View()))
    {
      if ann.LiveAnn? {
        liveButton := 0;
        dest := NOWHERE;
        mic := Unowned;
      }
    }

    /** The end of the exit actions of D2D and D2P. */
    method HandMicrophoneBack()
      requires Valid()
      modifies this`mic, this`dest
      ensures View() == HandBack(old(View()))
    {
      if Id(ann) in {LIVE_ANN_EVENT, OCC_EVENT, MIC_3D5_OUTER_EVENT} {
        mic := ForAnnounce;
        dest := TO_EAMP;
      } else {
        mic := Unowned;
        dest := NOWHERE;
      }
    }

    method IdleIntercomEnter()
      requires Valid() && intercom.IdleIntercom?
      modifies this`ids
      ensures Valid() && View() == IntercomEnter(old(View()))
    {
      ids := ids[intercom := INTERCOM_IDLE];
    }

    method D2DEnter()
      requires Valid() && intercom.D2D?
      modifies this`log, this`d2dButton, this`mic, this`dest
      ensures View() == IntercomEnter(old(View()))
    {
      if thisRequest == 1 {
        SendRecording(D2D_RECORDING, opposite, true);
      }
      d2dButton := 1;
      mic := ForIntercom;
      dest := TO_CC;
    }

    method D2DExit()
      requires Valid() && intercom.D2D?
      modifies this`log, this`mic, this`dest, this`d2dButton, this`thisRequest
      ensures View() == IntercomExit(old(View()))
    {
      if thisRequest == 1 {
        SendRecording(D2D_RECORDING, opposite, false);
      }
      HandMicrophoneBack();
      d2dButton := 0;
      thisRequest := 0;
    }

    method D2PEnter()
      requires Valid() && intercom.D2P?
      modifies this`log, this`mic, this`dest
      ensures View() == IntercomEnter(old(View()))
    {
      SendRecording(D2P_RECORDING, receptPcu, true);
      mic := ForIntercom;
      dest := ToPcu(receptPcu);
    }

    method D2PExit()
      requires Valid() && intercom.D2P?
      modifies this`log, this`mic, this`dest
      ensures View() == IntercomExit(old(View()))
    {
      SendRecording(D2P_RECORDING, receptPcu, false);
      HandMicrophoneBack();
    }

    method HangUpEnter()
      requires Valid() && intercom.HangUp?
      modifies this`log, this`hangUpPcu, this`d2dButton, this`mic, this`dest
      ensures View() == IntercomEnter(old(View()))
    {
      if receptPcu != 0 {
        hangUpPcu := receptPcu;
      }
      if thisRequest == 1 {
        SendRecording(D2D_RECORDING, opposite, true);
      }
      d2dButton := 1;
      mic := ForIntercom;
      dest := TO_CC;
    }

    method HangUpExit()
      requires Valid() && intercom.HangUp?
      modifies this`log, this`d2dButton, this`mic, this`dest
      ensures View() == IntercomExit(old(View()))
    {
      if thisRequest == 1 {
        SendRecording(D2D_RECORDING, opposite, false);
      }
      d2dButton := 0;
      mic := Unowned;
      dest := NOWHERE;
    }

    /** The call through the enter pointer of the active object. */
    method EnterIntercom()
      requires Valid()
      modifies this
      ensures Valid() && View() == IntercomEnter(old(View()))
    {
      match intercom
      case IdleIntercom => IdleIntercomEnter();
      case D2D => D2DEnter();
      case D2P => D2PEnter();
      case HangUp => HangUpEnter();
      case _ =>
    }

    /** The call through the exit pointer of the active object. */
    method ExitIntercom()
      requires Valid()
      modifies this
      ensures Valid() && View() == IntercomExit(old(View()))
    {
      match intercom
      case D2D => D2DExit();
      case D2P => D2PExit();
      case HangUp => HangUpExit();
      case _ =>
    }

    method MoveTo(dst: StateObject)
      requires Valid()
      modifies this
      ensures Valid() && View() == MoveIntercom(old(View()), dst)
    {
      ExitIntercom();
      intercom := dst;
      EnterIntercom();
    }

    /** StateMachineExchange. */
    method StateMachineExchange(t: Trigger)
      requires Valid()
      modifies this
      ensures Valid() && View() == Exchange(old(View()), t)
    {
      var i := 0;
      while i < RECORD_OF_RULES
        invariant 0 <= i <= RECORD_OF_RULES
        invariant View() == old(View())
        invariant forall j :: 0 <= j < i ==> !Fires(ids, rules[j], Id(intercom), t)
      {
        if Fires(ids, rules[i], Id(intercom), t) {
          TargetFrom(ids, rules[..], Id(intercom), t, i);
          MoveTo(rules[i].dst);
          return;
        }
        i := i + 1;
      }
      TargetFrom(ids, rules[..], Id(intercom), t, RECORD_OF_RULES);
    }

    // ---------- Handlers ----------

    method ExitFromLiveWithoutTS()
      requires Valid()
      modifies this
      ensures Valid() && View() == ExitFromLive(old(View()))
    {
      ExitAnn();
      ann := IdleAnn;
      EnterAnn();
    }

    method ExchangeToLiveWithoutTS()
      requires Valid()
      modifies this
      ensures Valid() && View() == ExchangeToLive(old(View()))
    {
      ExitAnn();
      ann := LiveAnn;
      EnterAnn();
    }

    method HandlePA(edge: int)
      requires Valid()
      modifies this
      ensures Valid() && View() == PAHandle(old(View()), edge)
    {
      if Id(intercom) != INTERCOM_IDLE {
        return;
      }
      if edge == 1 {
        if liveButton == 0 {
          ExchangeToLiveWithoutTS();
        }
      }
      if edge == 0 {
        if liveButton == 1 {
          ExitFromLiveWithoutTS();
        }
      }
    }

    method HandlePC(pressed: bool, requestNumber: int, requests: seq<int>)
      requires Valid() && |requests| == 12
      modifies this
      ensures Valid() && View() == PCHandle(old(View()), pressed, requestNumber, requests)
    {
      if requestNumber == 0 {
        return;
      }
      var no := FirstWaitingPcu(requests);
      if no <= 0 || no > 12 {
        return;
      }
      if pressed {
        if d2pButton == 0 {
          if Id(ann) == LIVE_ANN_EVENT && Id(intercom) == INTERCOM_IDLE {
            ExitFromLiveWithoutTS();
          } else if Id(ann) == ANN_IDLE && Id(intercom) == INTERCOM_IDLE {
          } else {
            return;
          }
          receptPcu := no;
          MoveTo(D2P);
          d2pButton := 1;
        } else if d2pButton == 1 {
          receptPcu := no;
          refusePcu := no;
          MoveTo(IdleIntercom);
          d2pButton := 0;
        }
      }
    }

    static method FirstWaitingPcu(requests: seq<int>) returns (no: int)
      requires |requests| == 12
      ensures no == FirstWaiting(requests, 0)
    {
      no := 0;
      var i := 0;
      while i < 12
        invariant 0 <= i <= 12 && no == 0
        invariant FirstWaiting(requests, i) == FirstWaiting(requests, 0)
      {
        if requests[i] == 1 {
          return i + 1;
        }
        i := i + 1;
      }
    }

    method JudgeWhetherRequestD2D(pressed: bool)
      requires Valid()
      modifies this`thisRequest
      ensures Valid() && View() == RequestD2D(old(View()), pressed)
    {
      if Id(intercom) == INTERCOM_IDLE && pressed && mic == Unowned && d2dButton == 0 {
        thisRequest := 1;
      }
    }

    /** ForceBreakD2DToD2P. */
    method ForceBreakD2DToD2P()
      requires Valid()
      modifies this
      ensures Valid() && View() == LeaveD2D(old(View()))
    {
      if Id(intercom) == D2D_HANGUP_D2P_EVENT {
        StateMachineExchange(ConfirmTransferToD2P);
      } else if Id(intercom) == D2D_INTERCOMM_EVENT {
        StateMachineExchange(PttReleaseAndDriverRelease);
      }
    }

    method FinishD2DFromNetwork()
      requires Valid()
      modifies this
      ensures Valid() && View() == NetFinishD2D(old(View()))
    {
      if Id(intercom) == D2D_INTERCOMM_EVENT || Id(intercom) == D2D_HANGUP_D2P_EVENT {
        if d2dButton != 1 {
          return;
        }
        ForceBreakD2DToD2P();
      }
    }

    /** JudgeWhetherHaveD2DRequest, with judgeWheteherExitD2DEnterD2P. */
    method JudgeWhetherHaveD2DRequest(c: Command)
      requires Valid()
      modifies this
      ensures Valid() && View() == NetworkD2D(old(View()), c)
    {
      if c.intercom == D2D_INTERCOMM_EVENT && c.d2dActive == 1 && c.d2dRequestOrOver == 0 && c.d2dResponse == 0 {
        if Id(ann) == LIVE_ANN_EVENT && Id(intercom) != D2P_INTERCOMM_EVENT {
          ExitFromLiveWithoutTS();
        }
        AnswerRequest(c);
      } else if c.intercom == D2D_INTERCOMM_EVENT && c.d2dActive == 0 {
        if Id(intercom) == D2D_INTERCOMM_EVENT {
          FinishD2DFromNetwork();
        } else if Id(intercom) == D2D_HANGUP_D2P_EVENT {
          StateMachineExchange(ConfirmTransferToD2P);
        }
      }
    }

    method AnswerRequest(c: Command)
      requires Valid()
      modifies this
      ensures Valid() && View() == AnswerD2D(old(View()), c)
    {
      if WantsExchange(Id(ann), Id(intercom), c) {
        if Id(intercom) == D2P_INTERCOMM_EVENT {
          StateMachineExchange(TransferToD2DOrDriverCall);
        } else {
          StateMachineExchange(PttOrDriverCall);
        }
      }
    }

    method JudgeWhetherD2DHaveFinished(pressed: bool)
      requires Valid()
      modifies this
      ensures Valid() && View() == D2DFinished(old(View()), pressed)
    {
      if Id(intercom) == D2D_INTERCOMM_EVENT || Id(intercom) == D2D_HANGUP_D2P_EVENT {
        if pressed && d2dButton == 1 {
          ForceBreakD2DToD2P();
        }
      }
    }

    method D2DHangUpD2PTimeOutHandle()
      requires Valid()
      modifies this
      ensures Valid() && View() == HangUpTimeOut(old(View()))
    {
      if timedOut == 1 {
        timedOut := 0;
        StateMachineExchange(TimeOut);
      }
    }

    /** One event of the main loop. */
    method Dispatch(e: Event)
      requires Inv(View()) && Valid() && TwelveEntries(e)
      modifies this
      ensures Inv(View()) && Valid() && View() == Step(old(View()), e)
    {
      StepKeepsInv(View(), e);
      match e
      case Pa(edge) => HandlePA(edge);
      case Pc(pressed, n, requests) => HandlePC(pressed, n, requests);
      case Request(pressed) => JudgeWhetherRequestD2D(pressed);
      case Network(c) => JudgeWhetherHaveD2DRequest(c);
      case Finished(pressed) => JudgeWhetherD2DHaveFinished(pressed);
      case TimerFires => timedOut := 1;
      case TimeOutPoll => D2DHangUpD2PTimeOutHandle();
      case Break => ForceBreakD2DToD2P();
    }

    /** The main loop over any events: the unit ends where the run of these events ends. */
    method Loop(events: seq<Event>)
      requires Inv(View()) && Valid()
      requires forall k :: 0 <= k < |events| ==> TwelveEntries(events[k])
      modifies this
      ensures Inv(View()) && Valid() && View() == Run(old(View()), events)
    {
      var i := 0;
      while i < |events|
        invariant 0 <= i <= |events| && Inv(View()) && Valid()
        invariant Run(View(), events[i..]) == Run(old(View()), events)
      {
        assert events[i..][0] == events[i] && events[i..][1..] == events[i + 1..];
        Dispatch(events[i]);
        i := i + 1;
      }
    }
  }

  /** A unit after power-up and any events: the two active states determine the owner of the microphone and the
    * destination, the recording commands it handed out are bracketed, and no object was renamed. */
  method PowerUpAndRun(oppositeNo: int, events: seq<Event>) returns (unit: ControlUnit)
    requires forall k :: 0 <= k < |events| ==> TwelveEntries(events[k])
    ensures fresh(unit) && unit.Valid() && unit.View() == Run(Initial(oppositeNo), events)
    ensures Owned(unit.View()) && Declared(unit.ids)
    ensures !(unit.ann == LiveAnn && unit.intercom != IdleIntercom)
    ensures Bracketed(unit.log, D2P_RECORDING, unit.intercom == D2P)
    ensures Bracketed(unit.log, D2D_RECORDING,
                      (unit.intercom == D2D || unit.intercom == HangUp) && unit.thisRequest == 1)
    ensures unit.d2pButton == (if unit.intercom == D2P || unit.intercom == HangUp
                                  || TimedOutSincePress(Initial(oppositeNo), false, events) then 1 else 0)
  {
    unit := new ControlUnit(oppositeNo);
    InitialInv(oppositeNo);
    unit.Loop(events);
    RunKeepsFlag(Initial(oppositeNo), false, events);
  }
}
