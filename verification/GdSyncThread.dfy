/** The body of the sync thread as it runs: the fields are assigned one by one.  One call of Iteration is one
  * turn of the endless loop. */
module GdSyncThread {
  import opened Wrappers
  import opened GdSync

  class SyncThread {
    var phase: int
    var finish: bool
    var bep: bool
    var netOk: bool
    var detect: int
    var serverCmd: bool
    const ccu: array<Ccu>
    var readyReq: bool
    var readyResponses: int
    var readyTimeouts: int
    var tableFlag: bool
    var tableTimeouts: int
    var serial: int
    const devNo: int
    var serverNo: int
    var alarm: Alarm
    var updateStart: int
    var requests: seq<Request>
    var tables: seq<int>

    ghost predicate Valid()
      reads this
    {
      ccu.Length == 4
    }

    ghost function View(): State
      requires Valid()
      reads this, ccu
    {
      State(phase, finish, Probing(bep, netOk, detect, serverCmd, ccu[..]),
            Readying(readyReq, readyResponses, readyTimeouts), Receiving(tableFlag, tableTimeouts),
            serial, devNo, serverNo, alarm, updateStart, requests, tables)
    }

    constructor (no: int)
      ensures Valid() && fresh(ccu) && View() == Initial(no) && Inv(View())
    {
      phase, finish, bep, netOk, detect, serverCmd := 0, false, false, false, 0, false;
      ccu := new Ccu[4](_ => Ccu(0, 0));
      readyReq, readyResponses, readyTimeouts, tableFlag, tableTimeouts := false, 0, 0, false, 0;
      serial, devNo, serverNo, alarm, updateStart, requests, tables := 0, no, 1, ENABLED, 0, [], [];
      new;
      assert ccu[..] == NO_ANSWERS;
    }

    // The alarm: -1 while disabled, 0 while running, 1 once expired.

    method AlarmEnable()
      requires Valid()
      modifies this`alarm
      ensures View() == Restart(old(View()))
    {
      alarm := Alarm(true, 0);
    }

    method AlarmDisable()
      modifies this`alarm
      ensures alarm == DISABLED
    {
      alarm := Alarm(false, -1);
    }

    method AlarmCheckTimeOut(fires: bool) returns (timeout: int)
      requires Valid()
      modifies this`alarm
      ensures View() == Look(old(View()), fires) && timeout == alarm.timeout
      ensures old(Sane(alarm)) ==> timeout == -1 || timeout == 0 || timeout == 1
      ensures old(Sane(alarm)) ==> (timeout == -1 <==> !old(alarm.enabled))
    {
      if fires && alarm.enabled {
        alarm := alarm.(timeout := 1);
      }
      timeout := alarm.timeout;
    }

    method SendDbSyncReq(mask: int, dest: int)
      requires Valid()
      modifies this`serial, this`requests
      ensures View() == Send(old(View()), mask, dest)
    {
      serial := (serial + 1) % U32;
      requests := requests + [Request(mask, dest, serial)];
    }

    method ClearStatus()
      requires Valid()
      modifies ccu
      ensures ccu[..] == NO_ANSWERS
    {
      forall j | 0 <= j < 4 {
        ccu[j] := Ccu(0, 0);
      }
    }

    method PhaseZero()
      requires Valid() && bep
      modifies this`phase, this`alarm, this`serverCmd, this`netOk, ccu
      ensures View() == BeginProbing(old(View()))
    {
      phase := 1;
      AlarmEnable();
      serverCmd := false;
      netOk := false;
      ClearStatus();
    }

    /** The choice in phase 1: first by count and flags, then in favour of the same-numbered server. */
    method Choose()
      requires Valid()
      modifies this`serverNo
      ensures View() == ChooseServer(old(View()))
    {
      if ccu[1].flag == 1 && ccu[2].flag == 2 {
        if ccu[1].count < ccu[2].count {
          serverNo := 2;
        }
      } else if ccu[1].flag == 2 && ccu[2].flag == 1 {
        if ccu[1].count > ccu[2].count {
          serverNo := 1;
        }
      } else {
        if ccu[1].count < ccu[2].count {
          serverNo := 2;
        } else if ccu[1].count > ccu[2].count {
          serverNo := 1;
        }
      }
      if devNo == 1 {
        if ccu[1].count > 0 {
          serverNo := 1;
        } else if ccu[2].count > 0 {
          serverNo := 2;
        }
      }
      if devNo == 2 {
        if ccu[2].count > 0 {
          serverNo := 2;
        } else if ccu[1].count > 0 {
          serverNo := 1;
        }
      }
    }

    method ForgetReady()
      requires Valid()
      modifies this`readyResponses, this`readyTimeouts, this`readyReq
      ensures View() == old(View()).(ready := NO_READYING)
    {
      readyTimeouts, readyResponses, readyReq := 0, 0, false;
    }

    method StartReady()
      requires Valid()
      modifies this`alarm, this`phase, this`readyTimeouts, this`readyResponses, this`readyReq
      ensures View() == BeginReady(old(View()))
    {
      AlarmDisable();
      AlarmEnable();
      phase := 2;
      ForgetReady();
    }

    method PhaseOne(sendOk: bool)
      requires Valid()
      modifies this
      ensures View() == RequestReady(old(View()), sendOk)
    {
      Choose();
      SendDbSyncReq(READY_SYNC_REQ, serverNo);
      if sendOk {
        StartReady();
      }
    }

    method ForgetProbing()
      requires Valid()
      modifies this`netOk, this`bep, this`detect, this`serverCmd, ccu
      ensures View() == old(View()).(probe := NO_PROBING)
    {
      netOk := false;
      bep := false;
      detect := 0;
      serverCmd := false;
      ClearStatus();
    }

    method ForgetTables()
      requires Valid()
      modifies this`tableFlag, this`tableTimeouts
      ensures View() == old(View()).(table := NO_RECEIVING)
    {
      tableFlag, tableTimeouts := false, 0;
    }

    /** The common reset of phases 2 and 3. */
    method FallBack()
      requires Valid()
      modifies this, ccu
      ensures View() == Reset(old(View()))
    {
      AlarmDisable();
      ForgetProbing();
      finish := false;
      ForgetReady();
      ForgetTables();
      phase := 0;
      AlarmEnable();
    }

    method StartTables()
      requires Valid()
      modifies this`alarm, this`phase, this`tableTimeouts, this`updateStart
      ensures View() == BeginTables(old(View()))
    {
      AlarmDisable();
      AlarmEnable();
      phase, tableTimeouts, updateStart := 3, 0, 1;
    }

    method PhaseTwo()
      requires Valid()
      modifies this, ccu
      ensures View() == AwaitReady(old(View()))
    {
      if readyTimeouts >= 10 {
        FallBack();
      }
      if readyResponses >= 3 {
        StartTables();
      }
    }

    method PhaseThree(ticks: Ticks)
      requires Valid()
      modifies this, ccu
      ensures View() == AwaitTables(old(View()), ticks)
    {
      if tableTimeouts >= 10 {
        FallBack();
      }
      PollAlarm(ticks);
    }

    method NoTableInTime()
      requires Valid()
      modifies this`alarm, this`tableTimeouts
      ensures View() == TableLate(old(View()))
    {
      AlarmDisable();
      AlarmEnable();
      tableTimeouts := tableTimeouts + 1;
    }

    method TableArrived()
      requires Valid()
      modifies this`alarm, this`tableFlag
      ensures View() == TableSeen(old(View()))
    {
      AlarmDisable();
      AlarmEnable();
      tableFlag := false;
    }

    method PollAlarm(ticks: Ticks)
      requires Valid()
      modifies this`alarm, this`tableFlag, this`tableTimeouts
      ensures View() == PollTable(old(View()), ticks)
    {
      var first := AlarmCheckTimeOut(ticks.first);
      if first == 1 && !tableFlag {
        NoTableInTime();
      } else {
        var second := AlarmCheckTimeOut(ticks.second);
        if second == 0 && tableFlag {
          TableArrived();
        } else {
          var third := AlarmCheckTimeOut(ticks.third);
          if third == 1 && tableFlag {
            TableArrived();
          }
        }
      }
    }

    method SwitchPhase(i: Input)
      requires Valid()
      modifies this, ccu
      ensures View() == Switch(old(View()), i)
    {
      match phase
      case 0 =>
        if bep {
          PhaseZero();
        }
      case 1 =>
        if netOk && bep {
          PhaseOne(i.sendOk);
        }
      case 2 => PhaseTwo();
      case 3 => PhaseThree(i.table);
      case 4 =>
        AlarmDisable();
        phase := 5;
        updateStart := 0;
      case _ =>
    }

    method CountServer(p: Packet)
      requires Valid()
      modifies ccu
      ensures View() == CountAnswer(old(View()), p)
    {
      if p.tagged {
        if p.src >= 0 && p.src < 4 {
          ccu[p.src] := Ccu(p.ipFlag % 256, (ccu[p.src].count + 1) % U32);
        }
      }
    }

    method HandleProbeResponse(p: Packet, ticks: Ticks)
      requires Valid()
      modifies this, ccu
      ensures View() == ProbeResponse(old(View()), p, ticks)
    {
      var timeout := AlarmCheckTimeOut(ticks.first);
      if timeout == 0 && serial == p.sequence {
        CountServer(p);
        AcceptProbe();
      }
    }

    method AcceptProbe()
      requires Valid()
      modifies this`alarm, this`bep, this`serverCmd, this`netOk, this`detect
      ensures View() == ProbeAnswered(old(View()))
    {
      AlarmDisable();
      bep, serverCmd := true, true;
      if phase == 1 {
        if detect >= 5 {
          netOk := true;
        } else {
          AlarmEnable();
          detect := detect + 1;
          serverCmd := false;
        }
      }
    }

    method AcceptReady()
      requires Valid()
      modifies this`alarm, this`readyReq, this`readyResponses
      ensures View() == ReadyAnswered(old(View()))
    {
      AlarmDisable();
      readyReq := true;
      if phase == 2 {
        readyResponses := readyResponses + 1;
        AlarmEnable();
        readyReq := false;
      }
    }

    method CountLateReady()
      requires Valid()
      modifies this`alarm, this`readyReq, this`readyTimeouts
      ensures View() == ReadyLate(old(View()))
    {
      AlarmDisable();
      if phase == 2 {
        readyTimeouts := readyTimeouts + 1;
        AlarmEnable();
        readyReq := false;
      }
    }

    method HandleReadyResponse(p: Packet, ticks: Ticks)
      requires Valid()
      modifies this`alarm, this`readyReq, this`readyResponses, this`readyTimeouts
      ensures View() == ReadyResponse(old(View()), p, ticks)
    {
      var first := AlarmCheckTimeOut(ticks.first);
      if first == 0 && serial == p.sequence {
        AcceptReady();
      } else {
        var second := AlarmCheckTimeOut(ticks.second);
        if second == 1 && readyResponses == 0 {
          CountLateReady();
        }
      }
    }

    method HandlePacket(p: Packet, ticks: Ticks)
      requires Valid()
      modifies this, ccu
      ensures View() == Handle(old(View()), p, ticks)
    {
      if p.isSync {
        if p.mask == VERSION_SYNC_BEP {
          if p.req == 1 && p.res == 1 {
            HandleProbeResponse(p, ticks);
          }
        } else if p.mask >= LINE_STATION_TABLE && p.mask <= BCU_TS_PASSWORD {
          if !finish {
            tables := tables + [p.row];
          }
          tableFlag := true;
        } else if p.mask == READY_SYNC_REQ {
          if p.req == 1 && p.res == 1 {
            HandleReadyResponse(p, ticks);
          }
        } else if p.mask == END_SYNC {
          finish := true;
          phase := 4;
        }
      }
    }

    method RepeatRequests(ticks: Ticks)
      requires Valid()
      modifies this`alarm, this`serial, this`requests
      ensures View() == Resend(old(View()), ticks)
    {
      if !serverCmd {
        var timeout := AlarmCheckTimeOut(ticks.first);
        if timeout == 1 {
          AlarmDisable();
          AlarmEnable();
          SendDbSyncReq(VERSION_SYNC_BEP, ALL_SERVERS);
        }
      }
      if !readyReq {
        var timeout := AlarmCheckTimeOut(ticks.second);
        if timeout == 1 {
          AlarmDisable();
          AlarmEnable();
          SendDbSyncReq(READY_SYNC_REQ, serverNo);
        }
      }
    }

    /** One turn of BcuGdThreadEntry's loop.  It is complete once an END packet has come, and from then on
      * stores nothing, asks for nothing and keeps the alarm off. */
    method Iteration(i: Input)
      requires Valid() && Inv(View())
      modifies this, ccu
      ensures Inv(View()) && View() == Iterate(old(View()), i)
      ensures phase == 4 <==> Ends(i)
      ensures finish == (old(finish) || Ends(i)) && (finish <==> phase == 4 || phase == 5)
      ensures tables == if old(finish) then old(tables) else old(tables) + Rows(i)
      ensures old(finish) ==> requests == old(requests) && alarm == DISABLED
    {
      ghost var s := View();
      IterateKeepsInv(s, i);
      IterateStores(s, i);
      PhaseFourIffEnd(s, i);
      Turn(i);
    }

    method Turn(i: Input)
      requires Valid()
      modifies this, ccu
      ensures View() == Iterate(old(View()), i)
    {
      SwitchPhase(i);
      if i.packet.Some? {
        HandlePacket(i.packet.value, i.receive);
      }
      RepeatRequests(i.resend);
    }

    /** The loop, as far as a sequence of inputs drives it: it is complete if and only if an END packet was among
      * them, and has stored exactly the rows that came before it. */
    method Loop(inputs: seq<Input>)
      requires Valid() && Inv(View())
      modifies this, ccu
      ensures Inv(View()) && View() == Run(old(View()), inputs)
      ensures finish <==> old(finish) || SeesEnd(inputs)
      ensures tables == if old(finish) then old(tables) else old(tables) + RowsBeforeEnd(inputs)
      ensures old(finish) ==> requests == old(requests)
    {
      ghost var s := View();
      if s.finish {
        CompletionIsAbsorbing(s, inputs);
      } else {
        RunStores(s, inputs);
      }
      for k := 0 to |inputs|
        invariant Inv(View()) && Run(View(), inputs[k..]) == Run(s, inputs)
      {
        assert inputs[k..][1..] == inputs[k + 1..];
        Iteration(inputs[k]);
      }
    }
  }
}
