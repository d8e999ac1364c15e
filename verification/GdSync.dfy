/** The database-sync thread: a six-phase handshake with two servers over an unreliable network.  One
  * iteration of the thread is a step; the network delivers any packet or none, the alarm may fire at every
  * point where it is looked at, and the send queue may refuse a request. */
module GdSync {
  import opened Wrappers

  const VERSION_SYNC_BEP := 2
  const LINE_STATION_TABLE := 17
  const BCU_TS_PASSWORD := 32
  const READY_SYNC_REQ := 254
  const END_SYNC := 255
  const ALL_SERVERS := 251
  const U32 := 0x1_0000_0000

  /** `timeout` is what AlarmCheckTimeOut returns: -1 disabled, 0 running, 1 expired. */
  datatype Alarm = Alarm(enabled: bool, timeout: int)

  const ENABLED := Alarm(true, 0)
  const DISABLED := Alarm(false, -1)

  /** The callback runs only while the alarm is enabled. */
  function Tick(a: Alarm, fires: bool): Alarm {
    if fires && a.enabled then a.(timeout := 1) else a
  }

  datatype Ccu = Ccu(flag: int, count: int)

  type Servers = s: seq<Ccu> | |s| == 4 witness [Ccu(0, 0), Ccu(0, 0), Ccu(0, 0), Ccu(0, 0)]

  const NO_ANSWERS: Servers := [Ccu(0, 0), Ccu(0, 0), Ccu(0, 0), Ccu(0, 0)]

  /** `isSync` says that the event type is the sync type, `tagged` that the version strings are followed by
    * the server tag, `row` stands for the context of a table packet. */
  datatype Packet = Packet(isSync: bool, mask: int, req: int, res: int, sequence: int,
                           tagged: bool, src: int, ipFlag: int, row: int)

  datatype Request = Request(mask: int, dest: int, sequence: int)

  /** What one iteration meets: a packet or none, whether the send queue takes the READY request, and whether
    * the alarm fires before each look at it (three in phase 3, two while a packet is handled, two before
    * requests are repeated). */
  datatype Input = Input(packet: Option<Packet>, sendOk: bool, table: Ticks, receive: Ticks, resend: Ticks)

  datatype Ticks = Ticks(first: bool, second: bool, third: bool)

  /** What the probing phase found out; `ccu` counts the answers of servers 0 to 3. */
  datatype Probing = Probing(bep: bool, netOk: bool, detect: int, serverCmd: bool, ccu: Servers)

  datatype Readying = Readying(req: bool, responses: int, timeouts: int)

  datatype Receiving = Receiving(flag: bool, timeouts: int)

  const NO_PROBING := Probing(false, false, 0, false, NO_ANSWERS)
  const NO_READYING := Readying(false, 0, 0)
  const NO_RECEIVING := Receiving(false, 0)

  /** `requests` and `tables` are history: the requests built so far and the rows stored so far. */
  datatype State = State(
    phase: int, finish: bool, probe: Probing, ready: Readying, table: Receiving,
    serial: int, devNo: int, serverNo: int, alarm: Alarm, updateStart: int,
    requests: seq<Request>, tables: seq<int>)

  function Initial(devNo: int): State {
    State(0, false, NO_PROBING, NO_READYING, NO_RECEIVING, 0, devNo, 1, ENABLED, 0, [], [])
  }

  // ---------- One iteration ----------

  /** AlarmCheckTimeOut: the alarm may have fired since it was last looked at. */
  function Look(s: State, fires: bool): State {
    s.(alarm := Tick(s.alarm, fires))
  }

  /** AlarmDisable, then AlarmEnable. */
  function Restart(s: State): State {
    s.(alarm := ENABLED)
  }

  /** BcuSendDbSyncReqCommon. */
  function Send(s: State, mask: int, dest: int): State {
    var serial := (s.serial + 1) % U32;
    s.(serial := serial, requests := s.requests + [Request(mask, dest, serial)])
  }

  /** Phase 0 ends once a server answers a probe. */
  function BeginProbing(s: State): State {
    s.(phase := 1, alarm := ENABLED,
       probe := s.probe.(serverCmd := false, netOk := false, ccu := NO_ANSWERS))
  }

  /** The server by the number of answers and the primary and backup flags. */
  function ByCount(current: int, one: Ccu, two: Ccu): int {
    if one.flag == 1 && two.flag == 2 then
      if one.count < two.count then 2 else current
    else if one.flag == 2 && two.flag == 1 then
      if one.count > two.count then 1 else current
    else if one.count < two.count then 2
    else if one.count > two.count then 1
    else current
  }

  /** The same-numbered server wins if it answered at all. */
  function Chosen(devNo: int, current: int, one: Ccu, two: Ccu): int {
    if devNo == 1 then
      if one.count > 0 then 1 else if two.count > 0 then 2 else ByCount(current, one, two)
    else if devNo == 2 then
      if two.count > 0 then 2 else if one.count > 0 then 1 else ByCount(current, one, two)
    else ByCount(current, one, two)
  }

  function ChooseServer(s: State): State
  {
    s.(serverNo := Chosen(s.devNo, s.serverNo, s.probe.ccu[1], s.probe.ccu[2]))
  }

  function BeginReady(s: State): State {
    s.(phase := 2, alarm := ENABLED, ready := NO_READYING)
  }

  function RequestReady(s: State, sendOk: bool): State
  {
    var t := Send(ChooseServer(s), READY_SYNC_REQ, ChooseServer(s).serverNo);
    if sendOk then BeginReady(t) else t
  }

  /** Back to power-up; the server number and updateStart stay. */
  function Reset(s: State): State {
    s.(phase := 0, finish := false, alarm := ENABLED,
       probe := NO_PROBING, ready := NO_READYING, table := NO_RECEIVING)
  }

  function BeginTables(s: State): State {
    s.(phase := 3, alarm := ENABLED, table := s.table.(timeouts := 0), updateStart := 1)
  }

  function AwaitReady(s: State): State {
    var t := if s.ready.timeouts >= 10 then Reset(s) else s;
    if t.ready.responses >= 3 then BeginTables(t) else t
  }

  function TableLate(s: State): State {
    s.(alarm := ENABLED, table := s.table.(timeouts := s.table.timeouts + 1))
  }

  function TableSeen(s: State): State {
    s.(alarm := ENABLED, table := s.table.(flag := false))
  }

  function PollSeen(s: State, fires: bool): State {
    if s.alarm.timeout == 0 && s.table.flag then TableSeen(s)
    else
      var t := Look(s, fires);
      if t.alarm.timeout == 1 && t.table.flag then TableSeen(t) else t
  }

  function PollTable(s: State, ticks: Ticks): State {
    var t := Look(s, ticks.first);
    if t.alarm.timeout == 1 && !t.table.flag then TableLate(t)
    else PollSeen(Look(t, ticks.second), ticks.third)
  }

  function AwaitTables(s: State, ticks: Ticks): State {
    PollTable(if s.table.timeouts >= 10 then Reset(s) else s, ticks)
  }

  function Rest(s: State): State {
    s.(phase := 5, alarm := DISABLED, updateStart := 0)
  }

  /** The switch over the current phase. */
  function Switch(s: State, i: Input): State
  {
    if s.phase == 0 then if s.probe.bep then BeginProbing(s) else s
    else if s.phase == 1 then if s.probe.netOk && s.probe.bep then RequestReady(s, i.sendOk) else s
    else if s.phase == 2 then AwaitReady(s)
    else if s.phase == 3 then AwaitTables(s, i.table)
    else if s.phase == 4 then Rest(s)
    else s
  }

  predicate IsResponse(p: Packet) {
    p.req == 1 && p.res == 1
  }

  function CountAnswer(s: State, p: Packet): State
  {
    if p.tagged && 0 <= p.src < 4 then
      var count := (s.probe.ccu[p.src].count + 1) % U32;
      s.(probe := s.probe.(ccu := s.probe.ccu[p.src := Ccu(p.ipFlag % 256, count)]))
    else s
  }

  function ProbeAnswered(s: State): State {
    if s.phase != 1 then
      s.(alarm := DISABLED, probe := s.probe.(bep := true, serverCmd := true))
    else if s.probe.detect >= 5 then
      s.(alarm := DISABLED, probe := s.probe.(bep := true, serverCmd := true, netOk := true))
    else
      s.(alarm := ENABLED, probe := s.probe.(bep := true, serverCmd := false, detect := s.probe.detect + 1))
  }

  function ProbeResponse(s: State, p: Packet, ticks: Ticks): State
  {
    var a := Look(s, ticks.first);
    if a.alarm.timeout == 0 && a.serial == p.sequence then ProbeAnswered(CountAnswer(a, p)) else a
  }

  function ReadyAnswered(s: State): State {
    if s.phase == 2
    then s.(alarm := ENABLED, ready := s.ready.(req := false, responses := s.ready.responses + 1))
    else s.(alarm := DISABLED, ready := s.ready.(req := true))
  }

  function ReadyLate(s: State): State {
    if s.phase == 2
    then s.(alarm := ENABLED, ready := s.ready.(req := false, timeouts := s.ready.timeouts + 1))
    else s.(alarm := DISABLED)
  }

  function ReadyResponse(s: State, p: Packet, ticks: Ticks): State {
    var a := Look(s, ticks.first);
    if a.alarm.timeout == 0 && a.serial == p.sequence then ReadyAnswered(a)
    else
      var b := Look(a, ticks.second);
      if b.alarm.timeout == 1 && b.ready.responses == 0 then ReadyLate(b) else b
  }

  predicate IsTable(p: Packet) {
    p.isSync && LINE_STATION_TABLE <= p.mask <= BCU_TS_PASSWORD
  }

  predicate IsEnd(p: Packet) {
    p.isSync && p.mask == END_SYNC
  }

  predicate IsProbeResponse(p: Packet) {
    p.isSync && p.mask == VERSION_SYNC_BEP && IsResponse(p)
  }

  predicate IsReadyResponse(p: Packet) {
    p.isSync && p.mask == READY_SYNC_REQ && IsResponse(p)
  }

  function StoreRow(s: State, row: int): State {
    s.(table := s.table.(flag := true), tables := if s.finish then s.tables else s.tables + [row])
  }

  function Complete(s: State): State {
    s.(finish := true, phase := 4)
  }

  /** The kinds of packet exclude each other; all others leave the state alone. */
  function Handle(s: State, p: Packet, ticks: Ticks): State
  {
    if IsProbeResponse(p) then ProbeResponse(s, p, ticks)
    else if IsTable(p) then StoreRow(s, p.row)
    else if IsReadyResponse(p) then ReadyResponse(s, p, ticks)
    else if IsEnd(p) then Complete(s)
    else s
  }

  function Receive(s: State, i: Input): State
  {
    if i.packet.Some? then Handle(s, i.packet.value, i.receive) else s
  }

  /** A request is repeated when the alarm has expired. */
  function Repeat(s: State, mask: int, dest: int): State {
    if s.alarm.timeout == 1 then Send(Restart(s), mask, dest) else s
  }

  function Resend(s: State, ticks: Ticks): State {
    var t := if s.probe.serverCmd then s else Repeat(Look(s, ticks.first), VERSION_SYNC_BEP, ALL_SERVERS);
    if t.ready.req then t else Repeat(Look(t, ticks.second), READY_SYNC_REQ, t.serverNo)
  }

  function Iterate(s: State, i: Input): State {
    Resend(Receive(Switch(s, i), i), i.resend)
  }

  function Run(s: State, inputs: seq<Input>): State
    decreases |inputs|
  {
    if inputs == [] then s else Run(Iterate(s, inputs[0]), inputs[1..])
  }

  // ---------- What every run keeps ----------

  predicate Sane(a: Alarm) {
    if a.enabled then a.timeout == 0 || a.timeout == 1 else a.timeout == -1
  }

  predicate Inv(s: State) {
    && 0 <= s.phase <= 5 && (s.finish <==> s.phase >= 4)
    && Sane(s.alarm) && (s.phase == 5 ==> s.alarm == DISABLED && s.updateStart == 0)
    && (s.serverNo == 1 || s.serverNo == 2)
    && 0 <= s.probe.detect <= 5 && 0 <= s.ready.responses <= 3
    && 0 <= s.ready.timeouts <= 10 && 0 <= s.table.timeouts <= 10
    && (s.phase == 0 && s.probe.serverCmd ==> s.probe.bep)
    && (s.phase == 1 ==> s.probe.bep && (s.probe.netOk <==> s.probe.serverCmd))
    && (s.phase == 1 && s.probe.netOk ==> s.probe.detect == 5 && s.alarm == DISABLED)
    && (s.phase == 2 && s.alarm.enabled ==> !s.ready.req)
    && (s.requests != [] ==> s.requests[|s.requests| - 1].sequence == s.serial)
  }

  /** Between the switch and the packet the counters are below the limits that the switch looks at. */
  predicate Switched(s: State) {
    && Inv(s)
    && (s.phase == 2 ==> s.ready.responses < 3 && s.ready.timeouts < 10)
    && (s.phase >= 4 ==> s.alarm == DISABLED)
  }

  lemma LookKeepsInv(s: State, fires: bool)
    requires Inv(s)
    ensures Inv(Look(s, fires)) && (Switched(s) ==> Switched(Look(s, fires)))
    ensures s.alarm == DISABLED ==> Look(s, fires) == s
  {
  }

  lemma RequestReadyKeepsInv(s: State, sendOk: bool)
    requires Inv(s) && s.phase == 1 && s.probe.netOk
    ensures Switched(RequestReady(s, sendOk))
  {
  }

  lemma AwaitReadyKeepsInv(s: State)
    requires Inv(s) && s.phase == 2
    ensures Switched(AwaitReady(s)) && AwaitReady(s).phase in {0, 2, 3}
  {
    if s.ready.timeouts >= 10 {
      assert Inv(Reset(s));
    } else if s.ready.responses >= 3 {
      assert Inv(BeginTables(s));
    }
  }

  lemma PollSeenKeepsInv(s: State, fires: bool)
    requires Inv(s) && (s.phase == 0 || s.phase == 3)
    ensures Inv(PollSeen(s, fires)) && PollSeen(s, fires).phase == s.phase
  {
    LookKeepsInv(s, fires);
    assert Inv(TableSeen(s)) && Inv(TableSeen(Look(s, fires)));
  }

  lemma PollTableKeepsInv(s: State, ticks: Ticks)
    requires Inv(s) && (s.phase == 0 || s.phase == 3) && s.table.timeouts < 10
    ensures Inv(PollTable(s, ticks)) && PollTable(s, ticks).phase == s.phase
  {
    var t := Look(s, ticks.first);
    LookKeepsInv(s, ticks.first);
    LookKeepsInv(t, ticks.second);
    PollSeenKeepsInv(Look(t, ticks.second), ticks.third);
    assert Inv(TableLate(t));
  }

  lemma AwaitTablesKeepsInv(s: State, ticks: Ticks)
    requires Inv(s) && s.phase == 3
    ensures Switched(AwaitTables(s, ticks)) && AwaitTables(s, ticks).phase in {0, 3}
  {
    assert Inv(Reset(s));
    PollTableKeepsInv(if s.table.timeouts >= 10 then Reset(s) else s, ticks);
  }

  lemma SwitchKeepsInv(s: State, i: Input)
    requires Inv(s)
    ensures Switched(Switch(s, i))
  {
    if s.phase == 0 {
      if s.probe.bep {
        assert Inv(BeginProbing(s));
      }
    } else if s.phase == 1 {
      if s.probe.netOk {
        RequestReadyKeepsInv(s, i.sendOk);
      }
    } else if s.phase == 2 {
      AwaitReadyKeepsInv(s);
    } else if s.phase == 3 {
      AwaitTablesKeepsInv(s, i.table);
    } else if s.phase == 4 {
      assert Inv(Rest(s));
    }
  }

  lemma ProbeKeepsInv(s: State, p: Packet, ticks: Ticks)
    requires Switched(s)
    ensures Inv(ProbeResponse(s, p, ticks)) && ProbeResponse(s, p, ticks).phase == s.phase
    ensures s.finish ==> ProbeResponse(s, p, ticks) == s
  {
    var a := Look(s, ticks.first);
    LookKeepsInv(s, ticks.first);
    assert Switched(CountAnswer(a, p));
    if a.alarm.timeout == 0 {
      ProbeAnsweredKeepsInv(CountAnswer(a, p));
    }
  }

  lemma ProbeAnsweredKeepsInv(s: State)
    requires Switched(s) && s.alarm.timeout == 0
    ensures Inv(ProbeAnswered(s)) && ProbeAnswered(s).phase == s.phase
  {
  }

  lemma ReadyAnsweredKeepsInv(s: State)
    requires Switched(s) && s.alarm.timeout != -1
    ensures Inv(ReadyAnswered(s)) && Inv(ReadyLate(s))
    ensures ReadyAnswered(s).phase == ReadyLate(s).phase == s.phase
  {
  }

  lemma ReadyKeepsInv(s: State, p: Packet, ticks: Ticks)
    requires Switched(s)
    ensures Inv(ReadyResponse(s, p, ticks)) && ReadyResponse(s, p, ticks).phase == s.phase
    ensures s.finish ==> ReadyResponse(s, p, ticks) == s
  {
    var a := Look(s, ticks.first);
    var b := Look(a, ticks.second);
    LookKeepsInv(s, ticks.first);
    LookKeepsInv(a, ticks.second);
    if a.alarm.timeout == 0 {
      ReadyAnsweredKeepsInv(a);
    }
    if b.alarm.timeout == 1 {
      ReadyAnsweredKeepsInv(b);
    }
  }

  lemma ReceiveKeepsInv(s: State, i: Input)
    requires Switched(s)
    ensures Inv(Receive(s, i))
    ensures s.finish ==> Receive(s, i).alarm == DISABLED
    ensures Receive(s, i).phase == (if Ends(i) then 4 else s.phase)
  {
    if i.packet.Some? {
      var p := i.packet.value;
      if IsProbeResponse(p) {
        ProbeKeepsInv(s, p, i.receive);
      } else if IsTable(p) {
        assert Inv(StoreRow(s, p.row));
      } else if IsReadyResponse(p) {
        ReadyKeepsInv(s, p, i.receive);
      } else if IsEnd(p) {
        assert Inv(Complete(s));
      }
    }
  }

  lemma RepeatKeepsInv(s: State, fires: bool, mask: int, dest: int)
    requires Inv(s) && (s.phase == 2 ==> s.alarm == DISABLED || !s.ready.req)
    ensures Inv(Repeat(Look(s, fires), mask, dest)) && Repeat(Look(s, fires), mask, dest).phase == s.phase
    ensures s.alarm == DISABLED ==> Repeat(Look(s, fires), mask, dest) == s
  {
    LookKeepsInv(s, fires);
    var t := Look(s, fires);
    if t.alarm.timeout == 1 {
      assert Inv(Restart(t));
    }
  }

  lemma ResendKeepsInv(s: State, ticks: Ticks)
    requires Inv(s)
    ensures Inv(Resend(s, ticks)) && Resend(s, ticks).phase == s.phase
    ensures s.alarm == DISABLED ==> Resend(s, ticks) == s
  {
    RepeatKeepsInv(s, ticks.first, VERSION_SYNC_BEP, ALL_SERVERS);
    var t := if s.probe.serverCmd then s else Repeat(Look(s, ticks.first), VERSION_SYNC_BEP, ALL_SERVERS);
    if !t.ready.req {
      RepeatKeepsInv(t, ticks.second, READY_SYNC_REQ, t.serverNo);
    }
  }

  // What each part of an iteration leaves alone.

  lemma PollTableFrame(s: State, ticks: Ticks)
    ensures var t := PollTable(s, ticks);
            && t.tables == s.tables && t.devNo == s.devNo && t.probe == s.probe
            && t.requests == s.requests && t.serial == s.serial
  {
  }

  lemma SwitchFrame(s: State, i: Input)
    ensures var t := Switch(s, i); t.tables == s.tables && t.devNo == s.devNo
  {
    if s.phase == 3 {
      PollTableFrame(if s.table.timeouts >= 10 then Reset(s) else s, i.table);
    }
  }

  lemma ReceiveFrame(s: State, i: Input)
    ensures var t := Receive(s, i); t.requests == s.requests && t.serial == s.serial && t.devNo == s.devNo
    ensures Receive(s, i).tables == if s.finish then s.tables else s.tables + Rows(i)
  {
    if i.packet.Some? {
      if IsProbeResponse(i.packet.value) {
        ProbeFrame(s, i.packet.value, i.receive);
      } else if IsReadyResponse(i.packet.value) {
        ReadyFrame(s, i.packet.value, i.receive);
      }
    }
  }

  lemma ProbeFrame(s: State, p: Packet, ticks: Ticks)
    ensures var t := ProbeResponse(s, p, ticks);
            && t.requests == s.requests && t.serial == s.serial
            && t.devNo == s.devNo && t.tables == s.tables
  {
  }

  lemma ReadyFrame(s: State, p: Packet, ticks: Ticks)
    ensures var t := ReadyResponse(s, p, ticks);
            && t.requests == s.requests && t.serial == s.serial
            && t.devNo == s.devNo && t.tables == s.tables
  {
  }

  lemma ResendFrame(s: State, ticks: Ticks)
    ensures var t := Resend(s, ticks);
            && t.phase == s.phase && t.probe == s.probe && t.ready == s.ready
            && t.tables == s.tables && t.devNo == s.devNo
  {
  }

  /** Rows are stored one by one while the update is not finished; nothing else touches the tables. */
  lemma IterateStores(s: State, i: Input)
    requires Inv(s)
    ensures Iterate(s, i).tables == if s.finish then s.tables else s.tables + Rows(i)
    ensures Iterate(s, i).devNo == s.devNo
  {
    SwitchFrame(s, i);
    SwitchKeepsCompletion(s, i);
    ReceiveFrame(Switch(s, i), i);
    ResendFrame(Receive(Switch(s, i), i), i.resend);
  }

  predicate Ends(i: Input) {
    i.packet.Some? && IsEnd(i.packet.value)
  }

  /** The row an iteration is offered, if any. */
  function Rows(i: Input): seq<int> {
    if i.packet.Some? && IsTable(i.packet.value) then [i.packet.value.row] else []
  }

  lemma IterateKeepsInv(s: State, i: Input)
    requires Inv(s)
    ensures Inv(Iterate(s, i))
    ensures Iterate(s, i).phase == (if Ends(i) then 4 else Switch(s, i).phase)
    ensures s.finish ==> Iterate(s, i).requests == s.requests && Iterate(s, i).alarm == DISABLED
    ensures Iterate(s, i).finish == (s.finish || Ends(i))
  {
    SwitchKeepsInv(s, i);
    SwitchKeepsCompletion(s, i);
    var t := Switch(s, i);
    ReceiveKeepsInv(t, i);
    ReceiveFrame(t, i);
    ResendKeepsInv(Receive(t, i), i.resend);
  }

  lemma SwitchKeepsCompletion(s: State, i: Input)
    requires Inv(s)
    ensures Switch(s, i).finish == s.finish
    ensures CanFollow(s.phase, Switch(s, i).phase) && Switch(s, i).phase != 4
    ensures s.finish ==> Switch(s, i).requests == s.requests
  {
    SwitchKeepsInv(s, i);
    if s.phase == 2 {
      AwaitReadyKeepsInv(s);
    } else if s.phase == 3 {
      AwaitTablesKeepsInv(s, i.table);
    }
  }

  lemma {:induction false} RunKeepsInv(s: State, inputs: seq<Input>)
    requires Inv(s)
    ensures Inv(Run(s, inputs))
    decreases |inputs|
  {
    if inputs != [] {
      IterateKeepsInv(s, inputs[0]);
      RunKeepsInv(Iterate(s, inputs[0]), inputs[1..]);
    }
  }

  lemma InitialInv(devNo: int)
    ensures Inv(Initial(devNo))
  {
  }

  /** The eight-bit counters never come near wrapping, whatever the network does. */
  lemma CountersStaySmall(devNo: int, inputs: seq<Input>)
    ensures var s := Run(Initial(devNo), inputs);
            s.probe.detect <= 5 && s.ready.responses <= 3 && s.ready.timeouts <= 10 && s.table.timeouts <= 10
  {
    RunKeepsInv(Initial(devNo), inputs);
  }

  /** The phases that one iteration can lead to. */
  predicate CanFollow(phase: int, next: int) {
    match phase
    case 0 => next == 0 || next == 1 || next == 4
    case 1 => next == 1 || next == 2 || next == 4
    case 2 => next == 0 || next == 2 || next == 3 || next == 4
    case 3 => next == 0 || next == 3 || next == 4
    case _ => next == 4 || next == 5
  }

  /** Only these moves between phases exist. */
  lemma PhaseGraph(s: State, i: Input)
    requires Inv(s)
    ensures CanFollow(s.phase, Iterate(s, i).phase)
  {
    IterateKeepsInv(s, i);
    SwitchKeepsCompletion(s, i);
  }

  /** Phase 4 is reached by an END packet and by nothing else. */
  lemma PhaseFourIffEnd(s: State, i: Input)
    requires Inv(s)
    ensures Iterate(s, i).phase == 4 <==> Ends(i)
  {
    IterateKeepsInv(s, i);
    SwitchKeepsCompletion(s, i);
  }

  // ---------- Completion ----------

  /** Completion is absorbing: no packet and no alarm leads back, the tables do not change, the alarm is off
    * from the first iteration on, and no request is sent. */
  lemma {:induction false} CompletionIsAbsorbing(s: State, inputs: seq<Input>)
    requires Inv(s) && s.finish
    ensures var t := Run(s, inputs);
            && t.finish && (t.phase == 4 || t.phase == 5)
            && t.tables == s.tables && t.requests == s.requests
            && (inputs != [] ==> t.alarm == DISABLED)
    decreases |inputs|
  {
    if inputs != [] {
      IterateKeepsInv(s, inputs[0]);
      IterateStores(s, inputs[0]);
      CompletionIsAbsorbing(Iterate(s, inputs[0]), inputs[1..]);
    }
  }

  predicate SeesEnd(inputs: seq<Input>) {
    exists k :: 0 <= k < |inputs| && Ends(inputs[k])
  }

  /** The rows offered before the first END packet. */
  function RowsBeforeEnd(inputs: seq<Input>): seq<int>
    decreases |inputs|
  {
    if inputs == [] || Ends(inputs[0]) then []
    else Rows(inputs[0]) + RowsBeforeEnd(inputs[1..])
  }

  lemma {:induction false} RunStores(s: State, inputs: seq<Input>)
    requires Inv(s) && !s.finish
    ensures Run(s, inputs).finish <==> SeesEnd(inputs)
    ensures Run(s, inputs).tables == s.tables + RowsBeforeEnd(inputs)
    decreases |inputs|
  {
    if inputs != [] {
      IterateKeepsInv(s, inputs[0]);
      IterateStores(s, inputs[0]);
      var next, rest := Iterate(s, inputs[0]), inputs[1..];
      SeesEndTail(inputs);
      if next.finish {
        CompletionIsAbsorbing(next, rest);
      } else {
        RunStores(next, rest);
        RowsJoin(s.tables, inputs);
      }
    }
  }

  lemma RowsJoin(before: seq<int>, inputs: seq<Input>)
    requires inputs != [] && !Ends(inputs[0])
    ensures before + Rows(inputs[0]) + RowsBeforeEnd(inputs[1..]) == before + RowsBeforeEnd(inputs)
  {
    Join(before, Rows(inputs[0]), RowsBeforeEnd(inputs[1..]));
  }

  lemma Join(a: seq<int>, b: seq<int>, c: seq<int>)
    ensures a + b + c == a + (b + c)
  {
  }

  lemma SeesEndTail(inputs: seq<Input>)
    requires inputs != []
    ensures SeesEnd(inputs) <==> Ends(inputs[0]) || SeesEnd(inputs[1..])
  {
  }

  /** A run is complete if and only if an END packet arrived, which is if and only if the phase is 4 or 5, and
    * the tables are exactly the rows that arrived before it, in order. */
  lemma EveryRunStoresRowsUntilEnd(devNo: int, inputs: seq<Input>)
    ensures var s := Run(Initial(devNo), inputs);
            && (s.finish <==> SeesEnd(inputs)) && (s.finish <==> s.phase == 4 || s.phase == 5)
            && s.tables == RowsBeforeEnd(inputs)
  {
    RunKeepsInv(Initial(devNo), inputs);
    RunStores(Initial(devNo), inputs);
  }

  // ---------- Requests ----------

  /** The k-th request carries the sequence number k, as an unsigned int. */
  ghost predicate Numbered(s: State) {
    && s.serial == |s.requests| % U32
    && forall k :: 0 <= k < |s.requests| ==> s.requests[k].sequence == (k + 1) % U32
  }

  lemma NextNumber(n: nat)
    ensures (n % U32 + 1) % U32 == (n + 1) % U32
  {
  }

  lemma SendNumbered(s: State, mask: int, dest: int)
    requires Numbered(s)
    ensures Numbered(Send(s, mask, dest))
  {
    NextNumber(|s.requests|);
  }

  lemma RepeatNumbered(s: State, fires: bool, mask: int, dest: int)
    requires Numbered(s)
    ensures Numbered(Repeat(Look(s, fires), mask, dest))
  {
    SendNumbered(Restart(Look(s, fires)), mask, dest);
  }

  lemma SwitchNumbered(s: State, i: Input)
    requires Numbered(s)
    ensures Numbered(Switch(s, i))
  {
    if s.phase == 1 {
      SendNumbered(ChooseServer(s), READY_SYNC_REQ, ChooseServer(s).serverNo);
    } else if s.phase == 3 {
      PollTableFrame(if s.table.timeouts >= 10 then Reset(s) else s, i.table);
    }
  }

  lemma IterateNumbered(s: State, i: Input)
    requires Numbered(s)
    ensures Numbered(Iterate(s, i))
  {
    SwitchNumbered(s, i);
    ReceiveFrame(Switch(s, i), i);
    ResendNumbered(Receive(Switch(s, i), i), i.resend);
  }

  lemma ResendNumbered(s: State, ticks: Ticks)
    requires Numbered(s)
    ensures Numbered(Resend(s, ticks))
  {
    RepeatNumbered(s, ticks.first, VERSION_SYNC_BEP, ALL_SERVERS);
    var t := if s.probe.serverCmd then s else Repeat(Look(s, ticks.first), VERSION_SYNC_BEP, ALL_SERVERS);
    RepeatNumbered(t, ticks.second, READY_SYNC_REQ, t.serverNo);
  }

  lemma {:induction false} RunNumbered(s: State, inputs: seq<Input>)
    requires Numbered(s)
    ensures Numbered(Run(s, inputs))
    decreases |inputs|
  {
    if inputs != [] {
      IterateNumbered(s, inputs[0]);
      RunNumbered(Iterate(s, inputs[0]), inputs[1..]);
    }
  }

  /** Over every run the requests are numbered from 1 on without a gap, so two of them carry the same number only
    * 2^32 requests apart, and a response with the current number can only answer the latest one. */
  lemma RequestsAreNumbered(devNo: int, inputs: seq<Input>)
    ensures Numbered(Run(Initial(devNo), inputs))
  {
    RunNumbered(Initial(devNo), inputs);
  }

  lemma SameNumberIffFarApart(s: State, j: nat, k: nat)
    requires Numbered(s) && j < k < |s.requests|
    ensures s.requests[j].sequence == s.requests[k].sequence <==> (k - j) % U32 == 0
  {
    NumbersAgree(j + 1, k + 1);
  }

  lemma NumbersAgree(a: nat, b: nat)
    requires a <= b
    ensures a % U32 == b % U32 <==> (b - a) % U32 == 0
  {
    var q := b / U32 - a / U32;
    assert b - a == q * U32 + (b % U32 - a % U32);
  }

  // ---------- Progress needs answers ----------

  /** What the network answered: probe responses of servers 1 and 2 since phase 1 began, and the flag, a byte, in the last
    * one of each. */
  datatype History = History(one: nat, two: nat, flagOne: int, flagTwo: int)

  const NOTHING_YET := History(0, 0, 0, 0)

  /** The packet answers the latest request and is met while the alarm still runs. */
  predicate InTime(s: State, i: Input) {
    && i.packet.Some? && i.packet.value.sequence == s.serial
    && Tick(s.alarm, i.receive.first).timeout == 0
  }

  function Begin(h: History, s: State, t: State): History {
    if s.phase == 0 && t.phase == 1 then NOTHING_YET else h
  }

  function NoteProbe(h: History, p: Packet): History {
    if p.tagged && p.src == 1 then h.(one := h.one + 1, flagOne := p.ipFlag % 256)
    else if p.tagged && p.src == 2 then h.(two := h.two + 1, flagTwo := p.ipFlag % 256)
    else h
  }

  function Note(h: History, s: State, i: Input): History {
    if !InTime(s, i) then h
    else if s.phase == 1 && IsProbeResponse(i.packet.value) then NoteProbe(h, i.packet.value)
    else h
  }

  function Observe(h: History, s: State, i: Input): History {
    Note(Begin(h, s, Switch(s, i)), Switch(s, i), i)
  }

  function RunHistory(h: History, s: State, inputs: seq<Input>): History
    decreases |inputs|
  {
    if inputs == [] then h
    else RunHistory(Observe(h, s, inputs[0]), Iterate(s, inputs[0]), inputs[1..])
  }

  /** The packet carries the tag and comes from server 1 or 2. */
  predicate FromServer(p: Packet) {
    p.tagged && (p.src == 1 || p.src == 2)
  }

  predicate Honest(i: Input) {
    i.packet.Some? && IsProbeResponse(i.packet.value) ==> FromServer(i.packet.value)
  }

  predicate AllHonest(inputs: seq<Input>) {
    forall k :: 0 <= k < |inputs| ==> Honest(inputs[k])
  }

  /** Probe responses accepted in phase 1. */
  function Accepted(p: Probing): int {
    if p.netOk then p.detect + 1 else p.detect
  }

  predicate CountsExplained(h: History, ccu: Servers) {
    && ccu[1] == Ccu(h.flagOne, h.one) && ccu[2] == Ccu(h.flagTwo, h.two)
    && (h.flagOne != 0 ==> h.one > 0) && (h.flagTwo != 0 ==> h.two > 0)
  }

  predicate ProbesExplained(h: History, p: Probing, honest: bool) {
    && CountsExplained(h, p.ccu)
    && h.one + h.two <= Accepted(p) <= 6 && (honest ==> h.one + h.two == Accepted(p))
  }

  predicate Explained(h: History, s: State, honest: bool) {
    && (s.phase == 0 ==> s.probe.detect == 0)
    && (s.phase == 1 ==> ProbesExplained(h, s.probe, honest))
  }

  lemma SwitchExplained(h: History, s: State, i: Input, honest: bool)
    requires Inv(s) && Explained(h, s, honest)
    ensures Explained(Begin(h, s, Switch(s, i)), Switch(s, i), honest)
  {
    SwitchKeepsCompletion(s, i);
    if s.phase == 3 {
      PollTableFrame(if s.table.timeouts >= 10 then Reset(s) else s, i.table);
    }
  }

  lemma CountExplained(h: History, s: State, p: Packet)
    requires CountsExplained(h, s.probe.ccu) && h.one <= 6 && h.two <= 6
    ensures CountsExplained(NoteProbe(h, p), CountAnswer(s, p).probe.ccu)
  {
  }

  /** One accepted response moves the count of its server and the number of responses together. */
  lemma AcceptedExplained(h: History, s: State, p: Packet, honest: bool)
    requires s.phase == 1 && s.probe.detect <= 5 && !s.probe.netOk && ProbesExplained(h, s.probe, honest)
    requires honest ==> FromServer(p)
    ensures ProbesExplained(NoteProbe(h, p), ProbeAnswered(CountAnswer(s, p)).probe, honest)
  {
    CountExplained(h, s, p);
    var t := CountAnswer(s, p);
    assert Accepted(ProbeAnswered(t).probe) == Accepted(s.probe) + 1;
    assert ProbeAnswered(t).probe.ccu == t.probe.ccu;
  }

  lemma ProbeExplained(h: History, s: State, i: Input, honest: bool)
    requires Switched(s) && Explained(h, s, honest) && (honest ==> Honest(i))
    requires i.packet.Some? && IsProbeResponse(i.packet.value)
    ensures Explained(Note(h, s, i), ProbeResponse(s, i.packet.value, i.receive), honest)
  {
    LookKeepsInv(s, i.receive.first);
    if InTime(s, i) && s.phase == 1 {
      AcceptedExplained(h, Look(s, i.receive.first), i.packet.value, honest);
    }
  }

  lemma ReceiveExplained(h: History, s: State, i: Input, honest: bool)
    requires Switched(s) && Explained(h, s, honest) && (honest ==> Honest(i))
    ensures Explained(Note(h, s, i), Receive(s, i), honest)
  {
    if i.packet.Some? {
      if IsProbeResponse(i.packet.value) {
        ProbeExplained(h, s, i, honest);
      }
    }
  }

  lemma IterateExplained(h: History, s: State, i: Input, honest: bool)
    requires Inv(s) && Explained(h, s, honest) && (honest ==> Honest(i))
    ensures Explained(Observe(h, s, i), Iterate(s, i), honest)
  {
    SwitchKeepsInv(s, i);
    SwitchExplained(h, s, i, honest);
    ReceiveExplained(Begin(h, s, Switch(s, i)), Switch(s, i), i, honest);
    ResendFrame(Receive(Switch(s, i), i), i.resend);
  }

  lemma {:induction false} RunExplained(h: History, s: State, inputs: seq<Input>, honest: bool)
    requires Inv(s) && Explained(h, s, honest) && (honest ==> AllHonest(inputs))
    ensures Inv(Run(s, inputs)) && Explained(RunHistory(h, s, inputs), Run(s, inputs), honest)
    decreases |inputs|
  {
    if inputs != [] {
      IterateKeepsInv(s, inputs[0]);
      IterateExplained(h, s, inputs[0], honest);
      RunExplained(Observe(h, s, inputs[0]), Iterate(s, inputs[0]), inputs[1..], honest);
    }
  }

  // ---------- Which requests were answered ----------

  /** READY requests and their answers since phase 2 began.  `base` requests had been built by then, the last of them
    * the first READY request; `expired` counts how often the alarm had expired at the end of a turn; `at` holds, for
    * each answer counted, the value of `expired` when it came. */
  datatype Answers = Answers(base: nat, expired: nat, at: seq<nat>)

  const NO_ANSWER_YET := Answers(0, 0, [])

  function BeginAnswers(a: Answers, s: State, t: State): Answers {
    if s.phase == 1 && t.phase == 2 then Answers(|t.requests|, 0, []) else a
  }

  function NoteAnswer(a: Answers, s: State, i: Input): Answers {
    if InTime(s, i) && s.phase == 2 && IsReadyResponse(i.packet.value) then a.(at := a.at + [a.expired]) else a
  }

  function NoteExpiry(a: Answers, s: State, ticks: Ticks): Answers {
    if s.phase == 2 && Tick(s.alarm, ticks.second).timeout == 1 then a.(expired := a.expired + 1) else a
  }

  function Track(a: Answers, s: State, i: Input): Answers {
    var t := Switch(s, i);
    NoteExpiry(NoteAnswer(BeginAnswers(a, s, t), t, i), Receive(t, i), i.resend)
  }

  function RunAnswers(a: Answers, s: State, inputs: seq<Input>): Answers
    decreases |inputs|
  {
    if inputs == [] then a
    else RunAnswers(Track(a, s, inputs[0]), Iterate(s, inputs[0]), inputs[1..])
  }

  predicate Ascending(at: seq<nat>, limit: nat) {
    && (forall j, k :: 0 <= j < k < |at| ==> at[j] <= at[k])
    && (forall k :: 0 <= k < |at| ==> at[k] <= limit)
  }

  predicate AllReady(requests: seq<Request>, from: nat, server: int) {
    forall j :: from <= j < |requests| ==> requests[j].mask == READY_SYNC_REQ && requests[j].dest == server
  }

  /** In phase 2 every expiry repeats the READY request and nothing else builds one, so an answer that comes after
    * n expiries is the answer to request `base + n - 1`, counted from 0. */
  predicate Tracked(a: Answers, s: State) {
    s.phase == 2 ==>
      && s.probe.serverCmd && !s.ready.req && s.ready.responses == |a.at|
      && a.base > 0 && |s.requests| == a.base + a.expired
      && Ascending(a.at, a.expired) && AllReady(s.requests, a.base - 1, s.serverNo)
  }

  lemma SwitchTracked(a: Answers, s: State, i: Input)
    requires Inv(s) && Tracked(a, s)
    ensures Tracked(BeginAnswers(a, s, Switch(s, i)), Switch(s, i))
  {
    SwitchKeepsCompletion(s, i);
  }

  lemma AnswerTracked(a: Answers, s: State, i: Input)
    requires Switched(s) && Tracked(a, s)
    ensures Tracked(NoteAnswer(a, s, i), Receive(s, i))
  {
    if i.packet.Some? && s.phase == 2 {
      ReceiveFrame(s, i);
      ReceiveKeepsServer(s, i);
      if IsReadyResponse(i.packet.value) {
        ReadyInPhaseTwo(s, i.packet.value, i.receive);
      } else if IsProbeResponse(i.packet.value) {
        ProbeMoves(s, i.packet.value, i.receive);
      }
    }
  }

  lemma ExpiryTracked(a: Answers, s: State, ticks: Ticks)
    requires Tracked(a, s)
    ensures Tracked(NoteExpiry(a, s, ticks), Resend(s, ticks))
  {
    ResendFrame(s, ticks);
  }

  lemma {:induction false} RunTracked(a: Answers, s: State, inputs: seq<Input>)
    requires Inv(s) && Tracked(a, s)
    ensures Inv(Run(s, inputs)) && Tracked(RunAnswers(a, s, inputs), Run(s, inputs))
    decreases |inputs|
  {
    if inputs != [] {
      var i := inputs[0];
      var t := Switch(s, i);
      var b := BeginAnswers(a, s, t);
      IterateKeepsInv(s, i);
      SwitchKeepsInv(s, i);
      SwitchTracked(a, s, i);
      AnswerTracked(b, t, i);
      ExpiryTracked(NoteAnswer(b, t, i), Receive(t, i), i.resend);
      RunTracked(Track(a, s, i), Iterate(s, i), inputs[1..]);
    }
  }

  /** The positions of the requests that were answered. */
  function AnsweredRequests(a: Answers): set<int> {
    set k | 0 <= k < |a.at| :: a.base - 1 + a.at[k]
  }

  /** Tables are awaited only after exactly three in-time READY responses since phase 2 began.  Each answers a READY
    * request, one of those built since then; they answer as many different ones as there are expiries of the alarm
    * that separate them, and three different ones if and only if the alarm expired between each two of them. */
  lemma TablesNeedThreeReadyResponses(devNo: int, inputs: seq<Input>, i: Input)
    ensures var s, a := Run(Initial(devNo), inputs), RunAnswers(NO_ANSWER_YET, Initial(devNo), inputs);
            s.phase != 3 && Iterate(s, i).phase == 3 ==>
              && s.phase == 2 && |a.at| == 3 && a.at[0] <= a.at[1] <= a.at[2]
              && (forall k :: k in AnsweredRequests(a) ==>
                    && 0 <= k < |s.requests|
                    && s.requests[k].mask == 254 && s.requests[k].dest == s.serverNo)
              && |AnsweredRequests(a)| ==
                   1 + (if a.at[0] < a.at[1] then 1 else 0) + (if a.at[1] < a.at[2] then 1 else 0)
              && (|AnsweredRequests(a)| == 3 <==> a.at[0] < a.at[1] < a.at[2])
  {
    RunTracked(NO_ANSWER_YET, Initial(devNo), inputs);
    var s, a := Run(Initial(devNo), inputs), RunAnswers(NO_ANSWER_YET, Initial(devNo), inputs);
    IterateKeepsInv(s, i);
    SwitchKeepsCompletion(s, i);
    if s.phase != 3 && Iterate(s, i).phase == 3 {
      ThreeAnswers(a);
    }
  }

  lemma ThreeAnswers(a: Answers)
    requires |a.at| == 3 && a.at[0] <= a.at[1] <= a.at[2]
    ensures |AnsweredRequests(a)| ==
            1 + (if a.at[0] < a.at[1] then 1 else 0) + (if a.at[1] < a.at[2] then 1 else 0)
  {
    var x, y, z := a.base - 1 + a.at[0], a.base - 1 + a.at[1], a.base - 1 + a.at[2];
    assert AnsweredRequests(a) == {x, y, z};
  }

  /** So three copies of one response are enough: if the alarm never expires in phase 2, one request was answered. */
  lemma OneRequestIsEnough(devNo: int, inputs: seq<Input>, i: Input)
    ensures var s, a := Run(Initial(devNo), inputs), RunAnswers(NO_ANSWER_YET, Initial(devNo), inputs);
            s.phase != 3 && Iterate(s, i).phase == 3 && a.expired == 0 ==> |AnsweredRequests(a)| == 1
  {
    TablesNeedThreeReadyResponses(devNo, inputs, i);
    RunTracked(NO_ANSWER_YET, Initial(devNo), inputs);
  }

  lemma CopyIsCounted(s: State, p: Packet)
    requires Inv(s) && s.phase == 2 && s.probe.serverCmd && s.alarm == ENABLED && !s.ready.req
    requires s.ready.responses < 3 && s.ready.timeouts == 0 && IsReadyResponse(p) && p.sequence == s.serial
    ensures Iterate(s, QUIET.(packet := Some(p)))
            == s.(ready := s.ready.(responses := s.ready.responses + 1))
  {
  }

  /** It does happen: three copies of one response, received while the alarm runs, and the next turn awaits tables,
    * with no request built in between. */
  lemma ThreeCopiesSuffice(s: State, p: Packet, i: Input)
    requires Inv(s) && s.phase == 2 && s.probe.serverCmd && s.alarm == ENABLED && s.ready == NO_READYING
    requires IsReadyResponse(p) && p.sequence == s.serial
    ensures var copy := QUIET.(packet := Some(p));
            var t := Iterate(Iterate(Iterate(s, copy), copy), copy);
            t.requests == s.requests && Switch(t, i).phase == 3
  {
    var copy := QUIET.(packet := Some(p));
    var t1 := Iterate(s, copy);
    CopyIsCounted(s, p);
    var t2 := Iterate(t1, copy);
    CopyIsCounted(t1, p);
    CopyIsCounted(t2, p);
  }

  predicate Answered(h: History, no: int) {
    (no == 1 && h.one > 0) || (no == 2 && h.two > 0)
  }

  /** The choice of the server, over every run: the one that is asked for the tables has answered a probe since
    * phase 1 began if and only if any tagged answer of server 1 or 2 was accepted, and it is the same-numbered
    * server whenever that one answered. */
  lemma ServerChoice(devNo: int, inputs: seq<Input>, i: Input)
    requires var s := Run(Initial(devNo), inputs); s.phase == 1 && Switch(s, i).phase == 2
    ensures var h, no := RunHistory(NOTHING_YET, Initial(devNo), inputs),
                         Switch(Run(Initial(devNo), inputs), i).serverNo;
            && (Answered(h, no) <==> h.one + h.two > 0)
            && (devNo in {1, 2} && Answered(h, devNo) ==> no == devNo)
            && (AllHonest(inputs) ==> h.one + h.two == 6 && Answered(h, no))
    ensures var s, t := Run(Initial(devNo), inputs), Switch(Run(Initial(devNo), inputs), i);
            t.requests == s.requests + [Request(READY_SYNC_REQ, t.serverNo, t.serial)]
  {
    RunKeepsDevNo(Initial(devNo), inputs);
    RunExplained(NOTHING_YET, Initial(devNo), inputs, AllHonest(inputs));
    ChosenAnswered(RunHistory(NOTHING_YET, Initial(devNo), inputs), Run(Initial(devNo), inputs), AllHonest(inputs));
  }

  lemma ChosenAnswered(h: History, s: State, honest: bool)
    requires Inv(s) && s.phase == 1 && s.probe.netOk && ProbesExplained(h, s.probe, honest)
    ensures var no := ChooseServer(s).serverNo;
            && (Answered(h, no) <==> h.one + h.two > 0)
            && (s.devNo in {1, 2} && Answered(h, s.devNo) ==> no == s.devNo)
            && (honest ==> h.one + h.two == 6)
  {
  }

  lemma {:induction false} RunKeepsDevNo(s: State, inputs: seq<Input>)
    requires Inv(s)
    ensures Run(s, inputs).devNo == s.devNo
    decreases |inputs|
  {
    if inputs != [] {
      IterateKeepsInv(s, inputs[0]);
      IterateStores(s, inputs[0]);
      RunKeepsDevNo(Iterate(s, inputs[0]), inputs[1..]);
    }
  }

  // ---------- What is requested ----------

  /** The alarm is found expired when it is looked at. */
  predicate Expires(a: Alarm, fires: bool) {
    a.timeout == 1 || (a.enabled && fires)
  }

  /** What is built at the end of a turn: a probe to all servers (251), if no probe was answered yet and the alarm has
    * expired; then READY to the chosen server, unless it is silenced, if the alarm, perhaps just restarted, has
    * expired again. */
  lemma RequestsAtEndOfTurn(u: State, ticks: Ticks)
    requires Inv(u)
    ensures var t := Resend(u, ticks);
            var probe := !u.probe.serverCmd && Expires(u.alarm, ticks.first);
            var ready := !u.ready.req && (if probe then ticks.second else Expires(u.alarm, ticks.second));
            var probes := if probe then [Request(2, 251, (u.serial + 1) % U32)] else [];
            var serial := if probe then (u.serial + 1) % U32 else u.serial;
            && t.requests == u.requests + probes +
                             (if ready then [Request(254, u.serverNo, (serial + 1) % U32)] else [])
            && t.serverNo == u.serverNo
  {
  }

  /** What is built in front of the packet: READY to the server just chosen, when phase 1 has found the network good. */
  lemma RequestsOfSwitch(s: State, i: Input)
    requires Inv(s)
    ensures var t := Switch(s, i);
            && t.requests == s.requests + (if s.phase == 1 && s.probe.netOk
                                           then [Request(254, t.serverNo, (s.serial + 1) % U32)] else [])
            && (s.phase != 1 ==> t.serverNo == s.serverNo)
  {
    if s.phase == 3 {
      PollTableFrame(if s.table.timeouts >= 10 then Reset(s) else s, i.table);
      PollKeepsServer(if s.table.timeouts >= 10 then Reset(s) else s, i.table);
    }
  }

  lemma PollKeepsServer(s: State, ticks: Ticks)
    ensures PollTable(s, ticks).serverNo == s.serverNo
  {
  }

  lemma ReceiveKeepsServer(s: State, i: Input)
    ensures Receive(s, i).serverNo == s.serverNo
  {
    if i.packet.Some? {
      if IsProbeResponse(i.packet.value) {
        ProbeKeepsServer(s, i.packet.value, i.receive);
      } else if IsReadyResponse(i.packet.value) {
        ReadyKeepsServer(s, i.packet.value, i.receive);
      }
    }
  }

  lemma ProbeKeepsServer(s: State, p: Packet, ticks: Ticks)
    ensures ProbeResponse(s, p, ticks).serverNo == s.serverNo
  {
  }

  lemma ReadyKeepsServer(s: State, p: Packet, ticks: Ticks)
    ensures ReadyResponse(s, p, ticks).serverNo == s.serverNo
  {
  }

  /** A probe to all, or READY to the given server. */
  predicate ProbeOrReadyTo(r: Request, server: int) {
    (r.mask == 2 && r.dest == 251) || (r.mask == 254 && r.dest == server)
  }

  predicate Match(requests: seq<Request>, servers: seq<int>) {
    |requests| == |servers| && forall j :: 0 <= j < |requests| ==> ProbeOrReadyTo(requests[j], servers[j])
  }

  lemma MatchJoin(a: seq<Request>, b: seq<Request>, x: seq<int>, y: seq<int>)
    requires Match(a, x) && Match(b, y)
    ensures Match(a + b, x + y)
  {
  }

  function Repeated(server: int, n: int): (servers: seq<int>)
    ensures n >= 0 ==> |servers| == n && forall j :: 0 <= j < n ==> servers[j] == server
  {
    if n <= 0 then [] else [server] + Repeated(server, n - 1)
  }

  lemma SwitchAdds(s: State, i: Input) returns (added: seq<Request>)
    requires Inv(s)
    ensures Switch(s, i).requests == s.requests + added && |added| <= 1
    ensures added != [] ==> ProbeOrReadyTo(added[0], Switch(s, i).serverNo)
  {
    RequestsOfSwitch(s, i);
    if s.phase == 1 && s.probe.netOk {
      added := [Request(254, Switch(s, i).serverNo, (s.serial + 1) % U32)];
    } else {
      added := [];
    }
  }

  lemma EndAdds(u: State, ticks: Ticks) returns (added: seq<Request>)
    requires Inv(u)
    ensures Resend(u, ticks).requests == u.requests + added && Resend(u, ticks).serverNo == u.serverNo
    ensures |added| <= 2
    ensures |added| > 0 ==> ProbeOrReadyTo(added[0], u.serverNo)
    ensures |added| > 1 ==> ProbeOrReadyTo(added[1], u.serverNo)
  {
    RequestsAtEndOfTurn(u, ticks);
    var probe := !u.probe.serverCmd && Expires(u.alarm, ticks.first);
    var ready := !u.ready.req && (if probe then ticks.second else Expires(u.alarm, ticks.second));
    var serial := if probe then (u.serial + 1) % U32 else u.serial;
    var probes := if probe then [Request(2, 251, (u.serial + 1) % U32)] else [];
    var readies := if ready then [Request(254, u.serverNo, (serial + 1) % U32)] else [];
    assert u.requests + probes + readies == u.requests + (probes + readies);
    added := probes + readies;
  }

  lemma AddsJoin(before: seq<Request>, a: seq<Request>, b: seq<Request>, server: int)
    requires forall j :: 0 <= j < |a| ==> ProbeOrReadyTo(a[j], server)
    requires forall j :: 0 <= j < |b| ==> ProbeOrReadyTo(b[j], server)
    ensures before + a + b == before + (a + b) && Match(a + b, Repeated(server, |a + b|))
  {
  }

  lemma TurnAdds(s: State, i: Input) returns (a: seq<Request>, b: seq<Request>, server: int)
    requires Inv(s)
    ensures Iterate(s, i).requests == s.requests + a + b && Iterate(s, i).serverNo == server
    ensures |a| <= 1 && |b| <= 2
    ensures |a| > 0 ==> ProbeOrReadyTo(a[0], server)
    ensures |b| > 0 ==> ProbeOrReadyTo(b[0], server)
    ensures |b| > 1 ==> ProbeOrReadyTo(b[1], server)
  {
    var u := Switch(s, i);
    SwitchKeepsInv(s, i);
    ReceiveKeepsInv(u, i);
    a := SwitchAdds(s, i);
    ReceiveFrame(u, i);
    ReceiveKeepsServer(u, i);
    b := EndAdds(Receive(u, i), i.resend);
    server := u.serverNo;
  }

  /** The requests that a turn adds. */
  lemma TurnRequests(s: State, i: Input) returns (added: seq<Request>)
    requires Inv(s)
    ensures Iterate(s, i).requests == s.requests + added
    ensures Match(added, Repeated(Iterate(s, i).serverNo, |added|))
  {
    var a, b, server := TurnAdds(s, i);
    AddsJoin(s.requests, a, b, server);
    added := a + b;
  }

  /** The server that is the chosen one when each request is built, at the end of its turn. */
  function ServersInCharge(s: State, inputs: seq<Input>): (servers: seq<int>)
    decreases |inputs|
  {
    if inputs == [] then []
    else
      var t := Iterate(s, inputs[0]);
      Repeated(t.serverNo, |t.requests| - |s.requests|) + ServersInCharge(t, inputs[1..])
  }

  lemma {:induction false} RunRequests(s: State, inputs: seq<Input>) returns (added: seq<Request>)
    requires Inv(s)
    ensures Run(s, inputs).requests == s.requests + added && Match(added, ServersInCharge(s, inputs))
    decreases |inputs|
  {
    if inputs == [] {
      added := [];
    } else {
      IterateKeepsInv(s, inputs[0]);
      var now := TurnRequests(s, inputs[0]);
      var t := Iterate(s, inputs[0]);
      var rest := RunRequests(t, inputs[1..]);
      RequestsJoin(s.requests, now, rest, t.serverNo, ServersInCharge(t, inputs[1..]));
      added := now + rest;
    }
  }

  lemma RequestsJoin(before: seq<Request>, now: seq<Request>, rest: seq<Request>, server: int, servers: seq<int>)
    requires Match(now, Repeated(server, |now|)) && Match(rest, servers)
    ensures before + now + rest == before + (now + rest)
    ensures Match(now + rest, Repeated(server, |before + now| - |before|) + servers)
  {
    MatchJoin(now, rest, Repeated(server, |now|), servers);
  }

  /** Over every run each request is a probe to all servers or READY to the server chosen by then. */
  lemma EveryRequestIsProbeOrReady(devNo: int, inputs: seq<Input>)
    ensures var requests := Run(Initial(devNo), inputs).requests;
            var servers := ServersInCharge(Initial(devNo), inputs);
            |requests| == |servers| && forall j :: 0 <= j < |requests| ==> ProbeOrReadyTo(requests[j], servers[j])
  {
    var added := RunRequests(Initial(devNo), inputs);
    assert [] + added == added;
  }

  /** While phases 0 and 1 wait for answers, an expiry asks all servers once more, and nobody else as long as the alarm
    * does not expire again at once. */
  lemma ExpiryProbesAllServers(s: State, i: Input)
    requires Inv(s) && ((s.phase == 0 && !s.probe.bep) || (s.phase == 1 && !s.probe.netOk))
    requires i.packet == None && Expires(s.alarm, i.resend.first) && !i.resend.second
    ensures var t := Iterate(s, i);
            && t.phase == s.phase && t.alarm == ENABLED
            && t.requests == s.requests + [Request(2, 251, (s.serial + 1) % U32)]
  {
    RequestsAtEndOfTurn(s, i.resend);
  }

  /** In phase 2 an expiry asks the chosen server once more, and nobody else. */
  lemma ExpiryRepeatsReady(s: State, i: Input)
    requires Inv(s) && s.phase == 2 && s.probe.serverCmd && s.ready.responses < 3 && s.ready.timeouts < 10
    requires i.packet == None && Expires(s.alarm, i.resend.second)
    ensures var t := Iterate(s, i);
            && t.phase == 2 && t.alarm == ENABLED
            && t.requests == s.requests + [Request(254, s.serverNo, (s.serial + 1) % U32)]
  {
    RequestsAtEndOfTurn(s, i.resend);
  }

  // ---------- Exactly when the phases change ----------

  /** What an observer of the packets and the alarm has seen: `heard`, whether a probe was answered in time since
    * power-up or the last fallback; in-time probe responses since phase 1 began; in-time and late READY responses since
    * phase 2 began; expiries without a row since phase 3 began; whether a row came since the last turn of phase 3 with the
    * alarm on, or the last fallback; and whether tables were awaited and no rest came since. */
  datatype Seen = Seen(heard: bool, answers: nat, counted: nat, late: nat, missed: nat, row: bool, updating: bool)

  const NOTHING_SEEN := Seen(false, 0, 0, 0, 0, false, false)

  function SeeMove(w: Seen, s: State, t: State): Seen {
    if s.phase == 0 && t.phase == 1 then w.(answers := 0)
    else if s.phase == 1 && t.phase == 2 then w.(counted := 0, late := 0)
    else if s.phase == 2 && t.phase == 3 then w.(missed := 0, updating := true)
    else if s.phase >= 2 && t.phase == 0 then w.(heard := false, row := false)
    else if s.phase == 4 && t.phase == 5 then w.(updating := false)
    else w
  }

  function SeeWait(w: Seen, s: State, t: State, i: Input): Seen {
    if s.phase == 3 && t.phase == 3 then
      w.(missed := w.missed + (if Expires(s.alarm, i.table.first) && !w.row then 1 else 0),
         row := w.row && !s.alarm.enabled)
    else w
  }

  function SeePacket(w: Seen, t: State, i: Input): Seen {
    if i.packet == None then w
    else if IsProbeResponse(i.packet.value) && InTime(t, i) then
      w.(heard := true, answers := w.answers + if t.phase == 1 then 1 else 0)
    else if IsTable(i.packet.value) then w.(row := true)
    else if IsReadyResponse(i.packet.value) && t.phase == 2 then
      if InTime(t, i) then w.(counted := w.counted + 1)
      else if t.ready.responses == 0 && Expires(Tick(t.alarm, i.receive.first), i.receive.second)
      then w.(late := w.late + 1)
      else w
    else w
  }

  function See(w: Seen, s: State, i: Input): Seen {
    var t := Switch(s, i);
    SeePacket(SeeWait(SeeMove(w, s, t), s, t, i), t, i)
  }

  function RunSeen(w: Seen, s: State, inputs: seq<Input>): Seen
    decreases |inputs|
  {
    if inputs == [] then w else RunSeen(See(w, s, inputs[0]), Iterate(s, inputs[0]), inputs[1..])
  }

  predicate Witnessed(w: Seen, s: State) {
    && (s.phase < 4 ==> s.probe.bep == w.heard)
    && (s.phase == 0 ==> s.probe.detect == 0)
    && (s.phase == 1 ==> w.answers == (if s.probe.netOk then 6 else s.probe.detect))
    && (s.phase == 2 ==> s.ready.responses == w.counted && s.ready.timeouts == w.late)
    && (s.phase == 3 ==> s.table.timeouts == w.missed)
    && s.table.flag == w.row
    && s.updateStart == (if w.updating then 1 else 0)
  }

  lemma PollWitnessed(s: State, ticks: Ticks)
    requires Inv(s)
    ensures var t := PollTable(s, ticks);
            && t.phase == s.phase && t.probe == s.probe && t.updateStart == s.updateStart
            && t.table.timeouts == s.table.timeouts + (if Expires(s.alarm, ticks.first) && !s.table.flag then 1 else 0)
            && t.table.flag == (s.table.flag && !s.alarm.enabled)
  {
  }

  lemma SwitchWitnessed(w: Seen, s: State, i: Input)
    requires Inv(s) && Witnessed(w, s)
    ensures var t := Switch(s, i); Witnessed(SeeWait(SeeMove(w, s, t), s, t, i), t)
  {
    if s.phase == 3 {
      var r := if s.table.timeouts >= 10 then Reset(s) else s;
      assert Inv(r);
      PollWitnessed(r, i.table);
    }
  }

  lemma ProbeMoves(t: State, p: Packet, ticks: Ticks)
    requires Switched(t)
    ensures var r := ProbeResponse(t, p, ticks);
            var inTime := p.sequence == t.serial && Tick(t.alarm, ticks.first).timeout == 0;
            && r.phase == t.phase && r.ready == t.ready && r.table == t.table && r.updateStart == t.updateStart
            && r.probe.bep == (t.probe.bep || inTime) && (t.phase != 1 && t.probe.serverCmd ==> r.probe.serverCmd)
            && (t.phase != 1 || !inTime ==> r.probe.detect == t.probe.detect && r.probe.netOk == t.probe.netOk)
            && (t.phase == 1 && inTime ==>
                  if t.probe.detect >= 5 then r.probe.netOk && r.probe.detect == t.probe.detect
                  else r.probe.netOk == t.probe.netOk && r.probe.detect == t.probe.detect + 1)
  {
  }

  lemma ProbeWitnessed(w: Seen, t: State, i: Input)
    requires Switched(t) && Witnessed(w, t) && i.packet.Some? && IsProbeResponse(i.packet.value)
    ensures Witnessed(SeePacket(w, t, i), ProbeResponse(t, i.packet.value, i.receive))
  {
    ProbeMoves(t, i.packet.value, i.receive);
  }

  lemma ReadyInPhaseTwo(t: State, p: Packet, ticks: Ticks)
    requires Switched(t) && t.phase == 2
    ensures var r := ReadyResponse(t, p, ticks);
            var inTime := p.sequence == t.serial && Tick(t.alarm, ticks.first).timeout == 0;
            && r.phase == 2 && r.probe == t.probe && r.updateStart == t.updateStart && r.table == t.table
            && (!t.ready.req ==> !r.ready.req)
            && r.ready.responses == t.ready.responses + (if inTime then 1 else 0)
            && r.ready.timeouts == t.ready.timeouts +
                 if !inTime && t.ready.responses == 0 && Expires(Tick(t.alarm, ticks.first), ticks.second) then 1 else 0
  {
  }

  lemma ReadyElsewhere(t: State, p: Packet, ticks: Ticks)
    requires t.phase != 2
    ensures var r := ReadyResponse(t, p, ticks);
            && r.phase == t.phase && r.probe == t.probe && r.updateStart == t.updateStart && r.table == t.table
  {
  }

  lemma ReadyWitnessed(w: Seen, t: State, i: Input)
    requires Switched(t) && Witnessed(w, t) && i.packet.Some? && IsReadyResponse(i.packet.value)
    ensures Witnessed(SeePacket(w, t, i), ReadyResponse(t, i.packet.value, i.receive))
  {
    if t.phase == 2 {
      ReadyInPhaseTwo(t, i.packet.value, i.receive);
    } else {
      ReadyElsewhere(t, i.packet.value, i.receive);
    }
  }

  lemma ReceiveWitnessed(w: Seen, t: State, i: Input)
    requires Switched(t) && Witnessed(w, t)
    ensures Witnessed(SeePacket(w, t, i), Receive(t, i))
  {
    if i.packet.Some? {
      if IsProbeResponse(i.packet.value) {
        ProbeWitnessed(w, t, i);
      } else if IsReadyResponse(i.packet.value) {
        ReadyWitnessed(w, t, i);
      }
    }
  }

  lemma ResendKeepsUpdateStart(s: State, ticks: Ticks)
    ensures Resend(s, ticks).updateStart == s.updateStart && Resend(s, ticks).table == s.table
  {
  }

  lemma {:induction false} RunWitnessed(w: Seen, s: State, inputs: seq<Input>)
    requires Inv(s) && Witnessed(w, s)
    ensures Inv(Run(s, inputs)) && Witnessed(RunSeen(w, s, inputs), Run(s, inputs))
    decreases |inputs|
  {
    if inputs != [] {
      var i := inputs[0];
      var t := Switch(s, i);
      var v := SeeWait(SeeMove(w, s, t), s, t, i);
      IterateKeepsInv(s, i);
      SwitchKeepsInv(s, i);
      SwitchWitnessed(w, s, i);
      ReceiveWitnessed(v, t, i);
      ResendFrame(Receive(t, i), i.resend);
      ResendKeepsUpdateStart(Receive(t, i), i.resend);
      RunWitnessed(See(w, s, i), Iterate(s, i), inputs[1..]);
    }
  }

  /** Over every run from power-up, and short of an END packet, the next turn moves the phase exactly so: to 1 once a probe
    * was answered; to 2 after six answers, if the queue takes the request; back to 0 after ten late READY responses, and
    * else to 3 after three in-time ones; back to 0 after ten expiries without a row; and from 4 to 5. */
  lemma PhasesMoveExactlyWhen(devNo: int, inputs: seq<Input>, i: Input)
    requires !Ends(i)
    ensures var s, w := Run(Initial(devNo), inputs), RunSeen(NOTHING_SEEN, Initial(devNo), inputs);
            Iterate(s, i).phase ==
              match s.phase
              case 0 => if w.heard then 1 else 0
              case 1 => if w.answers == 6 && i.sendOk then 2 else 1
              case 2 => if w.late == 10 then 0 else if w.counted == 3 then 3 else 2
              case 3 => if w.missed == 10 then 0 else 3
              case _ => 5
  {
    RunWitnessed(NOTHING_SEEN, Initial(devNo), inputs);
    var s := Run(Initial(devNo), inputs);
    IterateKeepsInv(s, i);
    if s.phase == 3 {
      var r := if s.table.timeouts >= 10 then Reset(s) else s;
      assert Inv(r);
      PollWitnessed(r, i.table);
    }
  }

  /** update_start is 1 from the moment tables are first awaited until the sync comes to rest. */
  lemma UpdateStartTells(devNo: int, inputs: seq<Input>)
    ensures var s, w := Run(Initial(devNo), inputs), RunSeen(NOTHING_SEEN, Initial(devNo), inputs);
            s.updateStart == (if w.updating then 1 else 0) && (s.phase == 3 ==> s.updateStart == 1)
  {
    RunWitnessed(NOTHING_SEEN, Initial(devNo), inputs);
    RunUpdates(NOTHING_SEEN, Initial(devNo), inputs);
  }

  lemma {:induction false} RunUpdates(w: Seen, s: State, inputs: seq<Input>)
    requires Inv(s) && (s.phase == 3 ==> w.updating)
    ensures Run(s, inputs).phase == 3 ==> RunSeen(w, s, inputs).updating
    decreases |inputs|
  {
    if inputs != [] {
      IterateKeepsInv(s, inputs[0]);
      SwitchKeepsCompletion(s, inputs[0]);
      RunUpdates(See(w, s, inputs[0]), Iterate(s, inputs[0]), inputs[1..]);
    }
  }

  /** The choice over every run for a box that is neither 1 nor 2: the server with more answers since phase 1 began, unless
    * that one is the primary (flag 1) and the other its backup (flag 2); in that case, and with a tie, it stays with the
    * server it would have asked before. */
  lemma ChosenByAnswers(devNo: int, inputs: seq<Input>, i: Input)
    requires devNo != 1 && devNo != 2
    requires var s := Run(Initial(devNo), inputs); s.phase == 1 && Switch(s, i).phase == 2
    ensures var s, h := Run(Initial(devNo), inputs), RunHistory(NOTHING_YET, Initial(devNo), inputs);
            var no := Switch(s, i).serverNo;
            && (h.one == h.two ==> no == s.serverNo)
            && (h.two > h.one ==> no == if h.flagOne == 2 && h.flagTwo == 1 then s.serverNo else 2)
            && (h.one > h.two ==> no == if h.flagOne == 1 && h.flagTwo == 2 then s.serverNo else 1)
  {
    RunKeepsDevNo(Initial(devNo), inputs);
    RunExplained(NOTHING_YET, Initial(devNo), inputs, false);
    ChosenFromCounts(Run(Initial(devNo), inputs), i);
  }

  lemma ChosenFromCounts(s: State, i: Input)
    requires Inv(s) && s.phase == 1 && s.probe.netOk && s.devNo != 1 && s.devNo != 2
    ensures var no := Switch(s, i).serverNo;
            var one, two := s.probe.ccu[1], s.probe.ccu[2];
            && (one.count == two.count ==> no == s.serverNo)
            && (two.count > one.count ==> no == if one.flag == 2 && two.flag == 1 then s.serverNo else 2)
            && (one.count > two.count ==> no == if one.flag == 1 && two.flag == 2 then s.serverNo else 1)
  {
  }

  // ---------- When the handshake can still move ----------

  /** The condition the switch looks at holds already. */
  predicate Moves(s: State) {
    match s.phase
    case 0 => s.probe.bep
    case 1 => s.probe.netOk
    case 2 => s.ready.responses >= 3 || s.ready.timeouts >= 10
    case 3 => s.table.timeouts >= 10
    case _ => false
  }

  /** The alarm is off and the phase is waiting for it. */
  predicate Stalled(s: State) {
    s.phase <= 3 && s.alarm == DISABLED && !Moves(s)
  }

  lemma StalledStays(s: State, i: Input)
    requires Inv(s) && Stalled(s) && !Ends(i)
    ensures Stalled(Iterate(s, i)) && Iterate(s, i).phase == s.phase
  {
    var t := Switch(s, i);
    assert t == s;
    StalledReceive(s, i);
    ResendKeepsInv(Receive(s, i), i.resend);
  }

  lemma StalledReceive(s: State, i: Input)
    requires Inv(s) && Stalled(s) && !Ends(i)
    ensures Stalled(Receive(s, i)) && Inv(Receive(s, i)) && Receive(s, i).phase == s.phase
  {
    if i.packet.Some? {
      var p := i.packet.value;
      if IsProbeResponse(p) {
        assert ProbeResponse(s, p, i.receive) == s;
      } else if IsReadyResponse(p) {
        assert ReadyResponse(s, p, i.receive) == s;
      }
    }
  }

  predicate NoEnd(inputs: seq<Input>) {
    !SeesEnd(inputs)
  }

  lemma {:induction false} StalledRun(s: State, inputs: seq<Input>)
    requires Inv(s) && Stalled(s) && NoEnd(inputs)
    ensures Run(s, inputs).phase == s.phase
    decreases |inputs|
  {
    if inputs != [] {
      SeesEndTail(inputs);
      StalledStays(s, inputs[0]);
      IterateKeepsInv(s, inputs[0]);
      StalledRun(Iterate(s, inputs[0]), inputs[1..]);
    }
  }

  const NO_TICKS := Ticks(false, false, false)
  const QUIET := Input(None, true, NO_TICKS, NO_TICKS, NO_TICKS)

  function Response(s: State, mask: int): Input {
    QUIET.(packet := Some(Packet(true, mask, 1, 1, s.serial, true, 1, 0, 0)))
  }

  /** What the environment can do to move a phase along: answer while the alarm runs, let an expired alarm
    * repeat the request, and in phase 3 let the alarm expire. */
  function Hint(s: State): Input {
    if s.phase == 3 then QUIET.(table := NO_TICKS.(first := true))
    else if Moves(s) || s.alarm.timeout != 0 then QUIET
    else Response(s, if s.phase == 2 then READY_SYNC_REQ else VERSION_SYNC_BEP)
  }

  function Rank(s: State): int {
    if Moves(s) then 0
    else
      match s.phase
      case 0 => 1 + s.alarm.timeout
      case 1 => 2 * (6 - s.probe.detect) + s.alarm.timeout
      case 2 => 2 * (3 - s.ready.responses) + s.alarm.timeout
      case _ => 2 * (10 - s.table.timeouts) + if s.table.flag then 1 else 0
  }

  /** The phase is left, or the way out is shorter. */
  predicate Nearer(s: State, t: State) {
    t.phase != s.phase || (!Stalled(t) && Rank(t) < Rank(s))
  }

  lemma MovingLeaves(s: State)
    requires Inv(s) && s.phase <= 3 && Moves(s)
    ensures Iterate(s, Hint(s)).phase != s.phase
  {
    IterateKeepsInv(s, Hint(s));
    if s.phase == 3 {
      AwaitTablesKeepsInv(s, Hint(s).table);
      PollTableKeepsInv(Reset(s), Hint(s).table);
    }
  }

  lemma ExpiredRepeats(s: State)
    requires Inv(s) && s.phase <= 2 && !Moves(s) && s.alarm == Alarm(true, 1)
    ensures Nearer(s, Iterate(s, Hint(s)))
  {
    assert Receive(Switch(s, QUIET), QUIET) == s;
    var t := if s.probe.serverCmd then s else Repeat(s, VERSION_SYNC_BEP, ALL_SERVERS);
    assert t.alarm.timeout == 1 ==> !t.ready.req || !s.probe.serverCmd;
  }

  lemma AnswerHelps(s: State)
    requires Inv(s) && s.phase <= 2 && !Moves(s) && s.alarm == ENABLED
    ensures Nearer(s, Iterate(s, Hint(s)))
  {
    var i := Hint(s);
    assert Switch(s, i) == s;
    var t := Receive(s, i);
    assert Nearer(s, t) && t.phase == s.phase && t.alarm.timeout != 1;
    assert Resend(t, NO_TICKS) == t;
  }

  lemma WaitingHelps(s: State)
    requires Inv(s) && s.phase == 3 && !Moves(s) && s.alarm.enabled
    ensures Nearer(s, Iterate(s, Hint(s)))
  {
    var i := Hint(s);
    var t := Switch(s, i);
    assert Nearer(s, t) && t.phase == 3 && t.alarm == ENABLED;
    assert Resend(t, NO_TICKS) == t;
  }

  lemma HintHelps(s: State)
    requires Inv(s) && s.phase <= 3 && !Stalled(s)
    ensures !Ends(Hint(s)) && Nearer(s, Iterate(s, Hint(s))) && Rank(s) >= 0
  {
    if Moves(s) {
      MovingLeaves(s);
    } else if s.phase == 3 {
      WaitingHelps(s);
    } else if s.alarm.timeout == 1 {
      ExpiredRepeats(s);
    } else {
      AnswerHelps(s);
    }
  }

  lemma {:induction false} CanLeave(s: State) returns (inputs: seq<Input>)
    requires Inv(s) && s.phase <= 3 && !Stalled(s)
    ensures NoEnd(inputs) && Run(s, inputs).phase != s.phase
    decreases Rank(s)
  {
    var i := Hint(s);
    var t := Iterate(s, i);
    HintHelps(s);
    IterateKeepsInv(s, i);
    if t.phase != s.phase {
      inputs := [i];
      assert Run(t, []) == t;
    } else {
      var rest := CanLeave(t);
      inputs := [i] + rest;
      SeesEndTail(inputs);
    }
  }

  /** Short of an END packet, phases 0 to 3 can be left if and only if the alarm is on or the condition to
    * move already holds: with the alarm off nothing the network does helps. */
  lemma LeavableIffNotStalled(s: State)
    requires Inv(s) && s.phase <= 3
    ensures (exists inputs :: NoEnd(inputs) && Run(s, inputs).phase != s.phase) <==> !Stalled(s)
  {
    if Stalled(s) {
      forall inputs | NoEnd(inputs)
        ensures Run(s, inputs).phase == s.phase
      {
        StalledRun(s, inputs);
      }
    } else {
      var inputs := CanLeave(s);
    }
  }

  /** The alarm has expired when it is looked at for the second time while a packet is handled. */
  predicate Expired(s: State, i: Input) {
    Tick(Tick(s.alarm, i.receive.first), i.receive.second).timeout == 1
  }

  /** A response that turns the alarm off and leaves it off: to READY outside phase 2, in time or, as long as
    * none was counted, late; to a probe in time in phases 2 and 3.  In phase 3 it does not matter once the
    * timeouts are complete. */
  predicate Silences(s: State, i: Input) {
    && i.packet.Some? && s.alarm.enabled && !(s.phase == 3 && s.table.timeouts >= 10)
    && (|| (IsReadyResponse(i.packet.value) && s.phase != 2
            && (InTime(s, i) || (s.ready.responses == 0 && Expired(s, i))))
        || (IsProbeResponse(i.packet.value) && s.phase >= 2 && InTime(s, i)))
  }

  lemma SwitchKeepsAlive(s: State, i: Input)
    requires Inv(s) && s.phase <= 3 && !Stalled(s)
    ensures Switch(s, i).phase <= 3 && !Stalled(Switch(s, i))
    ensures Switch(s, i).phase == 0 ==> !Switch(s, i).probe.bep
  {
    SwitchKeepsCompletion(s, i);
    SwitchKeepsInv(s, i);
    if s.phase == 3 {
      PollTableKeepsInv(if s.table.timeouts >= 10 then Reset(s) else s, i.table);
      PollTableKeepsAlarm(if s.table.timeouts >= 10 then Reset(s) else s, i.table);
    }
  }

  lemma PollTableKeepsAlarm(s: State, ticks: Ticks)
    requires s.alarm.enabled
    ensures PollTable(s, ticks).alarm.enabled
  {
  }

  lemma ReadyStallsIff(s: State, i: Input)
    requires Switched(s) && s.phase <= 3 && !Stalled(s) && (s.phase == 0 ==> !s.probe.bep)
    requires i.packet.Some? && IsReadyResponse(i.packet.value)
    ensures Stalled(ReadyResponse(s, i.packet.value, i.receive)) <==> Silences(s, i)
  {
  }

  lemma ProbeStallsIff(s: State, i: Input)
    requires Switched(s) && s.phase <= 3 && !Stalled(s) && (s.phase == 0 ==> !s.probe.bep)
    requires i.packet.Some? && IsProbeResponse(i.packet.value)
    ensures Stalled(ProbeResponse(s, i.packet.value, i.receive)) <==> Silences(s, i)
  {
  }

  lemma ReceiveStallsIff(s: State, i: Input)
    requires Switched(s) && s.phase <= 3 && !Stalled(s) && (s.phase == 0 ==> !s.probe.bep)
    ensures Stalled(Receive(s, i)) <==> !Ends(i) && Silences(s, i)
  {
    if i.packet.Some? {
      if IsReadyResponse(i.packet.value) {
        ReadyStallsIff(s, i);
      } else if IsProbeResponse(i.packet.value) {
        ProbeStallsIff(s, i);
      }
    }
  }

  lemma ResendKeepsStall(s: State, ticks: Ticks)
    requires Inv(s)
    ensures Stalled(Resend(s, ticks)) <==> Stalled(s)
  {
    ResendKeepsInv(s, ticks);
    ResendFrame(s, ticks);
    if s.alarm.enabled {
      ResendKeepsAlarm(s, ticks);
    }
  }

  lemma ResendKeepsAlarm(s: State, ticks: Ticks)
    requires s.alarm.enabled
    ensures Resend(s, ticks).alarm.enabled
  {
  }

  /** Exactly such a response stalls a handshake that is still moving. */
  lemma StallsIff(s: State, i: Input)
    requires Inv(s) && s.phase <= 3 && !Stalled(s)
    ensures Stalled(Iterate(s, i)) <==> !Ends(i) && Silences(Switch(s, i), i)
  {
    SwitchKeepsInv(s, i);
    SwitchKeepsAlive(s, i);
    ReceiveKeepsInv(Switch(s, i), i);
    ReceiveStallsIff(Switch(s, i), i);
    ResendKeepsStall(Receive(Switch(s, i), i), i.resend);
  }

  /** Some iteration of the run meets such a response. */
  predicate Silenced(s: State, inputs: seq<Input>)
    decreases |inputs|
  {
    inputs != [] && (Silences(Switch(s, inputs[0]), inputs[0]) || Silenced(Iterate(s, inputs[0]), inputs[1..]))
  }

  lemma {:induction false} StallRemains(s: State, inputs: seq<Input>)
    requires Inv(s) && Stalled(s) && NoEnd(inputs)
    ensures Stalled(Run(s, inputs))
    decreases |inputs|
  {
    if inputs != [] {
      SeesEndTail(inputs);
      StalledStays(s, inputs[0]);
      IterateKeepsInv(s, inputs[0]);
      StallRemains(Iterate(s, inputs[0]), inputs[1..]);
    }
  }

  lemma {:induction false} StalledIffSilenced(s: State, inputs: seq<Input>)
    requires Inv(s) && s.phase <= 3 && !Stalled(s) && NoEnd(inputs)
    ensures Stalled(Run(s, inputs)) <==> Silenced(s, inputs)
    decreases |inputs|
  {
    if inputs != [] {
      var t := Iterate(s, inputs[0]);
      SeesEndTail(inputs);
      StallsIff(s, inputs[0]);
      IterateKeepsInv(s, inputs[0]);
      if Stalled(t) {
        StallRemains(t, inputs[1..]);
      } else {
        PhaseGraph(s, inputs[0]);
        PhaseFourIffEnd(s, inputs[0]);
        StalledIffSilenced(t, inputs[1..]);
      }
    }
  }

  /** From power-up, a run without an END packet ends in a stall if and only if such a response came. */
  lemma RunStallsIffSilenced(devNo: int, inputs: seq<Input>)
    requires NoEnd(inputs)
    ensures Stalled(Run(Initial(devNo), inputs)) <==> Silenced(Initial(devNo), inputs)
  {
    StalledIffSilenced(Initial(devNo), inputs);
  }

  /** The very first iteration stalls if and only if it meets a READY response that either has sequence number 0,
    * where the numbering starts, and comes in time, or comes when the alarm has expired. */
  lemma PowerUpStallsIff(devNo: int, i: Input)
    ensures Stalled(Iterate(Initial(devNo), i)) <==>
              && i.packet.Some? && IsReadyResponse(i.packet.value)
              && ((i.packet.value.sequence == 0 && !i.receive.first) || i.receive.first || i.receive.second)
  {
    StallsIff(Initial(devNo), i);
    assert Switch(Initial(devNo), i) == Initial(devNo);
  }

  /** How phase 3 comes to a stall: a READY response to the latest request that arrives once more. */
  lemma DuplicateReadyResponseStalls(s: State, i: Input)
    requires Inv(s) && s.phase == 3 && !Stalled(s)
    requires var t := Switch(s, i); t.phase == 3 && t.table.timeouts < 10 && InTime(t, i)
    requires IsReadyResponse(i.packet.value)
    ensures Stalled(Iterate(s, i))
  {
    StallsIff(s, i);
    SwitchKeepsInv(s, i);
  }

  /** A late READY response: the alarm has expired and no response was counted yet. */
  predicate LateReady(s: State, i: Input) {
    i.packet.Some? && IsReadyResponse(i.packet.value) && !InTime(s, i) && s.ready.responses == 0 && Expired(s, i)
  }

  /** Phase 2 counts a timeout exactly when a late response arrives, not when a request stays unanswered. */
  lemma TimeoutCountedIffLateResponse(s: State, i: Input)
    requires Inv(s) && s.phase == 2 && !Moves(s)
    ensures Iterate(s, i).ready.timeouts == s.ready.timeouts + (if LateReady(s, i) then 1 else 0)
  {
    assert Switch(s, i) == s;
    if i.packet.Some? && IsProbeResponse(i.packet.value) {
      assert ProbeResponse(s, i.packet.value, i.receive).ready == s.ready;
    }
    assert Receive(s, i).ready.timeouts == s.ready.timeouts + (if LateReady(s, i) then 1 else 0);
    ResendFrame(Receive(s, i), i.resend);
  }

  predicate Silent(inputs: seq<Input>) {
    forall k :: 0 <= k < |inputs| ==> inputs[k].packet.None?
  }

  /** So while nothing arrives phase 2 repeats its request for ever and never falls back. */
  lemma {:induction false} SilenceNeverEndsPhaseTwo(s: State, inputs: seq<Input>)
    requires Inv(s) && s.phase == 2 && Silent(inputs) && !Moves(s)
    ensures Run(s, inputs).phase == 2 && Run(s, inputs).ready == s.ready
    decreases |inputs|
  {
    if inputs != [] {
      var i := inputs[0];
      IterateKeepsInv(s, i);
      assert Receive(Switch(s, i), i) == s;
      ResendFrame(s, i.resend);
      SilenceNeverEndsPhaseTwo(Iterate(s, i), inputs[1..]);
    }
  }
}
