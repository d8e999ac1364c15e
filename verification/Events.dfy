/** Event ids, the state objects of the control unit, commands, and the decisions read off a command. */
module Events {
  const OCC_EVENT := 1
  const LIVE_ANN_EVENT := 2
  const EMERG_ANN_EVENT := 3
  const MANUAL_ANN_EVENT := 4
  const TMS_MANUAL_ANN_EVENT := 5
  const TMS_AUTO_ANN_EVENT := 6
  const D2D_INTERCOMM_EVENT := 7
  const D2P_INTERCOMM_EVENT := 8
  const D2D_HANGUP_D2P_EVENT := 9
  const D2P_INTERCOM_PENDING := 10
  const LINE_NUMBER_CHANGE_EVENT := 11
  const MIC_3D5_OUTER_EVENT := 12
  const ANN_IDLE := 254
  const INTERCOM_IDLE := 255

  /** The eleven state objects; their enter and exit functions are fixed by the object. */
  datatype StateObject =
    | AutoAnn | IdleAnn | LiveAnn | Occ | Outer3D5 | EmergAnn | ManualAnn
    | IdleIntercom | D2D | D2P | HangUp

  /** bcu_all_states, in table order. */
  const ALL_STATES: seq<StateObject> :=
    [AutoAnn, IdleAnn, LiveAnn, Occ, Outer3D5, EmergAnn, ManualAnn, IdleIntercom, D2D, D2P, HangUp]

  /** The state_id each object is declared with. */
  function DeclaredId(o: StateObject): int {
    match o
    case AutoAnn => TMS_AUTO_ANN_EVENT
    case IdleAnn => ANN_IDLE
    case LiveAnn => LIVE_ANN_EVENT
    case Occ => OCC_EVENT
    case Outer3D5 => MIC_3D5_OUTER_EVENT
    case EmergAnn => EMERG_ANN_EVENT
    case ManualAnn => MANUAL_ANN_EVENT
    case IdleIntercom => INTERCOM_IDLE
    case D2D => D2D_INTERCOMM_EVENT
    case D2P => D2P_INTERCOMM_EVENT
    case HangUp => D2D_HANGUP_D2P_EVENT
  }

  /** The fields of a command package that the state machines read; `annActive` is the active flag of the
    * announcement the package is about. */
  datatype Command = Command(
    ann: int, intercom: int, annActive: int,
    d2dActive: int, d2dRequestOrOver: int, d2dResponse: int, d2pActive: int)

  predicate IsAnnouncement(event: int) {
    event in {OCC_EVENT, LIVE_ANN_EVENT, MIC_3D5_OUTER_EVENT, EMERG_ANN_EVENT, MANUAL_ANN_EVENT,
              TMS_AUTO_ANN_EVENT}
  }

  /** WhetherWantToExchangeState, given the ids of the two active states. */
  predicate WantsExchange(annId: int, intercomId: int, c: Command) {
    var event := if c.ann != ANN_IDLE then c.ann else if c.intercom != INTERCOM_IDLE then c.intercom else 0;
    if IsAnnouncement(event) then
      if annId != event then c.annActive != 0 else c.annActive == 0
    else if event == D2D_INTERCOMM_EVENT then
      (intercomId != D2D_INTERCOMM_EVENT && intercomId != D2D_HANGUP_D2P_EVENT) || c.d2dActive == 0
    else if event == D2P_INTERCOMM_EVENT then
      var ret := intercomId != D2P_INTERCOMM_EVENT || c.d2pActive == 0;
      ret && !(intercomId != D2P_INTERCOMM_EVENT && c.intercom == D2P_INTERCOMM_EVENT && c.d2pActive == 0)
    else
      false
  }

  /** BcuStateEventIdJudge. */
  function EventFamily(event: int): int {
    if event in {OCC_EVENT, LIVE_ANN_EVENT, MIC_3D5_OUTER_EVENT, EMERG_ANN_EVENT, MANUAL_ANN_EVENT,
                 TMS_MANUAL_ANN_EVENT, TMS_AUTO_ANN_EVENT, ANN_IDLE} then 0
    else if event in {D2D_INTERCOMM_EVENT, D2P_INTERCOMM_EVENT, D2D_HANGUP_D2P_EVENT, D2P_INTERCOM_PENDING,
                      INTERCOM_IDLE} then 1
    else if event == LINE_NUMBER_CHANGE_EVENT then 2
    else -1
  }

  /** WhetherOverPackage. */
  predicate IsOverPackage(c: Command) {
    c.intercom == INTERCOM_IDLE && (IsAnnouncement(c.ann) || c.ann == TMS_MANUAL_ANN_EVENT) && c.annActive == 0
  }
}
