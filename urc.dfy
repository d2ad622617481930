/**
 * The URC (unsolicited result code) handler `urc_callback` of src/main.c.
 *
 * The RIL layer calls the handler with a raw pair (code, param) of unsigned
 * 32-bit values. `Decode` reads that pair the way the handler's two levels of
 * `switch` do; `Classify` chooses the one log line (level and message), if any,
 * that the handler writes for the decoded event. `UrcCallback` is the two
 * composed. The numeric values of the URC, SIM-state and call-state constants
 * are defined in the vendor header ril.h, which is not part of this model, so
 * they are a parameter (`RilCodes`).
 */
module Urc {
  import opened Wrappers

  type u32 = x: int | 0 <= x < 0x1_0000_0000

  /** The URC codes the handler switches on, in the order of its case labels. */
  datatype UrcCodes = UrcCodes(
    sysInitState: u32, simCardState: u32, gsmNwState: u32, gprsNwState: u32,
    cfunState: u32, comingCall: u32, callState: u32, newSms: u32,
    moduleVoltage: u32, alarmRing: u32, fileDownloadStatus: u32,
    fotaStarted: u32, fotaFinished: u32, fotaFailed: u32, stkpciRsp: u32)
  {
    function All(): seq<u32>
    {
      [sysInitState, simCardState, gsmNwState, gprsNwState, cfunState, comingCall,
       callState, newSms, moduleVoltage, alarmRing, fileDownloadStatus,
       fotaStarted, fotaFinished, fotaFailed, stkpciRsp]
    }
  }

  /** The SIM_STAT_* values the nested SIM-state switch names. */
  datatype SimCodes = SimCodes(notInserted: u32, ready: u32, pinReq: u32, pukReq: u32, notReady: u32)
  {
    function All(): seq<u32> { [notInserted, ready, pinReq, pukReq, notReady] }
  }

  /** The CALL_STATE_* values the nested call-state switch names. */
  datatype CallCodes = CallCodes(busy: u32, noAnswer: u32, noCarrier: u32, noDialtone: u32)
  {
    function All(): seq<u32> { [busy, noAnswer, noCarrier, noDialtone] }
  }

  datatype RilCodes = RilCodes(urc: UrcCodes, sim: SimCodes, call: CallCodes)

  predicate Distinct(s: seq<u32>)
  {
    forall i, j :: 0 <= i < j < |s| ==> s[i] != s[j]
  }

  /** The labels of each C `switch` are pairwise distinct, as the compiler demands. */
  predicate ValidCodes(k: RilCodes)
  {
    Distinct(k.urc.All()) && Distinct(k.sim.All()) && Distinct(k.call.All())
  }

  datatype SimState =
    | SimNotInserted | SimReady | SimPinRequired | SimPukRequired | SimNotReady
    | SimOther(raw: u32)

  datatype CallState =
    | CallBusy | CallNoAnswer | CallNoCarrier | CallNoDialtone
    | CallOther(raw: u32)

  /** The record an incoming-call URC points at; only the caller's number is read. */
  datatype CallInfo = CallInfo(number: string)

  datatype Event =
    | SysInitState(state: u32)
    | SimCardState(sim: SimState)
    | GsmNetworkState(state: u32)
    | GprsNetworkState(state: u32)
    | CfunState(state: u32)
    | ComingCall(info: CallInfo)
    | CallStateChanged(call: CallState)
    | NewSms(index: u32)
    | ModuleVoltage(voltage: u32)
    | AlarmRing(param: u32)
    | FileDownloadStatus(param: u32)
    | FotaStarted(param: u32)
    | FotaFinished(param: u32)
    | FotaFailed(param: u32)
    | StkpciResponse(param: u32)
    | UnknownUrc(code: u32, param: u32)

  /** The `debug` levels the handler uses. */
  datatype Level = DbgOff | DbgInfo

  /** One message per distinct `debug` format string; raw values are carried, not formatted. */
  datatype Message =
    | SimCardNotInserted
    | SimCardReadyMsg
    | SimPinRequiredMsg
    | SimPukRequiredMsg
    | SimCardNotRecognized
    | SimError(raw: u32)
    | GsmNwState(state: u32)
    | IncomingVoiceCall(number: string)
    | NumberBusy
    | NumberNoAnswer
    | NumberCannotReach
    | NoDialTone
    | NewSmsArrived(index: u32)
    | VBattVoltage(voltage: u32)

  datatype LogLine = LogLine(level: Level, msg: Message)

  function DecodeSim(k: SimCodes, param: u32): SimState
  {
    if param == k.notInserted then SimNotInserted
    else if param == k.ready then SimReady
    else if param == k.pinReq then SimPinRequired
    else if param == k.pukReq then SimPukRequired
    else if param == k.notReady then SimNotReady
    else SimOther(param)
  }

  function DecodeCall(k: CallCodes, param: u32): CallState
  {
    if param == k.busy then CallBusy
    else if param == k.noAnswer then CallNoAnswer
    else if param == k.noCarrier then CallNoCarrier
    else if param == k.noDialtone then CallNoDialtone
    else CallOther(param)
  }

  /** The raw code of an event: the label of the case that handles it. */
  function CodeOf(k: UrcCodes, e: Event): u32
  {
    match e
    case SysInitState(_) => k.sysInitState
    case SimCardState(_) => k.simCardState
    case GsmNetworkState(_) => k.gsmNwState
    case GprsNetworkState(_) => k.gprsNwState
    case CfunState(_) => k.cfunState
    case ComingCall(_) => k.comingCall
    case CallStateChanged(_) => k.callState
    case NewSms(_) => k.newSms
    case ModuleVoltage(_) => k.moduleVoltage
    case AlarmRing(_) => k.alarmRing
    case FileDownloadStatus(_) => k.fileDownloadStatus
    case FotaStarted(_) => k.fotaStarted
    case FotaFinished(_) => k.fotaFinished
    case FotaFailed(_) => k.fotaFailed
    case StkpciResponse(_) => k.stkpciRsp
    case UnknownUrc(code, _) => code
  }

  function SimParam(k: SimCodes, s: SimState): u32
  {
    match s
    case SimNotInserted => k.notInserted
    case SimReady => k.ready
    case SimPinRequired => k.pinReq
    case SimPukRequired => k.pukReq
    case SimNotReady => k.notReady
    case SimOther(raw) => raw
  }

  function CallParam(k: CallCodes, c: CallState): u32
  {
    match c
    case CallBusy => k.busy
    case CallNoAnswer => k.noAnswer
    case CallNoCarrier => k.noCarrier
    case CallNoDialtone => k.noDialtone
    case CallOther(raw) => raw
  }

  /**
   * The raw parameter of an event other than an incoming call (whose parameter
   * is a pointer to its CallInfo record).
   */
  function ParamOf(k: RilCodes, e: Event): u32
    requires !e.ComingCall?
  {
    match e
    case SimCardState(s) => SimParam(k.sim, s)
    case CallStateChanged(c) => CallParam(k.call, c)
    case SysInitState(p) => p
    case GsmNetworkState(p) => p
    case GprsNetworkState(p) => p
    case CfunState(p) => p
    case NewSms(p) => p
    case ModuleVoltage(p) => p
    case AlarmRing(p) => p
    case FileDownloadStatus(p) => p
    case FotaStarted(p) => p
    case FotaFinished(p) => p
    case FotaFailed(p) => p
    case StkpciResponse(p) => p
    case UnknownUrc(_, p) => p
  }

  /** An event some raw pair decodes to: "other" values are the ones no label names. */
  predicate WellFormed(k: RilCodes, e: Event)
  {
    match e
    case SimCardState(SimOther(raw)) => raw !in k.sim.All()
    case CallStateChanged(CallOther(raw)) => raw !in k.call.All()
    case UnknownUrc(code, _) => code !in k.urc.All()
    case _ => true
  }

  /**
   * The `switch (param1)` and its nested `switch (param2)`s. `callInfoAt` reads
   * the call-info record an incoming-call parameter points at.
   */
  function Decode(k: RilCodes, code: u32, param: u32, callInfoAt: u32 -> CallInfo): (e: Event)
    requires ValidCodes(k)
    ensures WellFormed(k, e) && CodeOf(k.urc, e) == code
    ensures e.ComingCall? ==> e.info == callInfoAt(param)
    ensures !e.ComingCall? ==> ParamOf(k, e) == param
    ensures e.UnknownUrc? <==> code !in k.urc.All()
  {
    var u := k.urc;
    if code == u.sysInitState then SysInitState(param)
    else if code == u.simCardState then SimCardState(DecodeSim(k.sim, param))
    else if code == u.gsmNwState then GsmNetworkState(param)
    else if code == u.gprsNwState then GprsNetworkState(param)
    else if code == u.cfunState then CfunState(param)
    else if code == u.comingCall then ComingCall(callInfoAt(param))
    else if code == u.callState then CallStateChanged(DecodeCall(k.call, param))
    else if code == u.newSms then NewSms(param)
    else if code == u.moduleVoltage then ModuleVoltage(param)
    else if code == u.alarmRing then AlarmRing(param)
    else if code == u.fileDownloadStatus then FileDownloadStatus(param)
    else if code == u.fotaStarted then FotaStarted(param)
    else if code == u.fotaFinished then FotaFinished(param)
    else if code == u.fotaFailed then FotaFailed(param)
    else if code == u.stkpciRsp then StkpciResponse(param)
    else UnknownUrc(code, param)
  }

  /** The position of an event's case label in `UrcCodes.All()`; 15 for an unknown code. */
  function Slot(e: Event): (n: nat)
    ensures n <= 15 && (n == 15 <==> e.UnknownUrc?)
  {
    match e
    case SysInitState(_) => 0
    case SimCardState(_) => 1
    case GsmNetworkState(_) => 2
    case GprsNetworkState(_) => 3
    case CfunState(_) => 4
    case ComingCall(_) => 5
    case CallStateChanged(_) => 6
    case NewSms(_) => 7
    case ModuleVoltage(_) => 8
    case AlarmRing(_) => 9
    case FileDownloadStatus(_) => 10
    case FotaStarted(_) => 11
    case FotaFinished(_) => 12
    case FotaFailed(_) => 13
    case StkpciResponse(_) => 14
    case UnknownUrc(_, _) => 15
  }

  function SimSlot(s: SimState): (n: nat)
    ensures n <= 5 && (n == 5 <==> s.SimOther?)
  {
    match s
    case SimNotInserted => 0
    case SimReady => 1
    case SimPinRequired => 2
    case SimPukRequired => 3
    case SimNotReady => 4
    case SimOther(_) => 5
  }

  function CallSlot(c: CallState): (n: nat)
    ensures n <= 4 && (n == 4 <==> c.CallOther?)
  {
    match c
    case CallBusy => 0
    case CallNoAnswer => 1
    case CallNoCarrier => 2
    case CallNoDialtone => 3
    case CallOther(_) => 4
  }

  /** Two well-formed events with the same raw code are handled by the same case. */
  lemma SameCodeSameCase(k: RilCodes, e1: Event, e2: Event)
    requires ValidCodes(k) && WellFormed(k, e1) && WellFormed(k, e2)
    requires CodeOf(k.urc, e1) == CodeOf(k.urc, e2)
    ensures Slot(e1) == Slot(e2)
  {
    var u := k.urc.All();
    if !e1.UnknownUrc? && !e2.UnknownUrc? {
      assert u[Slot(e1)] == CodeOf(k.urc, e1) && u[Slot(e2)] == CodeOf(k.urc, e2);
    } else if !e1.UnknownUrc? {
      assert u[Slot(e1)] == CodeOf(k.urc, e1);
    } else if !e2.UnknownUrc? {
      assert u[Slot(e2)] == CodeOf(k.urc, e2);
    }
  }

  /** Two well-formed SIM states with the same raw value are the same state. */
  lemma SameSimParamSameState(k: SimCodes, s1: SimState, s2: SimState)
    requires Distinct(k.All())
    requires s1.SimOther? ==> s1.raw !in k.All()
    requires s2.SimOther? ==> s2.raw !in k.All()
    requires SimParam(k, s1) == SimParam(k, s2)
    ensures s1 == s2
  {
    var a := k.All();
    if !s1.SimOther? && !s2.SimOther? {
      assert a[SimSlot(s1)] == SimParam(k, s1) && a[SimSlot(s2)] == SimParam(k, s2);
    }
  }

  /** Two well-formed call states with the same raw value are the same state. */
  lemma SameCallParamSameState(k: CallCodes, c1: CallState, c2: CallState)
    requires Distinct(k.All())
    requires c1.CallOther? ==> c1.raw !in k.All()
    requires c2.CallOther? ==> c2.raw !in k.All()
    requires CallParam(k, c1) == CallParam(k, c2)
    ensures c1 == c2
  {
    var a := k.All();
    if !c1.CallOther? && !c2.CallOther? {
      assert a[CallSlot(c1)] == CallParam(k, c1) && a[CallSlot(c2)] == CallParam(k, c2);
    }
  }

  /** Raw code and parameter determine a well-formed event other than an incoming call. */
  lemma {:induction false} RawPairDeterminesEvent(k: RilCodes, e1: Event, e2: Event)
    requires ValidCodes(k) && WellFormed(k, e1) && WellFormed(k, e2)
    requires !e1.ComingCall? && !e2.ComingCall?
    requires CodeOf(k.urc, e1) == CodeOf(k.urc, e2) && ParamOf(k, e1) == ParamOf(k, e2)
    ensures e1 == e2
  {
    SameCodeSameCase(k, e1, e2);
    if e1.SimCardState? {
      SameSimParamSameState(k.sim, e1.sim, e2.sim);
    } else if e1.CallStateChanged? {
      SameCallParamSameState(k.call, e1.call, e2.call);
    }
  }

  /** Decoding recovers every well-formed event from its raw code and parameter. */
  lemma DecodeCodeOf(k: RilCodes, e: Event, callInfoAt: u32 -> CallInfo)
    requires ValidCodes(k) && WellFormed(k, e) && !e.ComingCall?
    ensures Decode(k, CodeOf(k.urc, e), ParamOf(k, e), callInfoAt) == e
  {
    var d := Decode(k, CodeOf(k.urc, e), ParamOf(k, e), callInfoAt);
    SameCodeSameCase(k, d, e);
    RawPairDeterminesEvent(k, d, e);
  }

  /** An incoming-call code decodes to the record its parameter points at. */
  lemma DecodeComingCall(k: RilCodes, param: u32, callInfoAt: u32 -> CallInfo)
    requires ValidCodes(k)
    ensures Decode(k, k.urc.comingCall, param, callInfoAt) == ComingCall(callInfoAt(param))
  {
    var d := Decode(k, k.urc.comingCall, param, callInfoAt);
    SameCodeSameCase(k, d, ComingCall(callInfoAt(param)));
  }

  /** The events the handler passes over without a log line. */
  predicate Silent(e: Event)
  {
    || e.SysInitState?
    || e.GprsNetworkState?
    || e.CfunState?
    || (e.CallStateChanged? && e.call.CallOther?)
    || e.AlarmRing?
    || e.FileDownloadStatus?
    || e.FotaStarted?
    || e.FotaFinished?
    || e.FotaFailed?
    || e.StkpciResponse?
    || e.UnknownUrc?
  }

  /** The log line, if any, the handler writes for an event. */
  function Classify(e: Event): (r: Option<LogLine>)
    ensures r.None? <==> Silent(e)
    ensures r.Some? ==> (r.value.level == DbgInfo <==> e == SimCardState(SimReady) || e.ModuleVoltage?)
  {
    match e
    case SysInitState(_) => None  // the SYS_STATE_SMSOK test has an empty body
    case SimCardState(s) =>
      Some(match s
        case SimNotInserted => LogLine(DbgOff, SimCardNotInserted)
        case SimReady => LogLine(DbgInfo, SimCardReadyMsg)
        case SimPinRequired => LogLine(DbgOff, SimPinRequiredMsg)
        case SimPukRequired => LogLine(DbgOff, SimPukRequiredMsg)
        case SimNotReady => LogLine(DbgOff, SimCardNotRecognized)
        case SimOther(raw) => LogLine(DbgOff, SimError(raw)))
    case GsmNetworkState(st) => Some(LogLine(DbgOff, GsmNwState(st)))
    case GprsNetworkState(_) => None
    case CfunState(_) => None
    case ComingCall(info) => Some(LogLine(DbgOff, IncomingVoiceCall(info.number)))
    case CallStateChanged(c) =>
      (match c
        case CallBusy => Some(LogLine(DbgOff, NumberBusy))
        case CallNoAnswer => Some(LogLine(DbgOff, NumberNoAnswer))
        case CallNoCarrier => Some(LogLine(DbgOff, NumberCannotReach))
        case CallNoDialtone => Some(LogLine(DbgOff, NoDialTone))
        case CallOther(_) => None)
    case NewSms(i) => Some(LogLine(DbgOff, NewSmsArrived(i)))
    case ModuleVoltage(v) => Some(LogLine(DbgInfo, VBattVoltage(v)))
    case AlarmRing(_) => None
    case FileDownloadStatus(_) => None
    case FotaStarted(_) => None
    case FotaFinished(_) => None
    case FotaFailed(_) => None
    case StkpciResponse(_) => None
    case UnknownUrc(_, _) => None
  }

  /** The URC codes whose case does nothing (SYS_INIT's only test has an empty body). */
  function SilentCodes(u: UrcCodes): seq<u32>
  {
    [u.sysInitState, u.gprsNwState, u.cfunState, u.alarmRing, u.fileDownloadStatus,
     u.fotaStarted, u.fotaFinished, u.fotaFailed, u.stkpciRsp]
  }

  /**
   * The raw pairs the handler passes over: a code no label names, a code whose
   * case does nothing, or a call state no nested label names.
   */
  predicate SilentRaw(k: RilCodes, code: u32, param: u32)
  {
    || code !in k.urc.All()
    || code in SilentCodes(k.urc)
    || (code == k.urc.callState && param !in k.call.All())
  }

  /** A decoded event is silent exactly when its raw pair is one the handler passes over. */
  lemma DecodeSilentExactly(k: RilCodes, code: u32, param: u32, callInfoAt: u32 -> CallInfo)
    requires ValidCodes(k)
    ensures Silent(Decode(k, code, param, callInfoAt)) <==> SilentRaw(k, code, param)
  {
    var e := Decode(k, code, param, callInfoAt);
    var u := k.urc;
    if code == u.sysInitState { SameCodeSameCase(k, e, SysInitState(param)); }
    else if code == u.gprsNwState { SameCodeSameCase(k, e, GprsNetworkState(param)); }
    else if code == u.cfunState { SameCodeSameCase(k, e, CfunState(param)); }
    else if code == u.alarmRing { SameCodeSameCase(k, e, AlarmRing(param)); }
    else if code == u.fileDownloadStatus { SameCodeSameCase(k, e, FileDownloadStatus(param)); }
    else if code == u.fotaStarted { SameCodeSameCase(k, e, FotaStarted(param)); }
    else if code == u.fotaFinished { SameCodeSameCase(k, e, FotaFinished(param)); }
    else if code == u.fotaFailed { SameCodeSameCase(k, e, FotaFailed(param)); }
    else if code == u.stkpciRsp { SameCodeSameCase(k, e, StkpciResponse(param)); }
    else if code == u.callState {
      SameCodeSameCase(k, e, CallStateChanged(CallBusy));
    }
  }

  /**
   * `urc_callback(param1, param2)`: the log line written for a raw URC. No line
   * is written exactly for the raw pairs the handler passes over.
   */
  function UrcCallback(k: RilCodes, code: u32, param: u32, callInfoAt: u32 -> CallInfo): (r: Option<LogLine>)
    requires ValidCodes(k)
    ensures r.None? <==> SilentRaw(k, code, param)
  {
    DecodeSilentExactly(k, code, param, callInfoAt);
    Classify(Decode(k, code, param, callInfoAt))
  }

  /** Every SIM state is logged, and no two SIM states share a log line. */
  lemma SimStatesLoggedDistinctly(s1: SimState, s2: SimState)
    ensures Classify(SimCardState(s1)).Some?
    ensures Classify(SimCardState(s1)) == Classify(SimCardState(s2)) ==> s1 == s2
  {
  }

  /** The four named call states are logged distinctly; any other call state is dropped. */
  lemma CallStatesLoggedDistinctly(c1: CallState, c2: CallState)
    ensures Classify(CallStateChanged(c1)).None? <==> c1.CallOther?
    ensures !c1.CallOther? && Classify(CallStateChanged(c1)) == Classify(CallStateChanged(c2)) ==> c1 == c2
  {
  }

  /** A SIM state none of the five labels names is logged as a SIM error carrying its raw value. */
  lemma UnknownSimStateLogsRawValue(k: RilCodes, param: u32, callInfoAt: u32 -> CallInfo)
    requires ValidCodes(k) && param !in k.sim.All()
    ensures UrcCallback(k, k.urc.simCardState, param, callInfoAt) == Some(LogLine(DbgOff, SimError(param)))
  {
    DecodeCodeOf(k, SimCardState(SimOther(param)), callInfoAt);
  }

  /** Each of the five named SIM states is logged with its own message. */
  lemma NamedSimStateLogged(k: RilCodes, s: SimState, callInfoAt: u32 -> CallInfo)
    requires ValidCodes(k) && !s.SimOther?
    ensures var r := UrcCallback(k, k.urc.simCardState, SimParam(k.sim, s), callInfoAt);
      r.Some? && r == Classify(SimCardState(s)) && !r.value.msg.SimError?
  {
    DecodeCodeOf(k, SimCardState(s), callInfoAt);
  }

  /** A call state none of the four labels names produces no log line at all. */
  lemma UnknownCallStateDropped(k: RilCodes, param: u32, callInfoAt: u32 -> CallInfo)
    requires ValidCodes(k) && param !in k.call.All()
    ensures UrcCallback(k, k.urc.callState, param, callInfoAt).None?
  {
    DecodeCodeOf(k, CallStateChanged(CallOther(param)), callInfoAt);
  }

  /** A code no case label names produces no log line. */
  lemma UnknownCodeDropped(k: RilCodes, code: u32, param: u32, callInfoAt: u32 -> CallInfo)
    requires ValidCodes(k) && code !in k.urc.All()
    ensures UrcCallback(k, code, param, callInfoAt).None?
  {
  }

  /** Only a SIM-ready report and a voltage reading are logged at DBG_INFO. */
  lemma InfoLevelOnlyForSimReadyAndVoltage(k: RilCodes, code: u32, param: u32, callInfoAt: u32 -> CallInfo)
    requires ValidCodes(k)
    ensures var r := UrcCallback(k, code, param, callInfoAt);
      r.Some? && r.value.level == DbgInfo <==>
        (code == k.urc.simCardState && param == k.sim.ready) || code == k.urc.moduleVoltage
  {
    var e := Decode(k, code, param, callInfoAt);
    if code == k.urc.moduleVoltage {
      SameCodeSameCase(k, e, ModuleVoltage(param));
    } else if code == k.urc.simCardState {
      SameCodeSameCase(k, e, SimCardState(SimReady));
      if param == k.sim.ready {
        DecodeCodeOf(k, SimCardState(SimReady), callInfoAt);
      }
    } else {
      if e.ModuleVoltage? { SameCodeSameCase(k, e, ModuleVoltage(param)); }
      if e.SimCardState? { SameCodeSameCase(k, e, SimCardState(SimReady)); }
    }
  }

  /** A GSM network-state report is logged with the raw state it carries. */
  lemma GsmStateLogged(k: RilCodes, param: u32, callInfoAt: u32 -> CallInfo)
    requires ValidCodes(k)
    ensures UrcCallback(k, k.urc.gsmNwState, param, callInfoAt) == Some(LogLine(DbgOff, GsmNwState(param)))
  {
    DecodeCodeOf(k, GsmNetworkState(param), callInfoAt);
  }

  /** An incoming call is logged with the caller's number from the record its parameter points at. */
  lemma IncomingCallLogged(k: RilCodes, param: u32, callInfoAt: u32 -> CallInfo)
    requires ValidCodes(k)
    ensures UrcCallback(k, k.urc.comingCall, param, callInfoAt)
      == Some(LogLine(DbgOff, IncomingVoiceCall(callInfoAt(param).number)))
  {
    DecodeComingCall(k, param, callInfoAt);
  }

  /** A new-SMS report is logged with the message index it carries. */
  lemma NewSmsLogged(k: RilCodes, param: u32, callInfoAt: u32 -> CallInfo)
    requires ValidCodes(k)
    ensures UrcCallback(k, k.urc.newSms, param, callInfoAt) == Some(LogLine(DbgOff, NewSmsArrived(param)))
  {
    DecodeCodeOf(k, NewSms(param), callInfoAt);
  }

  /** A voltage report is logged at DBG_INFO with the reading it carries. */
  lemma VoltageLogged(k: RilCodes, param: u32, callInfoAt: u32 -> CallInfo)
    requires ValidCodes(k)
    ensures UrcCallback(k, k.urc.moduleVoltage, param, callInfoAt) == Some(LogLine(DbgInfo, VBattVoltage(param)))
  {
    DecodeCodeOf(k, ModuleVoltage(param), callInfoAt);
  }
}
