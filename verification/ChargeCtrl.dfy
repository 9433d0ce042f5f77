/** Charge control, PP_ChargeCtrl.c: the command machine, the booking trigger with its time
    filter, the hold loop that retries a booking, and the end-of-charge check. */
module ChargeCtrl {
  import opened CtrlLog

  const PP_CHARGECTRL_CLOSE: nat := 1
  const PP_CHARGECTRL_OPEN: nat := 2
  const PP_COMAND_STARTCHARGE: int := 0x700
  const PP_COMAND_STOPCHARGE: int := 0x701

  /** The hold time as the header writes it; it is added to a time stamp in seconds. */
  const PP_CHARGECTRL_APPOINTHOLDTIME: nat := 6 * 60 * 60 * 1000
  /** The hold time as the comment on the hold loop gives it: six hours. */
  const SIX_HOURS: nat := 6 * 60 * 60

  const CAN_STOPCHAGER: nat := 1
  const CAN_STARTCHAGER: nat := 2

  const PP_RMTCTRL_NORMAL: nat := 0x00
  const PP_RMTCTRL_TIMEOUTFAIL: nat := 0x06
  const PP_RMTCTRL_CHRGGUNUNCONNT: nat := 0x07
  const PP_RMTCTRL_READYLIGHTON: nat := 0x09
  const PP_RMTCTRL_FOTA_UPGRADE: nat := 0x0C

  const CFG_CHARGEING: int := 1
  const CFG_CHARGEFINISH: int := 2
  const CFG_CHARGEFAIL: int := 3

  const PP_LOCK_OK: int := 0
  const PP_LOCK_ERR_FOTAUPDATE: int := -2

  datatype Stage = Idle | ReqStart | RespWait | End
  datatype Style = Unset | Tsp | Bluetooth | Hu | Tbox
  datatype ChargeSt = ChIdle | ChReady | ChOngoing | ChFinish | ChAbnormal

  datatype Book = Book(valid: bool, id: int, hour: nat, min: nat, targetSoc: int, period: bv8, eventId: int)

  datatype Report =
    | StatusReport(status: nat, failure: nat, reqType: int, eventId: int, expTime: int)
    | BookingReport(code: int, bookingId: int, eventId: int, expTime: int)
    | BtReport(cmd: nat, result: nat)
    | NoReport

  /** One look of the monitor at a repeating booking that is due today. */
  datatype Poll = Poll(time: nat, matched: bool, triggered: bool)

  /** What the hold loop depends on, in order of happening. */
  datatype Mark =
    | Triggered(stamp: nat)
    | Retried(stamp: nat, chargeSt: int, gun: int, ready: int, upgrade: bool)
    | ChargingSeen
    | WindowLapsed

  /** The identification that reports carry. */
  datatype Para = Para(reqType: int, bookingId: int, eventId: int, expTime: int)

  /** The booking that is held for a retry: whether, since what time stamp, and from which clock
      reading on the loop looks at it. */
  datatype Window = Window(appointcharge: bool, appointTime: nat, checkDelay: nat)

  datatype State = State(
    stage: Stage,
    req: bool,
    cmd: nat,
    style: Style,
    para: Para,
    waitStart: nat,
    fail: nat,
    failtype: nat,
    onOffFlag: nat,
    appointCharging: bool,
    finishClose: bool,
    chargeSt: ChargeSt,
    window: Window,
    performed: bool,
    delaytime: nat,
    book: Book,
    log: Log)

  /** What has been done to the outside, and how each request taken up came out. */
  datatype Log = Log(
    can: seq<nat>,
    booked: seq<bool>,
    starts: seq<Report>,
    finals: seq<Report>,
    notes: seq<Report>,
    consumed: nat,
    outcomes: seq<Outcome>,
    polls: seq<Poll>,
    marks: seq<Mark>)
  {
    function Can(code: nat): Log { this.(can := can + [code]) }
    function Booked(enabled: bool): Log { this.(booked := booked + [enabled]) }
    function Start(r: Report): Log { this.(starts := starts + [r]) }
    function Final(r: Report): Log { this.(finals := finals + [r]) }
    function Note(r: Report): Log { this.(notes := notes + [r]) }
    function Consumed(): Log { this.(consumed := consumed + 1) }
    function Came(o: Outcome): Log { this.(outcomes := outcomes + [o]) }
    function Polled(p: Poll): Log { this.(polls := polls + [p]) }
    function Marked(m: Mark): Log { this.(marks := marks + [m]) }
  }

  const NoLog: Log := Log([], [], [], [], [], 0, [], [], [])

  /** The cleared statics; the delay for the hold loop starts at the time of initialisation. */
  function Init(now: nat, book: Book): State {
    State(Idle, false, 0, Unset, Para(0, 0, 0, -1), 0, 0, 0, 0, false, false, ChIdle,
          Window(false, 0, now), false, 0, book,
          if book.valid then NoLog.Booked(true) else NoLog)
  }

  /** What one call reads.  `now` is the clock and `stamp` the calendar time in seconds as the
      monitor sees them, `later` the clock when the command machine runs; a vehicle signal keeps
      its value during a call.  `lock` is what the vehicle-control lock answers, and `unset` what
      the result of a Bluetooth report, a variable on the stack, holds before it is set. */
  datatype Env = Env(
    now: nat, later: nat, stamp: nat,
    week: nat, hour: nat, min: nat,
    chargeSt: int, gun: int, ready: int, onOff: int, soc: int, upgrade: bool,
    lock: int, unset: nat)

  datatype Event =
    | Main(env: Env)
    | TspCharge(lock: int, reqType: int, eventId: int, expTime: int)
    | TspBook(lock: int, book: Book, expTime: int)
    | TspCancel(lock: int, eventId: int, expTime: int)
    | HuCharge(lock: int, reqType: int)
    | HuBook(lock: int, book: Book)
    | HuCancel(lock: int, book: Book)
    | BtCharge(lock: int, cmd: nat)
    | Shell(reqType: int)
    | ClearStatus

  predicate DueToday(b: Book, week: nat) {
    b.valid && Repeating(b.period) && OnDay(b.period, week)
  }

  function AskTbox(s: State, cmd: nat, lock: int): State {
    if lock != PP_LOCK_OK then s
    else s.(req := true, para := s.para.(bookingId := s.book.id, eventId := 0), cmd := cmd, style := Tbox)
  }

  function Arm(s: State, e: Env): State {
    s.(window := Window(true, e.stamp, e.now), performed := true, chargeSt := ChReady,
       log := s.log.Booked(false).Marked(Triggered(e.stamp)))
  }

  /** A booking refused for an upgrade is reported and kept for the hold loop. */
  function NoteRefusal(s: State, lock: int): State {
    if lock == PP_LOCK_ERR_FOTAUPDATE then
      s.(failtype := PP_RMTCTRL_FOTA_UPGRADE,
         log := s.log.Note(BookingReport(0x711, s.book.id, s.book.eventId, -1)))
    else s
  }

  function Trigger(s: State, e: Env): State {
    NoteRefusal(AskTbox(Arm(s, e), PP_CHARGECTRL_OPEN, e.lock), e.lock)
  }

  /** A matching poll triggers unless a booking already did or charging is under way. */
  predicate Fires(s: State) {
    s.chargeSt != ChOngoing && !s.performed
  }

  function MatchingPoll(s: State, e: Env): State {
    var s' := if Fires(s) then Trigger(s, e) else s;
    s'.(delaytime := e.now, log := s'.log.Polled(Poll(e.now, true, Fires(s))))
  }

  /** A poll that does not match re-arms the trigger once 3 s have passed since the last match. */
  function OtherPoll(s: State, e: Env): State {
    s.(performed := s.performed && Elapsed(e.now, s.delaytime) <= 3000,
       log := s.log.Polled(Poll(e.now, false, false)))
  }

  function CheckBooking(s: State, e: Env): State {
    if !DueToday(s.book, e.week) then s
    else if e.hour == s.book.hour && e.min == s.book.min then MatchingPoll(s, e)
    else OtherPoll(s, e)
  }

  predicate FailedForConditions(failtype: nat) {
    failtype == PP_RMTCTRL_CHRGGUNUNCONNT || failtype == PP_RMTCTRL_READYLIGHTON || failtype == PP_RMTCTRL_FOTA_UPGRADE
  }

  /** The hold loop asks again now. */
  predicate Retries(s: State, e: Env) {
    && Elapsed(e.now, s.window.checkDelay) > 5000
    && s.window.appointcharge && e.chargeSt != CFG_CHARGEING
    && e.stamp <= s.window.appointTime + PP_CHARGECTRL_APPOINTHOLDTIME
    && FailedForConditions(s.failtype)
    && e.gun == 1 && e.ready == 0 && !e.upgrade
  }

  function CheckHold(s: State, e: Env): State {
    if Retries(s, e) then
      var s1 := s.(chargeSt := ChReady,
                   log := s.log.Marked(Retried(e.stamp, e.chargeSt, e.gun, e.ready, e.upgrade)));
      AskTbox(s1, PP_CHARGECTRL_OPEN, e.lock)
    else if Elapsed(e.now, s.window.checkDelay) > 5000 && s.window.appointcharge && e.chargeSt != CFG_CHARGEING
            && e.stamp > s.window.appointTime + PP_CHARGECTRL_APPOINTHOLDTIME then
      s.(window := s.window.(appointcharge := false),
         log := s.log.Booked(true).Marked(WindowLapsed))
    else s
  }

  /** A booked charge is stopped at its target, or when it fails. */
  function EndBooked(s: State, e: Env): State {
    if e.soc >= s.book.targetSoc then
      AskTbox(s.(chargeSt := ChFinish, finishClose := true), PP_CHARGECTRL_CLOSE, e.lock)
    else if e.chargeSt == CFG_CHARGEFAIL then
      AskTbox(s.(chargeSt := ChAbnormal, finishClose := false), PP_CHARGECTRL_CLOSE, e.lock)
    else s
  }

  /** Any other charge is stopped when it has finished or failed. */
  function EndPlain(s: State, e: Env): State {
    if e.chargeSt == CFG_CHARGEFINISH then AskTbox(s.(chargeSt := ChFinish), PP_CHARGECTRL_CLOSE, e.lock)
    else if e.chargeSt == CFG_CHARGEFAIL then AskTbox(s.(chargeSt := ChAbnormal), PP_CHARGECTRL_CLOSE, e.lock)
    else s
  }

  predicate ChargingSeenNow(s: State, e: Env) {
    (s.chargeSt == ChOngoing || e.chargeSt == CFG_CHARGEING) && !e.upgrade
  }

  function CheckFinished(s: State, e: Env): State {
    if !ChargingSeenNow(s, e) then s
    else
      var s1 := s.(window := s.window.(appointcharge := false), log := s.log.Marked(ChargingSeen));
      if s.appointCharging then EndBooked(s1, e) else EndPlain(s1, e)
  }

  function Monitor(s: State, e: Env): State {
    CheckFinished(CheckHold(CheckBooking(s, e), e), e)
  }

  function StartReport(s: State): Log {
    if s.style == Tsp || s.style == Hu then
      s.log.Start(StatusReport(1, 0, s.para.reqType, s.para.eventId, s.para.expTime))
    else s.log
  }

  /** A start that finds the gun out or the ready light on is refused.  The two failure types are
      the code's own: the gun being connected gives the type named for the gun. */
  predicate Granted(s: State, e: Env) {
    s.cmd != PP_CHARGECTRL_OPEN || (e.gun == 1 && e.ready == 0)
  }

  function StartHandle(s: State, e: Env): State {
    if Granted(s, e) then s.(log := StartReport(s))
    else s.(fail := 1, failtype := if e.gun == 1 then PP_RMTCTRL_CHRGGUNUNCONNT else PP_RMTCTRL_READYLIGHTON)
  }

  function Fresh(s: State): State {
    s.(fail := 0, failtype := PP_RMTCTRL_NORMAL, onOffFlag := 0, log := s.log.Consumed())
  }

  function TakeUp(s: State, e: Env): State {
    var s1 := StartHandle(Fresh(s), e);
    if Granted(s, e) then s1.(stage := ReqStart, req := false)
    else s1.(stage := End, req := false, log := s1.log.Came(Refused))
  }

  function SendCommand(s: State, e: Env): State {
    s.(stage := RespWait, waitStart := e.later,
       log := if s.cmd == PP_CHARGECTRL_OPEN then s.log.Can(CAN_STARTCHAGER)
              else s.log.(can := s.log.can + [CAN_STOPCHAGER],
                          booked := if s.book.valid then s.log.booked + [true] else s.log.booked))
  }

  function SwitchSeen(s: State, flag: nat): State {
    s.(stage := End, onOffFlag := flag, fail := 0, log := s.log.Can(CAN_CLEAN).Came(Confirmed))
  }

  function ChargeIsOn(s: State): State {
    SwitchSeen(s.(chargeSt := ChOngoing, finishClose := false), 1)
  }

  function ChargeIsOff(s: State): State {
    SwitchSeen(s.(chargeSt := ChIdle, appointCharging := false, log := s.log.Booked(false)), 2)
  }

  function NoResponse(s: State): State {
    s.(stage := End, fail := 1, failtype := PP_RMTCTRL_TIMEOUTFAIL, chargeSt := ChIdle, appointCharging := false,
       log := s.log.Can(CAN_CLEAN).Came(TimedOut))
  }

  function AwaitResponse(s: State, e: Env): State {
    if Elapsed(e.later, s.waitStart) >= 2000 then NoResponse(s)
    else if s.cmd == PP_CHARGECTRL_OPEN then if e.onOff == 1 then ChargeIsOn(s) else s
    else if e.onOff == 0 then ChargeIsOff(s)
    else s
  }

  const BT_FAIL: nat := 2

  /** The code of the booking report; a close that was not confirmed leaves it cleared. */
  function BookingCode(s: State): int {
    if s.cmd == PP_CHARGECTRL_OPEN then if s.onOffFlag == 1 then 0x710 else 0x711
    else if s.onOffFlag == 2 then if s.finishClose then 0x700 else 0x701
    else 0
  }

  /** The result for Bluetooth; after success with a command that is neither, it is left unset. */
  function BtResult(cmd: nat, fail: nat, unset: nat): nat {
    if fail != 0 then BT_FAIL
    else if cmd == PP_CHARGECTRL_OPEN then 2
    else if cmd == PP_CHARGECTRL_CLOSE then 1
    else unset
  }

  /** The final status goes out with its expiry cleared. */
  function FinalStatus(s: State): Report {
    StatusReport(if s.fail == 0 then 2 else 3, if s.fail == 0 then 0 else s.failtype,
                 s.para.reqType, s.para.eventId, 0)
  }

  function FinalReport(s: State, unset: nat): Report {
    match s.style
    case Tsp => FinalStatus(s)
    case Hu => FinalStatus(s)
    case Tbox => BookingReport(BookingCode(s), s.para.bookingId, s.para.eventId, s.para.expTime)
    case Bluetooth => BtReport(s.cmd, BtResult(s.cmd, s.fail, unset))
    case Unset => NoReport
  }

  function Finish(s: State, e: Env): State {
    s.(stage := Idle,
       appointCharging := s.appointCharging || (s.style == Tbox && s.cmd == PP_CHARGECTRL_OPEN && s.onOffFlag == 1),
       finishClose := s.finishClose && s.style != Tbox,
       log := s.log.Final(FinalReport(s, e.unset)))
  }

  function Command(s: State, e: Env): State {
    match s.stage
    case Idle => if s.req then TakeUp(s, e) else s
    case ReqStart => SendCommand(s, e)
    case RespWait => AwaitResponse(s, e)
    case End => Finish(s, e)
  }

  function MainStep(s: State, e: Env): State {
    Command(Monitor(s, e), e)
  }

  function StartOrStop(s: State, reqType: int, style: Style, eventId: int): State {
    if (reqType == PP_COMAND_STARTCHARGE || reqType == PP_COMAND_STOPCHARGE) && s.stage == Idle && !s.req then
      s.(req := true, para := s.para.(reqType := reqType, eventId := eventId), style := style,
         cmd := if reqType == PP_COMAND_STARTCHARGE then PP_CHARGECTRL_OPEN else PP_CHARGECTRL_CLOSE)
    else s
  }

  function Step(s: State, e: Event): State {
    match e
    case Main(env) => MainStep(s, env)
    case TspCharge(lock, reqType, eventId, expTime) =>
      if lock != PP_LOCK_OK then s
      else StartOrStop(s.(para := s.para.(eventId := eventId, expTime := expTime)), reqType, Tsp, eventId)
    case TspBook(lock, book, expTime) =>
      if lock != PP_LOCK_OK then s
      else s.(book := book.(valid := true), para := s.para.(eventId := book.eventId, expTime := expTime),
              log := s.log.Booked(true).Note(StatusReport(2, 0, 0x702, book.eventId, expTime)))
    case TspCancel(lock, eventId, expTime) =>
      if lock != PP_LOCK_OK then s
      else s.(book := s.book.(valid := false), para := s.para.(eventId := eventId, expTime := expTime),
              log := s.log.Booked(false).Note(StatusReport(2, 0, 0x703, eventId, expTime)))
    case HuCharge(lock, reqType) =>
      if lock != PP_LOCK_OK then s else StartOrStop(s, reqType, Hu, 0)
    case HuBook(lock, book) =>
      if lock != PP_LOCK_OK then s
      else s.(book := book.(valid := true, eventId := 0), log := s.log.Booked(true))
    case HuCancel(lock, book) =>
      if lock != PP_LOCK_OK then s
      else s.(book := book.(valid := false, period := 0xff, eventId := s.book.eventId),
              log := s.log.Booked(false))
    case BtCharge(lock, cmd) =>
      if lock != PP_LOCK_OK then s
      else s.(req := true, style := Bluetooth,
              cmd := if cmd == 1 then PP_CHARGECTRL_CLOSE else if cmd == 2 then PP_CHARGECTRL_OPEN else s.cmd)
    case Shell(reqType) => s.(req := true, para := s.para.(reqType := reqType))
    case ClearStatus => s.(req := false)
  }

  function Run(s: State, es: seq<Event>): State
    decreases |es|
  {
    if es == [] then s else Run(Step(s, es[0]), es[1..])
  }

  lemma RunOfTwo(s: State, a: Event, b: Event)
    ensures Run(s, [a, b]) == Step(Step(s, a), b)
  {
    assert [a, b][1..] == [b] && [b][1..] == [];
    assert Run(s, [a, b]) == Run(Step(s, a), [b]);
  }

  lemma RunOfThree(s: State, a: Event, b: Event, c: Event)
    ensures Run(s, [a, b, c]) == Step(Step(Step(s, a), b), c)
  {
    assert [a, b, c][1..] == [b, c];
    RunOfTwo(Step(s, a), b, c);
  }

  lemma {:induction false} RunAppend(s: State, es: seq<Event>, fs: seq<Event>)
    ensures Run(s, es + fs) == Run(Run(s, es), fs)
    decreases |es|
  {
    if es == [] {
      assert es + fs == fs;
    } else {
      assert (es + fs)[0] == es[0] && (es + fs)[1..] == es[1..] + fs;
      RunAppend(Step(s, es[0]), es[1..], fs);
    }
  }

  // ---- The command machine ----

  /** What the command machine is about; the monitor and arriving requests leave it alone. */
  datatype Core = Core(stage: Stage, fail: nat, onOffFlag: nat, waitStart: nat,
                       can: seq<nat>, finals: seq<Report>, consumed: nat, outcomes: seq<Outcome>)

  function CoreOf(s: State): Core {
    Core(s.stage, s.fail, s.onOffFlag, s.waitStart, s.log.can, s.log.finals, s.log.consumed, s.log.outcomes)
  }

  lemma BookingFrame(s: State, e: Env)
    ensures CoreOf(CheckBooking(s, e)) == CoreOf(s)
  {
  }

  lemma HoldFrame(s: State, e: Env)
    ensures CoreOf(CheckHold(s, e)) == CoreOf(s) && FilterOf(CheckHold(s, e)) == FilterOf(s)
  {
  }

  lemma FinishedFrame(s: State, e: Env)
    ensures CoreOf(CheckFinished(s, e)) == CoreOf(s) && FilterOf(CheckFinished(s, e)) == FilterOf(s)
  {
  }

  lemma TakeUpFrame(s: State, e: Env)
    ensures FilterOf(TakeUp(s, e)) == FilterOf(s) && HoldOf(TakeUp(s, e)) == HoldOf(s)
  {
  }

  lemma AwaitFrame(s: State, e: Env)
    ensures FilterOf(AwaitResponse(s, e)) == FilterOf(s) && HoldOf(AwaitResponse(s, e)) == HoldOf(s)
  {
  }

  lemma SendAndFinishFrame(s: State, e: Env)
    ensures FilterOf(SendCommand(s, e)) == FilterOf(s) && HoldOf(SendCommand(s, e)) == HoldOf(s)
    ensures FilterOf(Finish(s, e)) == FilterOf(s) && HoldOf(Finish(s, e)) == HoldOf(s)
  {
  }

  lemma CommandFrame(s: State, e: Env)
    ensures FilterOf(Command(s, e)) == FilterOf(s) && HoldOf(Command(s, e)) == HoldOf(s)
  {
    TakeUpFrame(s, e);
    AwaitFrame(s, e);
    SendAndFinishFrame(s, e);
  }

  lemma RequestFrame(s: State, e: Event)
    requires !e.Main?
    ensures CoreOf(Step(s, e)) == CoreOf(s)
    ensures FilterOf(Step(s, e)) == FilterOf(s) && HoldOf(Step(s, e)) == HoldOf(s)
  {
  }

  lemma MonitorFrame(s: State, e: Env)
    ensures CoreOf(Monitor(s, e)) == CoreOf(s)
  {
    BookingFrame(s, e);
    HoldFrame(CheckBooking(s, e), e);
    FinishedFrame(CheckHold(CheckBooking(s, e), e), e);
  }

  lemma OnlyCommandMovesCore(s: State, e: Event)
    ensures e.Main? ==> CoreOf(Monitor(s, e.env)) == CoreOf(s)
    ensures !e.Main? ==> CoreOf(Step(s, e)) == CoreOf(s)
  {
    if e.Main? { MonitorFrame(s, e.env); } else { RequestFrame(s, e); }
  }

  /** A report says finished, or names a booking as carried out, only when the switch signal was
      seen; a status report says so exactly then. */
  ghost predicate Tells(r: Report, o: Outcome) {
    match r
    case StatusReport(status, failure, _, _, _) =>
      if o == Confirmed then status == 2 && failure == 0 else status == 3
    case BookingReport(code, _, _, _) => code == 0x710 || code == 0x700 || code == 0x701 ==> o == Confirmed
    case BtReport(_, result) => result == 1 ==> o == Confirmed
    case NoReport => true
  }

  ghost predicate CommandInv(c: Core) {
    && Alternates(c.can)
    && |c.can| == 2 * Commanded(c.outcomes) + (if c.stage == RespWait then 1 else 0)
    && c.consumed == |c.finals| + (if c.stage == Idle then 0 else 1)
    && |c.outcomes| == |c.finals| + (if c.stage == End then 1 else 0)
    && (forall k :: 0 <= k < |c.finals| ==> Tells(c.finals[k], c.outcomes[k]))
    && (c.stage == ReqStart || c.stage == RespWait ==> c.fail == 0 && c.onOffFlag == 0)
    && (c.stage == End ==>
          && (c.fail == 0 <==> c.onOffFlag != 0)
          && (c.fail == 0 <==> c.outcomes[|c.outcomes| - 1] == Confirmed))
  }

  /** The request is taken up, granted or refused. */
  function TakenUp(c: Core, granted: bool): Core {
    if granted then c.(stage := ReqStart, fail := 0, onOffFlag := 0, consumed := c.consumed + 1)
    else c.(stage := End, fail := 1, onOffFlag := 0, consumed := c.consumed + 1, outcomes := c.outcomes + [Refused])
  }

  lemma TakenUpKeepsInv(c: Core, granted: bool)
    requires CommandInv(c) && c.stage == Idle
    ensures CommandInv(TakenUp(c, granted))
  {
    CommandedMore(c.outcomes, Refused);
  }

  lemma TakeUpCore(s: State, e: Env)
    ensures CoreOf(TakeUp(s, e)) == TakenUp(CoreOf(s), Granted(s, e))
  {
  }

  lemma TakeUpKeepsInv(s: State, e: Env)
    requires CommandInv(CoreOf(s)) && s.stage == Idle
    ensures CommandInv(CoreOf(TakeUp(s, e)))
  {
    TakeUpCore(s, e);
    TakenUpKeepsInv(CoreOf(s), Granted(s, e));
  }

  lemma SendCommandKeepsInv(s: State, e: Env)
    requires CommandInv(CoreOf(s)) && s.stage == ReqStart
    ensures CommandInv(CoreOf(SendCommand(s, e)))
  {
    AlternatesMore(s.log.can, CAN_STARTCHAGER);
    AlternatesMore(s.log.can, CAN_STOPCHAGER);
  }

  /** The wait is over with outcome `o`. */
  function Answered(c: Core, fail: nat, flag: nat, o: Outcome): Core {
    c.(stage := End, fail := fail, onOffFlag := flag, can := c.can + [CAN_CLEAN], outcomes := c.outcomes + [o])
  }

  lemma AnswerKeepsInv(c: Core, fail: nat, flag: nat, o: Outcome)
    requires CommandInv(c) && c.stage == RespWait && o != Refused
    requires (fail == 0 <==> flag != 0) && (fail == 0 <==> o == Confirmed)
    ensures CommandInv(Answered(c, fail, flag, o))
  {
    CommandedMore(c.outcomes, o);
    AlternatesMore(c.can, CAN_CLEAN);
  }

  /** What one call makes of the wait: nothing, or an answer; confirmed only on the switch signal
      before the timeout. */
  lemma AwaitResponseAnswers(s: State, e: Env)
    ensures var c, c' := CoreOf(s), CoreOf(AwaitResponse(s, e));
      if Elapsed(e.later, s.waitStart) >= 2000 then c' == Answered(c, 1, s.onOffFlag, TimedOut)
      else if s.cmd == PP_CHARGECTRL_OPEN then c' == if e.onOff == 1 then Answered(c, 0, 1, Confirmed) else c
      else c' == if e.onOff == 0 then Answered(c, 0, 2, Confirmed) else c
  {
  }

  lemma AwaitResponseKeepsInv(s: State, e: Env)
    requires CommandInv(CoreOf(s)) && s.stage == RespWait
    ensures CommandInv(CoreOf(AwaitResponse(s, e)))
  {
    AwaitResponseAnswers(s, e);
    var c := CoreOf(s);
    if Elapsed(e.later, s.waitStart) >= 2000 {
      AnswerKeepsInv(c, 1, 0, TimedOut);
    } else if s.cmd == PP_CHARGECTRL_OPEN {
      AnswerKeepsInv(c, 0, 1, Confirmed);
    } else {
      AnswerKeepsInv(c, 0, 2, Confirmed);
    }
  }

  lemma FinishKeepsInv(s: State, e: Env)
    requires CommandInv(CoreOf(s)) && s.stage == End
    ensures CommandInv(CoreOf(Finish(s, e)))
  {
    assert Tells(FinalReport(s, e.unset), s.log.outcomes[|s.log.finals|]);
  }

  lemma CommandKeepsInv(s: State, e: Env)
    requires CommandInv(CoreOf(s))
    ensures CommandInv(CoreOf(Command(s, e)))
  {
    match s.stage
    case Idle => TakeUpKeepsInv(s, e);
    case ReqStart => SendCommandKeepsInv(s, e);
    case RespWait => AwaitResponseKeepsInv(s, e);
    case End => FinishKeepsInv(s, e);
  }

  lemma StepKeepsCommandInv(s: State, e: Event)
    requires CommandInv(CoreOf(s))
    ensures CommandInv(CoreOf(Step(s, e)))
  {
    OnlyCommandMovesCore(s, e);
    if e.Main? { CommandKeepsInv(Monitor(s, e.env), e.env); }
  }

  /** In every run, even when requests change the command while it runs. */
  lemma {:induction false} RunKeepsCommandInv(s: State, es: seq<Event>)
    requires CommandInv(CoreOf(s))
    ensures CommandInv(CoreOf(Run(s, es)))
    decreases |es|
  {
    if es != [] {
      StepKeepsCommandInv(s, es[0]);
      RunKeepsCommandInv(Step(s, es[0]), es[1..]);
    }
  }

  /** The only moves between stages: idle to start or (refused) to end, start to wait, wait to end,
      end to idle; the wait is left at the latest by the first call 2000 ms after it began. */
  lemma StageMoves(s: State, e: Event)
    ensures Step(s, e).stage == s.stage || (e.Main? && Moves(s.stage, Step(s, e).stage))
    ensures e.Main? && s.stage == ReqStart ==> Step(s, e).stage == RespWait
    ensures e.Main? && s.stage == End ==> Step(s, e).stage == Idle
    ensures e.Main? && s.stage == RespWait && Elapsed(e.env.later, s.waitStart) >= 2000 ==> Step(s, e).stage == End
  {
    OnlyCommandMovesCore(s, e);
    if e.Main? { CommandMoves(Monitor(s, e.env), e.env); }
  }

  predicate Moves(a: Stage, b: Stage) {
    || (a == Idle && (b == ReqStart || b == End))
    || (a == ReqStart && b == RespWait)
    || (a == RespWait && b == End)
    || (a == End && b == Idle)
  }

  lemma CommandMoves(s: State, e: Env)
    ensures Command(s, e).stage == s.stage || Moves(s.stage, Command(s, e).stage)
    ensures s.stage == ReqStart ==> Command(s, e).stage == RespWait
    ensures s.stage == End ==> Command(s, e).stage == Idle
    ensures s.stage == RespWait && Elapsed(e.later, s.waitStart) >= 2000 ==> Command(s, e).stage == End
  {
  }

  function ClockOf(e: Event): Reading {
    if e.Main? then Reading(e.env.now, e.env.later) else NoReading
  }

  function CallsLeft(s: State, now: nat): nat {
    match s.stage
    case Idle => 0
    case End => 1
    case RespWait => 2 + if s.waitStart + 2000 > now then s.waitStart + 2000 - now else 0
    case ReqStart => 2003
  }

  lemma StepGetsCloser(s: State, e: Event, now: nat)
    requires s.stage != Idle && (s.stage == RespWait ==> s.waitStart <= now)
    requires e.Main? ==> now < e.env.now <= e.env.later < CLOCK_MODULUS
    ensures var s', now' := Step(s, e), if e.Main? then e.env.later else now;
      && CallsLeft(s', now') + (if e.Main? then 1 else 0) <= CallsLeft(s, now)
      && (s'.stage == RespWait ==> s'.waitStart <= now')
  {
    OnlyCommandMovesCore(s, e);
    if e.Main? {
      var m := Monitor(s, e.env);
      assert CallsLeft(m, now) == CallsLeft(s, now);
      CommandGetsCloser(m, e.env, now);
    }
  }

  lemma CommandGetsCloser(s: State, e: Env, now: nat)
    requires s.stage != Idle && (s.stage == RespWait ==> s.waitStart <= now)
    requires now < e.later < CLOCK_MODULUS
    ensures CallsLeft(Command(s, e), e.later) < CallsLeft(s, now)
    ensures Command(s, e).stage == RespWait ==> Command(s, e).waitStart <= e.later
  {
    if s.stage == RespWait { AwaitResponseAnswers(s, e); }
  }

  lemma RunFirst(s: State, es: seq<Event>, k: nat)
    requires 0 < k <= |es|
    ensures Run(s, es[..k]) == Run(Step(s, es[0]), es[1..][..k - 1])
  {
    assert es[..k][0] == es[0] && es[..k][1..] == es[1..][..k - 1];
  }

  /** With an advancing clock every request taken up comes back to idle within 2003 calls,
      whatever bookings, retries and requests come in between. */
  lemma {:induction false} ReturnsToIdle(s: State, now: nat, es: seq<Event>) returns (k: nat)
    requires Advancing(es, ClockOf, now)
    requires s.stage == RespWait ==> s.waitStart <= now
    requires Calls(es, ClockOf) >= CallsLeft(s, now)
    ensures k <= |es| && Run(s, es[..k]).stage == Idle
    decreases |es|
  {
    k := 0;
    if s.stage != Idle {
      StepGetsCloser(s, es[0], now);
      k := ReturnsToIdle(Step(s, es[0]), After(es[0], ClockOf, now), es[1..]);
      k := k + 1;
      RunFirst(s, es, k);
    }
  }

  /** For Bluetooth a start that was carried out and one that failed are reported alike: 2 is both
      the code of the open command and BT_FAIL.  The report tells success from failure exactly when
      the command is close, or is neither and the unset result of the success is not BT_FAIL; so
      whatever is left unset, it does exactly when the command is close. */
  lemma BluetoothTellsIff(s: State, t: State, unset: nat)
    requires s.style == t.style == Bluetooth && s.cmd == t.cmd && s.fail == 0 && t.fail != 0
    ensures forall other: nat :: FinalReport(s, unset) != FinalReport(t, other) <==>
      s.cmd == PP_CHARGECTRL_CLOSE || (s.cmd != PP_CHARGECTRL_OPEN && unset != BT_FAIL)
    ensures (forall u: nat, v: nat :: FinalReport(s, u) != FinalReport(t, v)) <==> s.cmd == PP_CHARGECTRL_CLOSE
  {
    assert s.cmd != PP_CHARGECTRL_CLOSE ==> FinalReport(s, BT_FAIL) == FinalReport(t, BT_FAIL);
  }

  /** A call with the gun connected, nothing charging and the switch signal as given. */
  function PlainCall(now: nat, onOff: int, unset: nat): Env {
    Env(now, now, 0, 0, 0, 0, 0, 1, 0, onOff, 0, false, PP_LOCK_OK, unset)
  }

  /** A Bluetooth command without a booking, whose answer is awaited for `wait` milliseconds. */
  function BluetoothRun(start: nat, cmd: nat, onOff: int, wait: nat, unset: nat): seq<Event> {
    BluetoothAsked(start, cmd) + BluetoothAnswered(start + 2 + wait, onOff, unset)
  }

  function BluetoothAsked(start: nat, cmd: nat): seq<Event> {
    [BtCharge(PP_LOCK_OK, cmd), Main(PlainCall(start + 1, 0, 0)), Main(PlainCall(start + 2, 0, 0))]
  }

  function BluetoothAnswered(now: nat, onOff: int, unset: nat): seq<Event> {
    [Main(PlainCall(now, onOff, unset)), Main(PlainCall(now + 1, onOff, unset))]
  }

  /** The command that a Bluetooth request gives after initialisation. */
  function FirstCmd(cmd: nat): nat {
    if cmd == 1 then PP_CHARGECTRL_CLOSE else if cmd == 2 then PP_CHARGECTRL_OPEN else 0
  }

  /** The signal is the one that the command waits for. */
  predicate Awaited(cmd: nat, onOff: int) {
    onOff == if cmd == PP_CHARGECTRL_OPEN then 1 else 0
  }

  /** The answer to a Bluetooth command is awaited; nothing reported, booked or charging yet. */
  ghost predicate BluetoothWaits(s: State, since: nat, cmd: nat) {
    && s.stage == RespWait && s.waitStart == since && s.cmd == cmd && s.style == Bluetooth && s.fail == 0
    && s.log.finals == [] && s.log.outcomes == [] && s.failtype == PP_RMTCTRL_NORMAL
    && !s.book.valid && s.chargeSt == ChIdle && !s.window.appointcharge && !s.appointCharging
  }

  lemma BluetoothIsAsked(start: nat, book: Book, cmd: nat)
    requires !book.valid
    ensures BluetoothWaits(Run(Init(start, book), BluetoothAsked(start, cmd)), start + 2, FirstCmd(cmd))
  {
    var e1, e2 := PlainCall(start + 1, 0, 0), PlainCall(start + 2, 0, 0);
    RunOfThree(Init(start, book), BtCharge(PP_LOCK_OK, cmd), Main(e1), Main(e2));
    var s := Step(Init(start, book), BtCharge(PP_LOCK_OK, cmd));
    assert Monitor(s, e1) == s;
    var s1 := MainStep(s, e1);
    assert Monitor(s1, e2) == s1;
  }

  /** The wait is over and the report comes next. */
  ghost predicate BluetoothEnds(s: State, cmd: nat, late: bool) {
    && s.stage == End && s.cmd == cmd && s.style == Bluetooth && s.fail == (if late then 1 else 0)
    && s.log.finals == [] && s.log.outcomes == [if late then TimedOut else Confirmed]
    && !FailedForConditions(s.failtype) && !s.book.valid && !s.appointCharging
  }

  lemma BluetoothWaitEnds(s: State, since: nat, cmd: nat, e: Env)
    requires BluetoothWaits(s, since, cmd) && e.chargeSt == 0
    requires Awaited(cmd, e.onOff) || Elapsed(e.later, since) >= 2000
    ensures BluetoothEnds(MainStep(s, e), cmd, Elapsed(e.later, since) >= 2000)
  {
    assert Monitor(s, e) == s;
    AwaitResponseAnswers(s, e);
  }

  lemma BluetoothIsReported(s: State, cmd: nat, late: bool, e: Env)
    requires BluetoothEnds(s, cmd, late) && NoChargeEnds(e)
    ensures var t := MainStep(s, e);
      && t.log.finals == [BtReport(cmd, BtResult(cmd, if late then 1 else 0, e.unset))]
      && t.log.outcomes == [if late then TimedOut else Confirmed]
  {
    QuietMonitor(s, e);
  }

  lemma BluetoothIsAnswered(s: State, since: nat, cmd: nat, now: nat, onOff: int, unset: nat)
    requires BluetoothWaits(s, since, cmd) && (Awaited(cmd, onOff) || Elapsed(now, since) >= 2000)
    ensures var t, late := Run(s, BluetoothAnswered(now, onOff, unset)), Elapsed(now, since) >= 2000;
      && t.log.finals == [BtReport(cmd, BtResult(cmd, if late then 1 else 0, unset))]
      && t.log.outcomes == [if late then TimedOut else Confirmed]
  {
    var e, f := PlainCall(now, onOff, unset), PlainCall(now + 1, onOff, unset);
    RunOfTwo(s, Main(e), Main(f));
    BluetoothWaitEnds(s, since, cmd, e);
    BluetoothIsReported(MainStep(s, e), cmd, Elapsed(now, since) >= 2000, f);
  }

  lemma BluetoothFrom(s: State, es: seq<Event>, since: nat, cmd: nat, now: nat, onOff: int, unset: nat)
    requires BluetoothWaits(Run(s, es), since, cmd) && (Awaited(cmd, onOff) || Elapsed(now, since) >= 2000)
    ensures var t, late := Run(s, es + BluetoothAnswered(now, onOff, unset)), Elapsed(now, since) >= 2000;
      && t.log.finals == [BtReport(cmd, BtResult(cmd, if late then 1 else 0, unset))]
      && t.log.outcomes == [if late then TimedOut else Confirmed]
  {
    RunAppend(s, es, BluetoothAnswered(now, onOff, unset));
    BluetoothIsAnswered(Run(s, es), since, cmd, now, onOff, unset);
  }

  /** How any Bluetooth command after initialisation comes out, and what is reported. */
  lemma BluetoothResult(start: nat, book: Book, cmd: nat, onOff: int, wait: nat, unset: nat)
    requires start + 10_000 < CLOCK_MODULUS && !book.valid && wait < 9_000
    requires Awaited(FirstCmd(cmd), onOff) || wait >= 2000
    ensures var s := Run(Init(start, book), BluetoothRun(start, cmd, onOff, wait, unset));
      && s.log.finals == [BtReport(FirstCmd(cmd), BtResult(FirstCmd(cmd), if wait >= 2000 then 1 else 0, unset))]
      && s.log.outcomes == [if wait >= 2000 then TimedOut else Confirmed]
  {
    BluetoothIsAsked(start, book, cmd);
    BluetoothFrom(Init(start, book), BluetoothAsked(start, cmd), start + 2, FirstCmd(cmd),
                  start + 2 + wait, onOff, unset);
  }

  /** Two runs from initialisation that report alike: the switch signal came in one and the answer
      timed out in the other. */
  lemma BluetoothReportsAlike(start: nat, book: Book, unset: nat)
    requires start + 10_000 < CLOCK_MODULUS && !book.valid
    ensures var worked := Run(Init(start, book), BluetoothRun(start, 2, 1, 500, unset));
      var failed := Run(Init(start, book), BluetoothRun(start, 2, 0, 2000, unset));
      && worked.log.outcomes == [Confirmed] && failed.log.outcomes == [TimedOut]
      && worked.log.finals == failed.log.finals == [BtReport(PP_CHARGECTRL_OPEN, 2)]
  {
    BluetoothResult(start, book, 2, 1, 500, unset);
    BluetoothResult(start, book, 2, 0, 2000, unset);
  }

  /** Two more with the code 3, which is no command: the success is reported with whatever the result
      held before. */
  lemma BluetoothReportsUnset(start: nat, book: Book, unset: nat)
    requires start + 10_000 < CLOCK_MODULUS && !book.valid
    ensures var worked := Run(Init(start, book), BluetoothRun(start, 3, 0, 500, unset));
      var failed := Run(Init(start, book), BluetoothRun(start, 3, 1, 2000, unset));
      && worked.log.outcomes == [Confirmed] && failed.log.outcomes == [TimedOut]
      && worked.log.finals == [BtReport(0, unset)] && failed.log.finals == [BtReport(0, BT_FAIL)]
  {
    BluetoothResult(start, book, 3, 0, 500, unset);
    BluetoothResult(start, book, 3, 1, 2000, unset);
  }

  // ---- The booking trigger ----

  /** What the trigger's filter is about. */
  datatype Filter = Filter(performed: bool, delaytime: nat, polls: seq<Poll>)

  function FilterOf(s: State): Filter {
    Filter(s.performed, s.delaytime, s.log.polls)
  }

  lemma OnlyBookingMovesFilter(s: State, e: Event)
    ensures e.Main? ==> FilterOf(MainStep(s, e.env)) == FilterOf(CheckBooking(s, e.env))
    ensures !e.Main? ==> FilterOf(Step(s, e)) == FilterOf(s)
  {
    if e.Main? {
      var s1 := CheckBooking(s, e.env);
      HoldFrame(s1, e.env);
      FinishedFrame(CheckHold(s1, e.env), e.env);
      CommandFrame(Monitor(s, e.env), e.env);
    } else {
      RequestFrame(s, e);
    }
  }

  /** Any later trigger comes more than 3 s after, with a poll in between that did not match. */
  ghost predicate SpacedAt(polls: seq<Poll>, i: nat, j: nat)
    requires i < j <= |polls|
  {
    exists k :: i < k < j && !polls[k].matched && polls[k].time > polls[i].time + 3000
  }

  ghost predicate Spaced(polls: seq<Poll>) {
    forall i: nat, j: nat {:trigger polls[i], polls[j]} ::
      i < j < |polls| && polls[i].triggered && polls[j].triggered ==> SpacedAt(polls, i, j)
  }

  /** Polls are listed by time. */
  ghost predicate InOrder(polls: seq<Poll>) {
    forall i, j :: 0 <= i < j < |polls| ==> polls[i].time <= polls[j].time
  }

  /** With the flag down, every trigger so far is 3 s and a mismatch ago. */
  ghost predicate FilterInv(f: Filter, now: nat) {
    && f.delaytime <= now
    && (forall i :: 0 <= i < |f.polls| ==> f.polls[i].time <= now && (f.polls[i].triggered ==> f.polls[i].matched))
    && (forall i :: 0 <= i < |f.polls| && f.polls[i].matched ==> f.polls[i].time <= f.delaytime)
    && InOrder(f.polls)
    && Spaced(f.polls)
    && (!f.performed ==> forall i: nat {:trigger f.polls[i]} ::
          i < |f.polls| && f.polls[i].triggered ==> SpacedAt(f.polls, i, |f.polls|))
  }

  lemma SpacedStays(polls: seq<Poll>, p: Poll, i: nat, j: nat)
    requires i < j <= |polls| && SpacedAt(polls, i, j)
    ensures SpacedAt(polls + [p], i, j) && SpacedAt(polls + [p], i, |polls| + 1)
  {
    var k :| i < k < j && !polls[k].matched && polls[k].time > polls[i].time + 3000;
    assert (polls + [p])[k] == polls[k];
  }

  /** The filter after one poll. */
  predicate NextFilter(f: Filter, f': Filter, p: Poll) {
    && f'.polls == f.polls + [p]
    && if p.matched then
         && f'.delaytime == p.time
         && (p.triggered ==> !f.performed && f'.performed)
         && (!p.triggered ==> f'.performed == f.performed)
       else
         && !p.triggered && f'.delaytime == f.delaytime
         && (f'.performed <==> f.performed && p.time - f.delaytime <= 3000)
  }

  lemma PollKeepsFilterInv(f: Filter, f': Filter, p: Poll, now: nat)
    requires FilterInv(f, now) && now <= p.time && NextFilter(f, f', p)
    ensures FilterInv(f', p.time)
  {
    var n := |f.polls|;
    forall i: nat, j: nat | i < j < n + 1 && f'.polls[i].triggered && f'.polls[j].triggered
      ensures SpacedAt(f'.polls, i, j)
    {
      assert f.polls[i].triggered;
      if j < n { assert f.polls[j].triggered; }
      SpacedStays(f.polls, p, i, j);
    }
    if !f'.performed {
      forall i: nat | i < n + 1 && f'.polls[i].triggered
        ensures SpacedAt(f'.polls, i, n + 1)
      {
        assert i < n && f.polls[i].triggered && f.polls[i].matched;
        if f.performed {
          assert !f'.polls[n].matched && f'.polls[n].time > f'.polls[i].time + 3000;
        } else {
          SpacedStays(f.polls, p, i, n);
        }
      }
    }
  }

  lemma BookingKeepsFilterInv(s: State, e: Env, now: nat)
    requires FilterInv(FilterOf(s), now) && now <= e.now < CLOCK_MODULUS
    ensures FilterInv(FilterOf(CheckBooking(s, e)), e.now)
  {
    if DueToday(s.book, e.week) {
      var matched := e.hour == s.book.hour && e.min == s.book.min;
      var p := Poll(e.now, matched, matched && s.chargeSt != ChOngoing && !s.performed);
      assert NextFilter(FilterOf(s), FilterOf(CheckBooking(s, e)), p);
      PollKeepsFilterInv(FilterOf(s), FilterOf(CheckBooking(s, e)), p, now);
    }
  }

  /** The clock readings of a run do not go back. */
  ghost predicate Monotone(es: seq<Event>, now: nat)
    decreases |es|
  {
    es == [] ||
    (if es[0].Main? then now <= es[0].env.now <= es[0].env.later < CLOCK_MODULUS && Monotone(es[1..], es[0].env.now)
     else Monotone(es[1..], now))
  }

  lemma {:induction false} RunKeepsFilterInv(s: State, es: seq<Event>, now: nat)
    requires FilterInv(FilterOf(s), now) && Monotone(es, now)
    ensures Spaced(Run(s, es).log.polls) && InOrder(Run(s, es).log.polls)
    decreases |es|
  {
    if es != [] {
      OnlyBookingMovesFilter(s, es[0]);
      if es[0].Main? {
        BookingKeepsFilterInv(s, es[0].env, now);
        RunKeepsFilterInv(Step(s, es[0]), es[1..], es[0].env.now);
      } else {
        RunKeepsFilterInv(Step(s, es[0]), es[1..], now);
      }
    }
  }

  /** With a clock that does not go back, any two triggers are more than 3000 ms apart and separated
      by a poll that did not match, even when the booking is edited in between; so a contiguous
      run of matching polls triggers at most once. */
  lemma TriggersAreSpaced(start: nat, book: Book, es: seq<Event>, i: nat, j: nat)
    requires Monotone(es, start)
    requires i < j < |Run(Init(start, book), es).log.polls|
    requires Run(Init(start, book), es).log.polls[i].triggered && Run(Init(start, book), es).log.polls[j].triggered
    ensures var polls := Run(Init(start, book), es).log.polls;
      && polls[j].time > polls[i].time + 3000
      && exists k :: i < k < j && !polls[k].matched && polls[k].time > polls[i].time + 3000
  {
    RunKeepsFilterInv(Init(start, book), es, start);
    assert SpacedAt(Run(Init(start, book), es).log.polls, i, j);
  }

  // ---- The hold loop ----

  /** What the hold loop is about. */
  datatype Hold = Hold(armed: bool, stamp: nat, marks: seq<Mark>)

  function HoldOf(s: State): Hold {
    Hold(s.window.appointcharge, s.window.appointTime, s.log.marks)
  }

  lemma OnlyMonitorMovesHold(s: State, e: Event)
    ensures e.Main? ==> HoldOf(MainStep(s, e.env)) == HoldOf(Monitor(s, e.env))
    ensures !e.Main? ==> HoldOf(Step(s, e)) == HoldOf(s)
  {
    if e.Main? { CommandFrame(Monitor(s, e.env), e.env); } else { RequestFrame(s, e); }
  }

  /** Since the trigger at `j` there was no other one, charging was not seen while no upgrade ran,
      and the window has not been found lapsed. */
  ghost predicate Open(marks: seq<Mark>, j: nat)
    requires j < |marks|
  {
    marks[j].Triggered? && forall k :: j < k < |marks| ==> marks[k].Retried?
  }

  ghost predicate OpenWith(marks: seq<Mark>, stamp: nat) {
    exists j: nat :: j < |marks| && Open(marks, j) && marks[j].stamp == stamp
  }

  /** A retry belongs to an open trigger, falls within the hold time and under the right conditions. */
  ghost predicate GoodRetry(before: seq<Mark>, m: Mark)
    requires m.Retried?
  {
    && m.chargeSt != CFG_CHARGEING && m.gun == 1 && m.ready == 0 && !m.upgrade
    && exists stamp: nat :: OpenWith(before, stamp) && m.stamp <= stamp + PP_CHARGECTRL_APPOINTHOLDTIME
  }

  ghost predicate HoldInv(h: Hold) {
    && (h.armed ==> OpenWith(h.marks, h.stamp))
    && forall k {:trigger h.marks[..k]} :: 0 <= k < |h.marks| && h.marks[k].Retried? ==>
         GoodRetry(h.marks[..k], h.marks[k])
  }

  lemma MarkKeepsHoldInv(h: Hold, m: Mark, armed: bool, stamp: nat)
    requires HoldInv(h)
    requires m.Retried? ==> GoodRetry(h.marks, m)
    requires armed ==> m == Triggered(stamp) || (h.armed && h.stamp == stamp && m.Retried?)
    ensures HoldInv(Hold(armed, stamp, h.marks + [m]))
  {
    var marks' := h.marks + [m];
    forall k | 0 <= k < |marks'| && marks'[k].Retried?
      ensures GoodRetry(marks'[..k], marks'[k])
    {
      assert marks'[..k] == h.marks[..k];
      if k == |h.marks| { assert marks'[..k] == h.marks; }
    }
    if armed {
      if m.Triggered? {
        assert Open(marks', |h.marks|);
      } else {
        var j: nat :| j < |h.marks| && Open(h.marks, j) && h.marks[j].stamp == stamp;
        assert Open(marks', j);
      }
    }
  }

  lemma BookingKeepsHoldInv(s: State, e: Env)
    requires HoldInv(HoldOf(s))
    ensures HoldInv(HoldOf(CheckBooking(s, e)))
  {
    MarkKeepsHoldInv(HoldOf(s), Triggered(e.stamp), true, e.stamp);
  }

  lemma HoldKeepsHoldInv(s: State, e: Env)
    requires HoldInv(HoldOf(s))
    ensures HoldInv(HoldOf(CheckHold(s, e)))
  {
    if Retries(s, e) {
      MarkKeepsHoldInv(HoldOf(s), Retried(e.stamp, e.chargeSt, e.gun, e.ready, e.upgrade), true, s.window.appointTime);
    }
    MarkKeepsHoldInv(HoldOf(s), WindowLapsed, false, s.window.appointTime);
  }

  lemma FinishedKeepsHoldInv(s: State, e: Env)
    requires HoldInv(HoldOf(s))
    ensures HoldInv(HoldOf(CheckFinished(s, e)))
  {
    MarkKeepsHoldInv(HoldOf(s), ChargingSeen, false, s.window.appointTime);
  }

  /** In every run, each retry of the hold loop follows a trigger with no charging seen (outside an
      upgrade) and no lapse in between, no later than the hold time, with charging not in progress,
      the gun connected, the ready light off and no upgrade. */
  lemma {:induction false} RunKeepsHoldInv(s: State, es: seq<Event>)
    requires HoldInv(HoldOf(s))
    ensures HoldInv(HoldOf(Run(s, es)))
    decreases |es|
  {
    if es != [] {
      OnlyMonitorMovesHold(s, es[0]);
      if es[0].Main? {
        var e := es[0].env;
        BookingKeepsHoldInv(s, e);
        HoldKeepsHoldInv(CheckBooking(s, e), e);
        FinishedKeepsHoldInv(CheckHold(CheckBooking(s, e), e), e);
      }
      RunKeepsHoldInv(Step(s, es[0]), es[1..]);
    }
  }

  /** The window is a thousand times the six hours of the comment, since the header's number counts
      milliseconds and the time stamps seconds: while the booking is held and its conditions are
      met, the loop asks again exactly up to 6000 hours after the trigger. */
  lemma RetryWindow(s: State, e: Env)
    requires s.window.appointcharge && e.chargeSt != CFG_CHARGEING && Elapsed(e.now, s.window.checkDelay) > 5000
    requires s.failtype in {0x07, 0x09, 0x0C} && e.gun == 1 && e.ready == 0 && !e.upgrade
    ensures |CheckHold(s, e).log.marks| == |s.log.marks| + 1
    ensures CheckHold(s, e).log.marks[|s.log.marks|].Retried? <==> e.stamp <= s.window.appointTime + 1000 * SIX_HOURS
  {
  }

  /** When the window is found lapsed, whatever the failure, the booking is let go and the vehicle is told to
      hold it again. */
  lemma LapseIsTold(s: State, e: Env)
    requires s.window.appointcharge && e.chargeSt != CFG_CHARGEING && Elapsed(e.now, s.window.checkDelay) > 5000
    requires e.stamp > s.window.appointTime + 1000 * SIX_HOURS
    ensures var t := CheckHold(s, e);
      && !t.window.appointcharge && t.req == s.req
      && t.log.booked == s.log.booked + [true] && t.log.marks == s.log.marks + [WindowLapsed]
  {
  }

  /** Other failures are not retried. */
  lemma OnlyTheseAreRetried(s: State, e: Env)
    requires s.failtype !in {0x07, 0x09, 0x0C}
    ensures CheckHold(s, e).req == s.req
    ensures forall k :: |s.log.marks| <= k < |CheckHold(s, e).log.marks| ==> !CheckHold(s, e).log.marks[k].Retried?
  {
  }

  /** A call at the booked minute, with the gun connected and no charging. */
  function DueCall(book: Book, now: nat, stamp: nat, ready: int, lock: int): Env {
    Env(now, now, stamp, 0, book.hour, book.min, 0, 1, ready, 0, 0, false, lock, 0)
  }

  /** A call outside it, under good conditions. */
  function LaterCall(book: Book, now: nat, stamp: nat): Env {
    Env(now, now, stamp, 0, (book.hour + 6) % 24, book.min, 0, 1, 0, 0, 0, false, PP_LOCK_OK, 0)
  }

  /** A run from initialisation that retries one second after the six hours of the comment: the
      ready light was on when the booking came due and is off at the time. */
  lemma RetryAfterSixHours(start: nat, stamp: nat, book: Book)
    requires start + 30_000_000 < CLOCK_MODULUS && book.valid && book.period == 0xff
    ensures var due := Main(DueCall(book, start + 1, stamp, 1, PP_LOCK_OK));
      var reported := Main(DueCall(book, start + 101, stamp, 1, PP_LOCK_OK));
      var retried := Main(LaterCall(book, start + 21_601_101, stamp + SIX_HOURS + 1));
      Run(Init(start, book), [due, reported, retried]).log.marks
        == [Triggered(stamp), Retried(stamp + SIX_HOURS + 1, 0, 1, 0, false)]
  {
    var e1, e2 := DueCall(book, start + 1, stamp, 1, PP_LOCK_OK), DueCall(book, start + 101, stamp, 1, PP_LOCK_OK);
    var e3 := LaterCall(book, start + 21_601_101, stamp + SIX_HOURS + 1);
    RunOfThree(Init(start, book), Main(e1), Main(e2), Main(e3));
    DueButNotReady(Init(start, book), e1);
    var s1 := MainStep(Init(start, book), e1);
    RefusalIsReported(s1, e2);
    RetriesAtLast(MainStep(s1, e2), e3);
    assert [] + [Triggered(stamp)] == [Triggered(stamp)];
  }

  lemma DueButNotReady(s: State, e: Env)
    requires s.stage == Idle && DueToday(s.book, e.week) && Fires(s) && e.hour == s.book.hour && e.min == s.book.min
    requires e.lock == PP_LOCK_OK && e.gun == 1 && e.ready == 1 && e.chargeSt == 0
    ensures var t := MainStep(s, e);
      && t.stage == End && !t.req && t.failtype == PP_RMTCTRL_CHRGGUNUNCONNT
      && t.window == Window(true, e.stamp, e.now)
      && t.performed && t.chargeSt == ChReady && t.book == s.book && t.log.consumed == s.log.consumed + 1
      && t.log.marks == s.log.marks + [Triggered(e.stamp)]
  {
    assert CheckHold(CheckBooking(s, e), e) == CheckBooking(s, e);
  }

  lemma RefusalIsReported(s: State, e: Env)
    requires s.stage == End && s.failtype == PP_RMTCTRL_CHRGGUNUNCONNT && s.performed && s.chargeSt == ChReady
    requires DueToday(s.book, e.week) && e.hour == s.book.hour && e.min == s.book.min
    requires e.chargeSt == 0 && Elapsed(e.now, s.window.checkDelay) <= 5000
    ensures var t := MainStep(s, e);
      && t.stage == Idle && t.req == s.req && t.failtype == s.failtype && t.window == s.window
      && t.performed && t.delaytime == e.now && t.chargeSt == ChReady
      && t.book == s.book && t.log.marks == s.log.marks && t.log.consumed == s.log.consumed
  {
  }

  lemma RetriesAtLast(s: State, e: Env)
    requires FailedForConditions(s.failtype) && s.window.appointcharge && s.chargeSt == ChReady
    requires !(e.hour == s.book.hour && e.min == s.book.min)
    requires e.gun == 1 && e.ready == 0 && !e.upgrade && e.chargeSt == 0 && Elapsed(e.now, s.window.checkDelay) > 5000
    requires e.stamp <= s.window.appointTime + PP_CHARGECTRL_APPOINTHOLDTIME
    ensures MainStep(s, e).log.marks == s.log.marks + [Retried(e.stamp, 0, 1, 0, false)]
  {
    var b := CheckBooking(s, e);
    assert Retries(b, e) && b.log.marks == s.log.marks && b.chargeSt == ChReady;
    var h := CheckHold(b, e);
    assert CheckFinished(h, e) == h;
    CommandFrame(h, e);
  }

  /** A booking comes due but the lock answers neither yes nor with the negative code. */
  lemma TurnedAway(s: State, e: Env)
    requires s.stage == Idle && !s.req && DueToday(s.book, e.week) && Fires(s)
    requires e.hour == s.book.hour && e.min == s.book.min
    requires e.lock > 0 && e.chargeSt == 0
    ensures var t := MainStep(s, e);
      && t.stage == Idle && !t.req && t.failtype == s.failtype && t.window == Window(true, e.stamp, e.now)
      && t.chargeSt == ChReady && t.book == s.book
      && t.log.marks == s.log.marks + [Triggered(e.stamp)]
      && t.log.notes == s.log.notes && t.log.consumed == s.log.consumed
  {
    assert CheckBooking(s, e) == MatchingPoll(s, e) && Trigger(s, e) == Arm(s, e);
    assert CheckHold(CheckBooking(s, e), e) == CheckBooking(s, e);
  }

  /** A call that is not at the booked minute, with no charging. */
  predicate OffMinute(b: Book, e: Env) {
    !(e.hour == b.hour && e.min == b.min) && e.chargeSt == 0
  }

  /** Without a failure on record the hold loop does not retry. */
  lemma NothingToRetry(s: State, e: Env)
    requires s.stage == Idle && !s.req && !FailedForConditions(s.failtype) && s.chargeSt == ChReady
    requires OffMinute(s.book, e)
    ensures var t := MainStep(s, e);
      && t.stage == Idle && !t.req && t.failtype == s.failtype && t.chargeSt == ChReady && t.book == s.book
      && t.log.notes == s.log.notes && t.log.consumed == s.log.consumed
      && (t.log.marks == s.log.marks || t.log.marks == s.log.marks + [WindowLapsed])
      && (e.stamp <= s.window.appointTime + PP_CHARGECTRL_APPOINTHOLDTIME ==>
            t.window == s.window && t.log.marks == s.log.marks)
  {
    var b := CheckBooking(s, e);
    var h := CheckHold(b, e);
    assert CheckFinished(h, e) == h;
  }

  /** All that has happened to the held booking from `a` to `b` is that its window was found lapsed. */
  ghost predicate LapsesOnly(a: seq<Mark>, b: seq<Mark>) {
    a <= b && forall k :: |a| <= k < |b| ==> b[k] == WindowLapsed
  }

  /** After any number of such calls nothing has been taken up, whatever the time. */
  lemma {:induction false} StaysUntaken(s: State, es: seq<Env>)
    requires s.stage == Idle && !s.req && !FailedForConditions(s.failtype) && s.chargeSt == ChReady
    requires forall i :: 0 <= i < |es| ==> OffMinute(s.book, es[i])
    ensures var t := CallAll(s, es);
      && t.stage == Idle && !t.req && t.log.consumed == s.log.consumed
      && LapsesOnly(s.log.marks, t.log.marks)
    decreases |es|
  {
    if es != [] {
      NothingToRetry(s, es[0]);
      StaysUntaken(MainStep(s, es[0]), es[1..]);
    }
  }

  lemma RetryAsks(s: State, e: Env)
    requires FailedForConditions(s.failtype) && s.window.appointcharge && s.chargeSt == ChReady
    requires OffMinute(s.book, e) && s.stage == Idle && !s.req
    requires e.gun == 1 && e.ready == 0 && !e.upgrade && Elapsed(e.now, s.window.checkDelay) > 5000
    requires e.stamp <= s.window.appointTime + PP_CHARGECTRL_APPOINTHOLDTIME
    ensures var m := Monitor(s, e);
      && m.stage == Idle && m.req == (e.lock == PP_LOCK_OK) && m.log.consumed == s.log.consumed
      && (m.req ==> m.cmd == PP_CHARGECTRL_OPEN && m.style == Tbox && m.para.bookingId == s.book.id)
  {
    var b := CheckBooking(s, e);
    assert Retries(b, e) && b.chargeSt == ChReady && b.book == s.book;
    var h := CheckHold(b, e);
    assert CheckFinished(h, e) == h;
  }

  lemma IdleCommand(m: State, e: Env)
    requires m.stage == Idle && e.gun == 1 && e.ready == 0
    ensures var t := Command(m, e);
      if m.req then t.stage == ReqStart && t.cmd == m.cmd && t.style == m.style && t.para == m.para
                    && t.log.consumed == m.log.consumed + 1
      else t == m
  {
  }

  /** The hold loop retries under good conditions. */
  lemma RetryIsTaken(s: State, e: Env)
    requires FailedForConditions(s.failtype) && s.window.appointcharge && s.chargeSt == ChReady
    requires OffMinute(s.book, e) && s.stage == Idle && !s.req
    requires e.gun == 1 && e.ready == 0 && !e.upgrade && Elapsed(e.now, s.window.checkDelay) > 5000
    requires e.stamp <= s.window.appointTime + PP_CHARGECTRL_APPOINTHOLDTIME
    ensures var t := MainStep(s, e);
      if e.lock != PP_LOCK_OK then t.stage == Idle && t.log.consumed == s.log.consumed
      else t.stage == ReqStart && t.cmd == PP_CHARGECTRL_OPEN && t.style == Tbox
           && t.para.bookingId == s.book.id && t.log.consumed == s.log.consumed + 1
  {
    RetryAsks(s, e);
    IdleCommand(Monitor(s, e), e);
  }

  /** When a booking that was turned away is retried: the next good call in its window, off its minute,
      retries it exactly when a failure of an earlier booking is still on record, and takes it up
      exactly when the lock then lets it through. */
  lemma TurnedAwayIsRetriedIff(s: State, e: Env, f: Env)
    requires s.stage == Idle && !s.req && DueToday(s.book, e.week) && Fires(s)
    requires e.hour == s.book.hour && e.min == s.book.min && e.lock > 0 && e.chargeSt == 0
    requires OffMinute(s.book, f) && f.gun == 1 && f.ready == 0 && !f.upgrade
    requires Elapsed(f.now, e.now) > 5000 && f.stamp <= e.stamp + PP_CHARGECTRL_APPOINTHOLDTIME
    ensures var t := MainStep(MainStep(s, e), f);
      && t.log.marks != [] && (t.log.marks[|t.log.marks| - 1].Retried? <==> FailedForConditions(s.failtype))
      && (t.log.consumed == s.log.consumed + 1 <==> FailedForConditions(s.failtype) && f.lock == PP_LOCK_OK)
      && (t.stage == ReqStart <==> FailedForConditions(s.failtype) && f.lock == PP_LOCK_OK)
      && (t.stage == ReqStart ==> t.cmd == PP_CHARGECTRL_OPEN && t.style == Tbox && t.para.bookingId == s.book.id)
  {
    TurnedAway(s, e);
    var u := MainStep(s, e);
    if FailedForConditions(s.failtype) {
      RetriesAtLast(u, f);
      RetryIsTaken(u, f);
    } else {
      NothingToRetry(u, f);
    }
  }

  /** The last thing the hold loop did was to retry, and the booking has been taken up. */
  ghost predicate RetriedAndTaken(s: State, consumed: nat) {
    && s.log.marks != [] && s.log.marks[|s.log.marks| - 1].Retried? && s.log.consumed == consumed
    && s.stage == ReqStart && s.cmd == PP_CHARGECTRL_OPEN && s.style == Tbox
  }

  lemma TurnedAwayIsTaken(s: State, e: Env, f: Env)
    requires s.stage == Idle && !s.req && DueToday(s.book, e.week) && Fires(s)
    requires e.hour == s.book.hour && e.min == s.book.min && e.lock > 0 && e.chargeSt == 0
    requires OffMinute(s.book, f) && f.gun == 1 && f.ready == 0 && !f.upgrade
    requires Elapsed(f.now, e.now) > 5000 && f.stamp <= e.stamp + PP_CHARGECTRL_APPOINTHOLDTIME
    requires FailedForConditions(s.failtype) && f.lock == PP_LOCK_OK
    ensures RetriedAndTaken(MainStep(MainStep(s, e), f), s.log.consumed + 1)
  {
    TurnedAwayIsRetriedIff(s, e, f);
  }

  lemma TwoCalls(s: State, e: Env, f: Env, es: seq<Event>, consumed: nat)
    requires es == [Main(e), Main(f)] && RetriedAndTaken(MainStep(MainStep(s, e), f), consumed)
    ensures RetriedAndTaken(Run(s, es), consumed)
  {
    RunOfTwo(s, Main(e), Main(f));
  }

  /** And with no failure on record it is not taken up by any number of later calls off its minute. */
  lemma TurnedAwayStaysAway(s: State, e: Env, es: seq<Env>)
    requires s.stage == Idle && !s.req && DueToday(s.book, e.week) && Fires(s)
    requires e.hour == s.book.hour && e.min == s.book.min && e.lock > 0 && e.chargeSt == 0
    requires !FailedForConditions(s.failtype) && forall i :: 0 <= i < |es| ==> OffMinute(s.book, es[i])
    ensures var t := CallAll(MainStep(s, e), es);
      && t.stage == Idle && !t.req && t.log.consumed == s.log.consumed
      && LapsesOnly(s.log.marks + [Triggered(e.stamp)], t.log.marks)
  {
    TurnedAway(s, e);
    StaysUntaken(MainStep(s, e), es);
  }

  /** A call off the minute with the ready light on lets the trigger arm again and retries nothing. */
  lemma Rearms(s: State, e: Env)
    requires s.stage == Idle && !s.req && s.performed && s.chargeSt == ChReady && DueToday(s.book, e.week)
    requires OffMinute(s.book, e) && e.ready == 1 && Elapsed(e.now, s.delaytime) > 3000
    requires e.stamp <= s.window.appointTime + PP_CHARGECTRL_APPOINTHOLDTIME
    ensures var t := MainStep(s, e);
      && t.stage == Idle && !t.req && Fires(t) && t.failtype == s.failtype && t.book == s.book
      && t.log.marks == s.log.marks && t.log.consumed == s.log.consumed
  {
    var b := CheckBooking(s, e);
    assert CheckHold(b, e) == b && CheckFinished(b, e) == b;
  }

  /** The failure type of a booking that found the ready light on is still on record when the next
      one is due. */
  function FailureOnRecord(book: Book, start: nat, stamp: nat): seq<Event> {
    [Main(DueCall(book, start + 1, stamp, 1, PP_LOCK_OK)), Main(DueCall(book, start + 101, stamp, 1, PP_LOCK_OK)),
     Main(LaterCall(book, start + 21_600_101, stamp + SIX_HOURS).(ready := 1))]
  }

  lemma FailureStays(start: nat, stamp: nat, book: Book)
    requires start + 90_000_000 < CLOCK_MODULUS && book.valid && book.period == 0xff
    ensures var s := Run(Init(start, book), FailureOnRecord(book, start, stamp));
      && s.stage == Idle && !s.req && Fires(s) && s.failtype == PP_RMTCTRL_CHRGGUNUNCONNT && s.book == book
      && s.log.consumed == 1 && s.log.marks == [Triggered(stamp)]
  {
    var e1, e2 := DueCall(book, start + 1, stamp, 1, PP_LOCK_OK), DueCall(book, start + 101, stamp, 1, PP_LOCK_OK);
    var e3 := LaterCall(book, start + 21_600_101, stamp + SIX_HOURS).(ready := 1);
    RunOfThree(Init(start, book), Main(e1), Main(e2), Main(e3));
    DueButNotReady(Init(start, book), e1);
    var s1 := MainStep(Init(start, book), e1);
    RefusalIsReported(s1, e2);
    Rearms(MainStep(s1, e2), e3);
    assert [] + [Triggered(stamp)] == [Triggered(stamp)];
  }

  // ---- When the monitor asks for a command ----

  predicate BookingAsks(s: State, e: Env) {
    DueToday(s.book, e.week) && e.hour == s.book.hour && e.min == s.book.min && Fires(s)
  }

  predicate FinishAsks(s: State, e: Env) {
    && ChargingSeenNow(s, e)
    && (e.chargeSt == CFG_CHARGEFAIL
        || if s.appointCharging then e.soc >= s.book.targetSoc else e.chargeSt == CFG_CHARGEFINISH)
  }

  /** One of the three parts of the monitor asks. */
  predicate MonitorAsks(s: State, e: Env) {
    || BookingAsks(s, e)
    || Retries(CheckBooking(s, e), e)
    || FinishAsks(CheckHold(CheckBooking(s, e), e), e)
  }

  lemma BookingRequests(s: State, e: Env)
    ensures CheckBooking(s, e).req == (s.req || (BookingAsks(s, e) && e.lock == PP_LOCK_OK))
  {
  }

  lemma HoldRequests(s: State, e: Env)
    ensures CheckHold(s, e).req == (s.req || (Retries(s, e) && e.lock == PP_LOCK_OK))
  {
  }

  lemma FinishRequests(s: State, e: Env)
    ensures CheckFinished(s, e).req == (s.req || (FinishAsks(s, e) && e.lock == PP_LOCK_OK))
  {
  }

  /** The monitor makes a request exactly when it asks and the lock lets it through. */
  lemma MonitorRequests(s: State, e: Env)
    ensures Monitor(s, e).req == (s.req || (MonitorAsks(s, e) && e.lock == PP_LOCK_OK))
    ensures Monitor(s, e).stage == s.stage
  {
    BookingRequests(s, e);
    HoldRequests(CheckBooking(s, e), e);
    FinishRequests(CheckHold(CheckBooking(s, e), e), e);
    MonitorFrame(s, e);
  }

  /** A call leaves the request pending exactly when it does not take it up. */
  lemma CommandRequests(s: State, e: Env)
    ensures Command(s, e).req == (s.req && s.stage != Idle)
    ensures Command(s, e).stage == Idle <==> s.stage == End || (s.stage == Idle && !s.req)
  {
  }

  // ---- A booking that comes due ----

  ghost predicate NoChargeEnds(e: Env) {
    e.chargeSt != CFG_CHARGEFINISH && e.chargeSt != CFG_CHARGEFAIL
  }

  /** The monitor finds nothing to do: no trigger, no failed booking to retry, no end of charge. */
  ghost predicate Quiet(s: State, e: Env) {
    && (DueToday(s.book, e.week) ==> s.performed && Elapsed(e.now, s.delaytime) <= 3000)
    && !FailedForConditions(s.failtype)
    && !s.appointCharging && NoChargeEnds(e)
  }

  /** What the report of a booked charge depends on. */
  datatype Job = Job(core: Core, req: bool, cmd: nat, style: Style, para: Para, failtype: nat,
                     appointCharging: bool, performed: bool, book: Book)

  function JobOf(s: State): Job {
    Job(CoreOf(s), s.req, s.cmd, s.style, s.para, s.failtype, s.appointCharging, s.performed, s.book)
  }

  lemma QuietBooking(s: State, e: Env)
    requires Quiet(s, e)
    ensures var t := CheckBooking(s, e);
      && JobOf(t) == JobOf(s) && (t.delaytime == s.delaytime || t.delaytime == e.now)
  {
  }

  lemma QuietRest(s: State, e: Env)
    requires !FailedForConditions(s.failtype) && !s.appointCharging && NoChargeEnds(e)
    ensures JobOf(CheckHold(s, e)) == JobOf(s) && CheckHold(s, e).delaytime == s.delaytime
    ensures JobOf(CheckFinished(s, e)) == JobOf(s) && CheckFinished(s, e).delaytime == s.delaytime
  {
  }

  lemma QuietMonitor(s: State, e: Env)
    requires Quiet(s, e)
    ensures JobOf(Monitor(s, e)) == JobOf(s)
    ensures Monitor(s, e).delaytime == s.delaytime || Monitor(s, e).delaytime == e.now
  {
    QuietBooking(s, e);
    QuietRest(CheckBooking(s, e), e);
    QuietRest(CheckHold(CheckBooking(s, e), e), e);
  }

  /** A booking has been taken up and its command is the next thing to be sent. */
  ghost predicate BookingTaken(s: State) {
    && s.stage == ReqStart && s.cmd == PP_CHARGECTRL_OPEN && s.style == Tbox
    && s.failtype == PP_RMTCTRL_NORMAL && !s.appointCharging && s.performed
  }

  /** The call in which a booking comes due under good conditions takes it up. */
  lemma DueIsTakenUp(s: State, e: Env)
    requires s.stage == Idle && DueToday(s.book, e.week) && e.hour == s.book.hour && e.min == s.book.min && Fires(s)
    requires e.lock == PP_LOCK_OK && e.gun == 1 && e.ready == 0 && !s.appointCharging && NoChargeEnds(e)
    ensures var t := MainStep(s, e);
      && BookingTaken(t) && t.delaytime == e.now
      && t.para.bookingId == s.book.id && t.para.eventId == 0 && t.para.expTime == s.para.expTime
      && t.log.can == s.log.can && t.log.finals == s.log.finals
  {
    var b := CheckBooking(s, e);
    assert b.window.checkDelay == e.now && b.req && b.cmd == PP_CHARGECTRL_OPEN && b.style == Tbox;
    assert CheckHold(b, e) == b;
    var m := CheckFinished(b, e);
    assert m == b || m == b.(window := b.window.(appointcharge := false), log := b.log.Marked(ChargingSeen));
  }

  lemma CommandIsSent(s: State, e: Env)
    requires Quiet(s, e) && s.stage == ReqStart && s.cmd == PP_CHARGECTRL_OPEN
    ensures var t, j := MainStep(s, e), JobOf(s);
      && JobOf(t) == j.(core := j.core.(stage := RespWait, waitStart := e.later, can := j.core.can + [CAN_STARTCHAGER]))
      && (t.delaytime == s.delaytime || t.delaytime == e.now)
  {
    QuietMonitor(s, e);
  }

  lemma SwitchEndsWait(s: State, e: Env)
    requires Quiet(s, e) && s.stage == RespWait && s.cmd == PP_CHARGECTRL_OPEN
    requires e.onOff == 1 && Elapsed(e.later, s.waitStart) < 2000
    ensures var t, j := MainStep(s, e), JobOf(s);
      && JobOf(t) == j.(core := Answered(j.core, 0, 1, Confirmed))
      && (t.delaytime == s.delaytime || t.delaytime == e.now)
  {
    QuietMonitor(s, e);
  }

  lemma BegunIsReported(s: State, e: Env)
    requires Quiet(s, e) && s.stage == End && s.style == Tbox && s.cmd == PP_CHARGECTRL_OPEN && s.onOffFlag == 1
    ensures var t := MainStep(s, e);
      && t.stage == Idle && t.appointCharging && t.log.can == s.log.can
      && t.log.finals == s.log.finals + [BookingReport(0x710, s.para.bookingId, s.para.eventId, s.para.expTime)]
  {
    QuietMonitor(s, e);
  }

  /** The calls of the main function, one after the other. */
  function CallAll(s: State, es: seq<Env>): State
    decreases |es|
  {
    if es == [] then s else CallAll(MainStep(s, es[0]), es[1..])
  }

  /** Calls between `now` and `limit` that find no end of charge and no switch signal, all of them
      before the wait that began at `waitStart` is over. */
  ghost predicate Waiting(es: seq<Env>, now: nat, limit: nat, waitStart: nat)
    decreases |es|
  {
    es == [] ||
    (&& now <= es[0].now <= limit && NoChargeEnds(es[0]) && es[0].onOff != 1
     && waitStart <= es[0].later < waitStart + 2000
     && Waiting(es[1..], es[0].now, limit, waitStart))
  }

  /** The booked charge waits for the switch signal. */
  ghost predicate BookingWaits(s: State, limit: nat) {
    && s.stage == RespWait && s.cmd == PP_CHARGECTRL_OPEN && s.style == Tbox
    && s.failtype == PP_RMTCTRL_NORMAL && !s.appointCharging && s.performed
    && s.delaytime <= limit <= s.delaytime + 3000 && limit < CLOCK_MODULUS && s.waitStart + 2000 < CLOCK_MODULUS
  }

  lemma WaitingCall(s: State, e: Env)
    requires Quiet(s, e) && s.stage == RespWait && s.cmd == PP_CHARGECTRL_OPEN
    requires e.onOff != 1 && Elapsed(e.later, s.waitStart) < 2000
    ensures JobOf(MainStep(s, e)) == JobOf(s)
    ensures MainStep(s, e).delaytime == s.delaytime || MainStep(s, e).delaytime == e.now
  {
    QuietMonitor(s, e);
  }

  /** Any number of calls that find nothing leave the job as it is. */
  lemma {:induction false} WaitsQuietly(s: State, es: seq<Env>, now: nat, limit: nat)
    requires BookingWaits(s, limit) && s.delaytime <= now <= limit && Waiting(es, now, limit, s.waitStart)
    ensures JobOf(CallAll(s, es)) == JobOf(s)
    ensures s.delaytime <= CallAll(s, es).delaytime <= (if es == [] then now else es[|es| - 1].now)
    decreases |es|
  {
    if es != [] {
      WaitingCall(s, es[0]);
      var t := MainStep(s, es[0]);
      WaitsQuietly(t, es[1..], es[0].now, limit);
    }
  }

  /** From the call that sends the command on. */
  lemma WaitIsCarriedOut(s: State, es: seq<Env>, e3: Env, e4: Env, now: nat)
    requires BookingWaits(s, e4.now) && NoChargeEnds(e3) && NoChargeEnds(e4)
    requires s.delaytime <= now <= e3.now <= e4.now && Waiting(es, now, e3.now, s.waitStart)
    requires s.waitStart <= e3.later < s.waitStart + 2000 && e3.onOff == 1
    ensures var t := MainStep(MainStep(CallAll(s, es), e3), e4);
      && t.stage == Idle && t.appointCharging
      && t.log.can == s.log.can + [CAN_CLEAN]
      && t.log.finals == s.log.finals + [BookingReport(0x710, s.para.bookingId, s.para.eventId, s.para.expTime)]
  {
    WaitingShrinks(es, now, e3.now, e4.now, s.waitStart);
    WaitsQuietly(s, es, now, e4.now);
    if es != [] { LastIsInTime(es, now, e3.now, s.waitStart); }
    var w := CallAll(s, es);
    SwitchEndsWait(w, e3);
    BegunIsReported(MainStep(w, e3), e4);
  }

  lemma {:induction false} WaitingShrinks(es: seq<Env>, now: nat, limit: nat, later: nat, waitStart: nat)
    requires Waiting(es, now, limit, waitStart) && limit <= later
    ensures Waiting(es, now, later, waitStart)
    decreases |es|
  {
    if es != [] {
      WaitingShrinks(es[1..], es[0].now, limit, later, waitStart);
    }
  }

  lemma {:induction false} LastIsInTime(es: seq<Env>, now: nat, limit: nat, waitStart: nat)
    requires Waiting(es, now, limit, waitStart) && es != []
    ensures es[|es| - 1].now <= limit
    decreases |es|
  {
    if |es| > 1 {
      assert es[|es| - 1] == es[1..][|es| - 2];
      LastIsInTime(es[1..], es[0].now, limit, waitStart);
    }
  }

  /** End to end: a booking that comes due with the gun connected, the ready light off and the lock
      free sends the start command; after any number of calls that find nothing, the call that
      finds the switch signal in time cleans the command, and the booking is reported as begun
      under its own id. */
  lemma DueBookingIsCarriedOut(s: State, e1: Env, e2: Env, es: seq<Env>, e3: Env, e4: Env)
    requires s.stage == Idle && DueToday(s.book, e1.week) && e1.hour == s.book.hour && e1.min == s.book.min && Fires(s)
    requires e1.lock == PP_LOCK_OK && e1.gun == 1 && e1.ready == 0 && !s.appointCharging
    requires NoChargeEnds(e1) && NoChargeEnds(e2) && NoChargeEnds(e3) && NoChargeEnds(e4)
    requires e1.now <= e2.now <= e3.now <= e4.now <= e1.now + 3000 < CLOCK_MODULUS
    requires Waiting(es, e2.now, e3.now, e2.later)
    requires e2.later <= e3.later < e2.later + 2000 < CLOCK_MODULUS && e3.onOff == 1
    ensures var t := MainStep(MainStep(CallAll(MainStep(MainStep(s, e1), e2), es), e3), e4);
      && t.stage == Idle && t.appointCharging
      && t.log.can == s.log.can + [CAN_STARTCHAGER] + [CAN_CLEAN]
      && t.log.finals == s.log.finals + [BookingReport(0x710, s.book.id, 0, s.para.expTime)]
  {
    DueIsTakenUp(s, e1);
    var s1 := MainStep(s, e1);
    CommandIsSent(s1, e2);
    WaitIsCarriedOut(MainStep(s1, e2), es, e3, e4, e2.now);
  }

  // ---- A command that nothing disturbs ----

  /** All that a calm monitor leaves alone. */
  function TaskOf(s: State): State {
    s.(window := Window(false, 0, 0), performed := false, delaytime := 0, log := s.log.(polls := [], marks := []))
  }

  predicate WindowLapses(s: State, e: Env) {
    && Elapsed(e.now, s.window.checkDelay) > 5000 && s.window.appointcharge && e.chargeSt != CFG_CHARGEING
    && e.stamp > s.window.appointTime + PP_CHARGECTRL_APPOINTHOLDTIME
  }

  /** The monitor asks for nothing and finds no window lapsed. */
  predicate Calm(s: State, e: Env) {
    !MonitorAsks(s, e) && !WindowLapses(s, e)
  }

  lemma CalmBooking(s: State, e: Env)
    requires !BookingAsks(s, e)
    ensures TaskOf(CheckBooking(s, e)) == TaskOf(s) && CheckBooking(s, e).window == s.window
  {
  }

  lemma CalmHold(s: State, e: Env)
    requires !Retries(s, e) && !WindowLapses(s, e)
    ensures CheckHold(s, e) == s
  {
  }

  lemma CalmFinish(s: State, e: Env)
    requires !FinishAsks(s, e)
    ensures TaskOf(CheckFinished(s, e)) == TaskOf(s)
  {
  }

  lemma CalmMonitor(s: State, e: Env)
    requires Calm(s, e)
    ensures TaskOf(Monitor(s, e)) == TaskOf(s)
  {
    CalmBooking(s, e);
    CalmHold(CheckBooking(s, e), e);
    CalmFinish(CheckBooking(s, e), e);
  }

  lemma CommandOnTask(s: State, e: Env)
    ensures TaskOf(Command(s, e)) == Command(TaskOf(s), e)
  {
    match s.stage
    case Idle => TakeUpOnTask(s, e);
    case ReqStart => SendOnTask(s, e);
    case RespWait => AwaitOnTask(s, e);
    case End => FinishOnTask(s, e);
  }

  lemma TakeUpOnTask(s: State, e: Env)
    ensures TaskOf(TakeUp(s, e)) == TakeUp(TaskOf(s), e)
  {
    StartOnTask(Fresh(s), e);
    assert TaskOf(Fresh(s)) == Fresh(TaskOf(s));
  }

  lemma StartOnTask(s: State, e: Env)
    ensures TaskOf(StartHandle(s, e)) == StartHandle(TaskOf(s), e)
  {
  }

  lemma SendOnTask(s: State, e: Env)
    ensures TaskOf(SendCommand(s, e)) == SendCommand(TaskOf(s), e)
  {
  }

  lemma FinishOnTask(s: State, e: Env)
    ensures TaskOf(Finish(s, e)) == Finish(TaskOf(s), e)
  {
  }

  lemma AwaitOnTask(s: State, e: Env)
    ensures TaskOf(AwaitResponse(s, e)) == AwaitResponse(TaskOf(s), e)
  {
  }

  lemma CalmCall(s: State, e: Env)
    requires Calm(s, e)
    ensures TaskOf(MainStep(s, e)) == Command(TaskOf(s), e)
  {
    CalmMonitor(s, e);
    CommandOnTask(Monitor(s, e), e);
  }

  /** The wait that began at `since` is over: the time is up, or the switch is where the command wants it. */
  predicate Over(cmd: nat, since: nat, e: Env) {
    !InTime(since, e) || e.onOff == if cmd == PP_CHARGECTRL_OPEN then 1 else 0
  }

  predicate InTime(since: nat, e: Env) {
    Elapsed(e.later, since) < 2000
  }

  ghost predicate AllCalm(s: State, es: seq<Env>)
    decreases |es|
  {
    es == [] || (Calm(s, es[0]) && AllCalm(MainStep(s, es[0]), es[1..]))
  }

  lemma {:induction false} StillWaits(s: State, es: seq<Env>)
    requires s.stage == RespWait && AllCalm(s, es)
    requires forall i :: 0 <= i < |es| ==> !Over(s.cmd, s.waitStart, es[i])
    ensures TaskOf(CallAll(s, es)) == TaskOf(s)
    decreases |es|
  {
    if es != [] {
      CalmCall(s, es[0]);
      AwaitsOn(TaskOf(s), es[0]);
      var t := MainStep(s, es[0]);
      SameTask(s, t);
      StillWaits(t, es[1..]);
    }
  }

  lemma SameTask(s: State, t: State)
    requires TaskOf(t) == TaskOf(s)
    ensures t.stage == s.stage && t.cmd == s.cmd && t.waitStart == s.waitStart
  {
  }

  lemma AwaitsOn(s: State, e: Env)
    requires s.stage == RespWait && !Over(s.cmd, s.waitStart, e)
    ensures Command(s, e) == s
  {
  }

  /** Whom a status is for. */
  predicate ToldOfStart(style: Style) {
    style == Tsp || style == Hu
  }

  /** The report of a command that opens or closes, `failure` being 0 when it went well: a status to the TSP
      and the head unit; to Bluetooth the command and 2 for an open command and for any failure, 1 for a
      close command that worked; of a booking its id and what became of it. */
  function ReportOf(m: State, opens: bool, failure: nat): Report {
    match m.style
    case Tsp => StatusReport(if failure == 0 then 2 else 3, failure, m.para.reqType, m.para.eventId, 0)
    case Hu => StatusReport(if failure == 0 then 2 else 3, failure, m.para.reqType, m.para.eventId, 0)
    case Bluetooth => BtReport(m.cmd, if opens || failure != 0 then 2 else 1)
    case Tbox =>
      var code := if opens then if failure == 0 then 0x710 else 0x711
                  else if failure != 0 then 0 else if m.finishClose then 0x700 else 0x701;
      BookingReport(code, m.para.bookingId, m.para.eventId, m.para.expTime)
    case Unset => NoReport
  }

  /** A command that the monitor has left in idle. */
  ghost predicate Pending(m: State, cmd: nat) {
    m.stage == Idle && m.req && m.cmd == cmd
  }

  function Refusal(e: Env): nat {
    if e.gun == 1 then PP_RMTCTRL_CHRGGUNUNCONNT else PP_RMTCTRL_READYLIGHTON
  }

  /** What is left of a start that found the gun out or the ready light on: a report, and nothing sent. */
  function TurnedDown(m: State, failure: nat): State {
    m.(req := false, fail := 1, failtype := failure, onOffFlag := 0, finishClose := m.finishClose && m.style != Tbox,
       log := m.log.(consumed := m.log.consumed + 1, outcomes := m.log.outcomes + [Refused],
                     finals := m.log.finals + [ReportOf(m, true, failure)]))
  }

  lemma StartIsRefused(s: State, taken: Env, last: Env)
    requires Pending(Monitor(s, taken), PP_CHARGECTRL_OPEN) && !(taken.gun == 1 && taken.ready == 0)
    requires Calm(MainStep(s, taken), last)
    ensures TaskOf(MainStep(MainStep(s, taken), last)) == TurnedDown(TaskOf(Monitor(s, taken)), Refusal(taken))
  {
    var m := TaskOf(Monitor(s, taken));
    CommandOnTask(Monitor(s, taken), taken);
    CalmCall(MainStep(s, taken), last);
  }

  /** What is left of a start that was carried out: told of to the TSP or the head unit, the start code
      sent and withdrawn, and reported. */
  function Started(m: State, since: nat, well: bool): State {
    var failure := if well then 0 else PP_RMTCTRL_TIMEOUTFAIL;
    m.(req := false, fail := if well then 0 else 1, failtype := failure, onOffFlag := if well then 1 else 0,
       waitStart := since, chargeSt := if well then ChOngoing else ChIdle,
       appointCharging := well && (m.appointCharging || m.style == Tbox),
       finishClose := !well && m.finishClose && m.style != Tbox,
       log := m.log.(consumed := m.log.consumed + 1,
                     outcomes := m.log.outcomes + [if well then Confirmed else TimedOut],
                     can := m.log.can + [2, 0], starts := m.log.starts + StartOf(m),
                     finals := m.log.finals + [ReportOf(m, true, failure)]))
  }

  function StartOf(m: State): seq<Report> {
    if ToldOfStart(m.style) then [StatusReport(1, 0, m.para.reqType, m.para.eventId, m.para.expTime)] else []
  }

  /** What is left of a stop: the stop code sent and withdrawn; a valid booking is enabled again when it
      is sent and disabled when the switch has opened. */
  function Stopped(m: State, since: nat, well: bool): State {
    var failure := if well then 0 else PP_RMTCTRL_TIMEOUTFAIL;
    m.(req := false, fail := if well then 0 else 1, failtype := failure, onOffFlag := if well then 2 else 0,
       waitStart := since, chargeSt := ChIdle, appointCharging := false,
       finishClose := m.finishClose && m.style != Tbox,
       log := m.log.(consumed := m.log.consumed + 1,
                     outcomes := m.log.outcomes + [if well then Confirmed else TimedOut],
                     can := m.log.can + [1, 0], starts := m.log.starts + StartOf(m),
                     booked := m.log.booked + (if m.book.valid then [true] else []) + (if well then [false] else []),
                     finals := m.log.finals + [ReportOf(m, false, failure)]))
  }

  /** The command has been sent and is waited for. */
  function Sent(m: State, since: nat): State {
    m.(req := false, stage := RespWait, fail := 0, failtype := 0, onOffFlag := 0, waitStart := since,
       log := m.log.(consumed := m.log.consumed + 1, starts := m.log.starts + StartOf(m),
                     can := m.log.can + [if m.cmd == PP_CHARGECTRL_OPEN then 2 else 1],
                     booked := m.log.booked + if m.cmd != PP_CHARGECTRL_OPEN && m.book.valid then [true] else []))
  }

  lemma TakenThenSent(m: State, taken: Env, sent: Env)
    requires m.stage == Idle && m.req && (m.cmd == PP_CHARGECTRL_OPEN ==> taken.gun == 1 && taken.ready == 0)
    ensures Command(Command(m, taken), sent) == Sent(m, sent.later)
  {
    assert m.log.starts + [] == m.log.starts && m.log.booked + [] == m.log.booked;
  }

  lemma SentFor(s: State, taken: Env, sent: Env)
    requires var m := Monitor(s, taken); m.stage == Idle && m.req
    requires Monitor(s, taken).cmd == PP_CHARGECTRL_OPEN ==> taken.gun == 1 && taken.ready == 0
    requires Calm(MainStep(s, taken), sent)
    ensures TaskOf(MainStep(MainStep(s, taken), sent)) == Sent(TaskOf(Monitor(s, taken)), sent.later)
  {
    CommandOnTask(Monitor(s, taken), taken);
    CalmCall(MainStep(s, taken), sent);
    TakenThenSent(TaskOf(Monitor(s, taken)), taken, sent);
  }

  lemma WaitIsAnswered(s: State, over: Env, last: Env)
    requires s.stage == RespWait && Over(s.cmd, s.waitStart, over)
    requires Calm(s, over) && Calm(MainStep(s, over), last)
    ensures TaskOf(MainStep(MainStep(s, over), last)) == Command(Command(TaskOf(s), over), last)
  {
    CalmCall(s, over);
    CalmCall(MainStep(s, over), last);
  }

  lemma StartAnswered(m: State, over: Env, last: Env)
    requires m.stage == RespWait && m.cmd == PP_CHARGECTRL_OPEN && m.fail == 0 && m.failtype == 0 && m.onOffFlag == 0
    requires Over(m.cmd, m.waitStart, over)
    ensures var t, well := Command(Command(m, over), last), InTime(m.waitStart, over);
      var failure := if well then 0 else PP_RMTCTRL_TIMEOUTFAIL;
      t == m.(stage := Idle, fail := if well then 0 else 1, failtype := failure, onOffFlag := if well then 1 else 0,
              chargeSt := if well then ChOngoing else ChIdle,
              appointCharging := well && (m.appointCharging || m.style == Tbox),
              finishClose := !well && m.finishClose && m.style != Tbox,
              log := m.log.(outcomes := m.log.outcomes + [if well then Confirmed else TimedOut],
                            can := m.log.can + [0], finals := m.log.finals + [ReportOf(m, true, failure)]))
  {
  }

  lemma StopAnswered(m: State, over: Env, last: Env)
    requires m.stage == RespWait && m.cmd == PP_CHARGECTRL_CLOSE && m.fail == 0 && m.failtype == 0 && m.onOffFlag == 0
    requires Over(m.cmd, m.waitStart, over)
    ensures var t, well := Command(Command(m, over), last), InTime(m.waitStart, over);
      var failure := if well then 0 else PP_RMTCTRL_TIMEOUTFAIL;
      t == m.(stage := Idle, fail := if well then 0 else 1, failtype := failure, onOffFlag := if well then 2 else 0,
              chargeSt := ChIdle, appointCharging := false, finishClose := m.finishClose && m.style != Tbox,
              log := m.log.(outcomes := m.log.outcomes + [if well then Confirmed else TimedOut],
                            can := m.log.can + [0], booked := m.log.booked + (if well then [false] else []),
                            finals := m.log.finals + [ReportOf(m, false, failure)]))
  {
    assert m.log.booked + [] == m.log.booked;
  }

  lemma StartComposes(m: State, since: nat, over: Env, last: Env)
    requires m.cmd == PP_CHARGECTRL_OPEN && Over(m.cmd, since, over) && m.stage == Idle
    ensures Command(Command(Sent(m, since), over), last) == Started(m, since, InTime(since, over))
  {
    StartAnswered(Sent(m, since), over, last);
    assert m.log.can + [2] + [0] == m.log.can + [2, 0] && m.log.booked + [] == m.log.booked;
  }

  lemma StopComposes(m: State, since: nat, over: Env, last: Env)
    requires m.cmd == PP_CHARGECTRL_CLOSE && Over(m.cmd, since, over) && m.stage == Idle
    ensures Command(Command(Sent(m, since), over), last) == Stopped(m, since, InTime(since, over))
  {
    StopAnswered(Sent(m, since), over, last);
    assert m.log.can + [1] + [0] == m.log.can + [1, 0];
  }

  lemma WaitsThenAnswered(w: State, wait: seq<Env>, over: Env, last: Env)
    requires w.stage == RespWait && AllCalm(w, wait)
    requires Calm(CallAll(w, wait), over) && Calm(MainStep(CallAll(w, wait), over), last)
    requires forall i :: 0 <= i < |wait| ==> !Over(w.cmd, w.waitStart, wait[i])
    requires Over(w.cmd, w.waitStart, over)
    ensures TaskOf(MainStep(MainStep(CallAll(w, wait), over), last)) == Command(Command(TaskOf(w), over), last)
  {
    StillWaits(w, wait);
    SameTask(w, CallAll(w, wait));
    WaitIsAnswered(CallAll(w, wait), over, last);
  }

  /** A start that is taken up under good conditions is carried out: after any calls in which the monitor
      stays calm and the wait is not over, the call that finds it over ends it, well exactly if in time. */
  lemma StartIsCarriedOut(s: State, taken: Env, sent: Env, wait: seq<Env>, over: Env, last: Env)
    requires Pending(Monitor(s, taken), PP_CHARGECTRL_OPEN) && taken.gun == 1 && taken.ready == 0
    requires CalmFrom(s, taken, sent, wait, over, last)
    requires forall i :: 0 <= i < |wait| ==> !Over(PP_CHARGECTRL_OPEN, sent.later, wait[i])
    requires Over(PP_CHARGECTRL_OPEN, sent.later, over)
    ensures TaskOf(AfterCalls(s, taken, sent, wait, over, last))
            == Started(TaskOf(Monitor(s, taken)), sent.later, InTime(sent.later, over))
  {
    SentFor(s, taken, sent);
    WaitsThenAnswered(MainStep(MainStep(s, taken), sent), wait, over, last);
    StartComposes(TaskOf(Monitor(s, taken)), sent.later, over, last);
  }

  /** And so is a stop. */
  lemma StopIsCarriedOut(s: State, taken: Env, sent: Env, wait: seq<Env>, over: Env, last: Env)
    requires Pending(Monitor(s, taken), PP_CHARGECTRL_CLOSE)
    requires CalmFrom(s, taken, sent, wait, over, last)
    requires forall i :: 0 <= i < |wait| ==> !Over(PP_CHARGECTRL_CLOSE, sent.later, wait[i])
    requires Over(PP_CHARGECTRL_CLOSE, sent.later, over)
    ensures TaskOf(AfterCalls(s, taken, sent, wait, over, last))
            == Stopped(TaskOf(Monitor(s, taken)), sent.later, InTime(sent.later, over))
  {
    SentFor(s, taken, sent);
    WaitsThenAnswered(MainStep(MainStep(s, taken), sent), wait, over, last);
    StopComposes(TaskOf(Monitor(s, taken)), sent.later, over, last);
  }

  /** The call that takes the command up, the one that sends it, the waiting ones, the one that ends the
      wait and the one that reports. */
  function AfterCalls(s: State, taken: Env, sent: Env, wait: seq<Env>, over: Env, last: Env): State {
    MainStep(MainStep(CallAll(MainStep(MainStep(s, taken), sent), wait), over), last)
  }

  /** The monitor is calm in all of them but perhaps the first. */
  ghost predicate CalmFrom(s: State, taken: Env, sent: Env, wait: seq<Env>, over: Env, last: Env) {
    var w := MainStep(MainStep(s, taken), sent);
    && Calm(MainStep(s, taken), sent) && AllCalm(w, wait)
    && Calm(CallAll(w, wait), over) && Calm(MainStep(CallAll(w, wait), over), last)
  }

  // ---- Orders of the TSP, the head unit and Bluetooth ----

  datatype Order = TspOrder(reqType: int, eventId: int, expTime: int) | HuOrder(reqType: int) | BtOrder(code: nat)

  /** How it comes, the lock letting it through. */
  function Asked(o: Order): Event {
    match o
    case TspOrder(reqType, eventId, expTime) => TspCharge(PP_LOCK_OK, reqType, eventId, expTime)
    case HuOrder(reqType) => HuCharge(PP_LOCK_OK, reqType)
    case BtOrder(code) => BtCharge(PP_LOCK_OK, code)
  }

  predicate Opens(o: Order) {
    if o.BtOrder? then o.code == 2 else o.reqType == 0x700
  }

  predicate Closes(o: Order) {
    if o.BtOrder? then o.code == 1 else o.reqType == 0x701
  }

  /** The task of an order given in idle with nothing pending. */
  function TaskFor(s: State, o: Order): State {
    TaskOf(s).(req := true, cmd := if Opens(o) then PP_CHARGECTRL_OPEN else PP_CHARGECTRL_CLOSE,
               style := match o case TspOrder(_, _, _) => Tsp case HuOrder(_) => Hu case BtOrder(_) => Bluetooth,
               para := match o
                       case TspOrder(reqType, eventId, expTime) => Para(reqType, s.para.bookingId, eventId, expTime)
                       case HuOrder(reqType) => s.para.(reqType := reqType, eventId := 0)
                       case BtOrder(_) => s.para)
  }

  lemma OrderIsTask(s: State, o: Order, taken: Env)
    requires s.stage == Idle && !s.req && (Opens(o) || Closes(o)) && Calm(Step(s, Asked(o)), taken)
    ensures TaskOf(Monitor(Step(s, Asked(o)), taken)) == TaskFor(s, o)
  {
    CalmMonitor(Step(s, Asked(o)), taken);
  }

  /** What the outside sees of an order: the start is told to the TSP and the head unit with the order's own
      type and event, then its code goes out and is withdrawn, and the end is reported. */
  ghost predicate CarriedOut(s: State, o: Order, t: State, well: bool) {
    var failure := if well then 0 else 6;
    && t.stage == Idle && !t.req
    && t.log.can == s.log.can + [if Opens(o) then 2 else 1, 0]
    && t.log.starts == s.log.starts + StatusTo(s, o, 1, 0, if o.TspOrder? then o.expTime else s.para.expTime)
    && t.log.finals == s.log.finals
         + (if o.BtOrder? then [BtReport(o.code, if Opens(o) || !well then 2 else 1)]
            else StatusTo(s, o, if well then 2 else 3, failure, 0))
    && t.chargeSt == (if Opens(o) && well then ChOngoing else ChIdle)
  }

  function StatusTo(s: State, o: Order, status: nat, failure: nat, expTime: int): seq<Report> {
    match o
    case TspOrder(reqType, eventId, _) => [StatusReport(status, failure, reqType, eventId, expTime)]
    case HuOrder(reqType) => [StatusReport(status, failure, reqType, 0, expTime)]
    case BtOrder(_) => []
  }

  /** An order to start or to stop that is not refused: with a calm monitor, after any waiting calls, its
      own code has been sent and withdrawn and its own type and event reported. */
  lemma OrderIsCarriedOut(s: State, o: Order, taken: Env, sent: Env, wait: seq<Env>, over: Env, last: Env)
    requires s.stage == Idle && !s.req && (Opens(o) || Closes(o)) && Calm(Step(s, Asked(o)), taken)
    requires Opens(o) ==> taken.gun == 1 && taken.ready == 0
    requires CalmFrom(Step(s, Asked(o)), taken, sent, wait, over, last)
    requires var cmd := if Opens(o) then PP_CHARGECTRL_OPEN else PP_CHARGECTRL_CLOSE;
      (forall i :: 0 <= i < |wait| ==> !Over(cmd, sent.later, wait[i])) && Over(cmd, sent.later, over)
    ensures CarriedOut(s, o, AfterCalls(Step(s, Asked(o)), taken, sent, wait, over, last), InTime(sent.later, over))
  {
    var a := Step(s, Asked(o));
    OrderIsTask(s, o, taken);
    TaskIsPending(Monitor(a, taken), TaskFor(s, o));
    var t := AfterCalls(a, taken, sent, wait, over, last);
    if Opens(o) {
      StartIsCarriedOut(a, taken, sent, wait, over, last);
      StartSeen(s, o, t, sent.later, InTime(sent.later, over));
    } else {
      StopIsCarriedOut(a, taken, sent, wait, over, last);
      StopSeen(s, o, t, sent.later, InTime(sent.later, over));
    }
  }

  lemma TaskIsPending(m: State, task: State)
    requires TaskOf(m) == task
    ensures m.stage == task.stage && m.req == task.req && m.cmd == task.cmd && m.style == task.style
    ensures m.para == task.para
  {
  }

  lemma StartSeen(s: State, o: Order, t: State, since: nat, well: bool)
    requires s.stage == Idle && Opens(o) && TaskOf(t) == Started(TaskFor(s, o), since, well)
    ensures CarriedOut(s, o, t, well)
  {
  }

  lemma StopSeen(s: State, o: Order, t: State, since: nat, well: bool)
    requires s.stage == Idle && Closes(o) && TaskOf(t) == Stopped(TaskFor(s, o), since, well)
    ensures CarriedOut(s, o, t, well)
  {
  }

  /** An order to start that finds the gun out or the ready light on: nothing is sent, and it is reported as
      failed with the type that the code gives. */
  lemma OrderIsRefused(s: State, o: Order, taken: Env, last: Env)
    requires s.stage == Idle && !s.req && Opens(o) && Calm(Step(s, Asked(o)), taken)
    requires !(taken.gun == 1 && taken.ready == 0) && Calm(MainStep(Step(s, Asked(o)), taken), last)
    ensures var t := MainStep(MainStep(Step(s, Asked(o)), taken), last);
      && t.stage == Idle && !t.req && t.log.can == s.log.can && t.log.starts == s.log.starts
      && t.log.finals == s.log.finals
           + if o.BtOrder? then [BtReport(2, 2)] else StatusTo(s, o, 3, if taken.gun == 1 then 7 else 9, 0)
  {
    var a := Step(s, Asked(o));
    OrderIsTask(s, o, taken);
    TaskIsPending(Monitor(a, taken), TaskFor(s, o));
    StartIsRefused(a, taken, last);
    RefusalSeen(s, o, MainStep(MainStep(a, taken), last), Refusal(taken));
  }

  lemma RefusalSeen(s: State, o: Order, t: State, failure: nat)
    requires s.stage == Idle && Opens(o) && TaskOf(t) == TurnedDown(TaskFor(s, o), failure) && failure != 0
    ensures t.stage == Idle && !t.req && t.log.can == s.log.can && t.log.starts == s.log.starts
    ensures t.log.finals == s.log.finals
              + if o.BtOrder? then [BtReport(2, 2)] else StatusTo(s, o, 3, failure, 0)
  {
  }

  /** While a command runs or waits, an order of the TSP or the head unit changes nothing but, from the
      TSP, the event and expiry that are reported; and nothing changes anything that the lock refuses. */
  lemma BusyGoesOn(s: State, o: Order, e: Event)
    requires s.stage != Idle || s.req
    ensures o.HuOrder? ==> Step(s, Asked(o)) == s
    ensures o.TspOrder? ==> Step(s, Asked(o)) == s.(para := s.para.(eventId := o.eventId, expTime := o.expTime))
    ensures !e.Main? && !e.Shell? && !e.ClearStatus? && e.lock != PP_LOCK_OK ==> Step(s, e) == s
  {
  }

  /** A request that is cleared before a calm call takes it up leaves nothing behind. */
  lemma ClearedIsForgotten(s: State, o: Order, e: Env)
    requires s.stage == Idle && Calm(Step(Step(s, Asked(o)), ClearStatus), e)
    ensures var t := MainStep(Step(Step(s, Asked(o)), ClearStatus), e);
      t.stage == Idle && !t.req && TaskOf(t).log == TaskOf(s).log
  {
    var c := Step(Step(s, Asked(o)), ClearStatus);
    ClearedTask(s, o);
    CalmCall(c, e);
    IdleCommandStays(TaskOf(c), e);
    TaskIsPending(MainStep(c, e), TaskOf(c));
  }

  lemma ClearedTask(s: State, o: Order)
    requires s.stage == Idle
    ensures var c := Step(Step(s, Asked(o)), ClearStatus);
      c.stage == Idle && !c.req && TaskOf(c).log == TaskOf(s).log
  {
  }

  lemma IdleCommandStays(m: State, e: Env)
    requires m.stage == Idle && !m.req
    ensures Command(m, e) == m
  {
  }

  /** The shell's request repeats the last command for the last requester, under the type it gives. */
  lemma ShellRepeats(s: State, reqType: int, e: Env)
    requires Calm(Step(s, Shell(reqType)), e)
    ensures var m := Monitor(Step(s, Shell(reqType)), e);
      && m.req && m.stage == s.stage && m.cmd == s.cmd && m.style == s.style
      && m.para == Para(reqType, s.para.bookingId, s.para.eventId, s.para.expTime)
  {
    CalmMonitor(Step(s, Shell(reqType)), e);
    TaskIsPending(Monitor(Step(s, Shell(reqType)), e), TaskOf(Step(s, Shell(reqType))));
  }

  // ---- Commands of the monitor ----

  /** The box's own command on behalf of the booking. */
  function BoxTask(s: State, cmd: nat): State {
    TaskOf(s).(req := true, cmd := cmd, style := Tbox, para := s.para.(bookingId := s.book.id, eventId := 0))
  }

  /** A booking that comes due, let through by the lock, is a command to start; the vehicle's own booking is
      disabled. */
  lemma DueIsTask(s: State, e: Env)
    requires BookingAsks(s, e) && e.lock == PP_LOCK_OK && !FinishAsks(CheckHold(CheckBooking(s, e), e), e)
    ensures TaskOf(Monitor(s, e))
            == BoxTask(s, PP_CHARGECTRL_OPEN).(chargeSt := ChReady,
                                               log := TaskOf(s).log.(booked := s.log.booked + [false]))
  {
    var b := CheckBooking(s, e);
    CalmHold(b, e);
    CalmFinish(b, e);
  }

  /** With the negative code of an upgrade it is reported as failed and noted. */
  lemma DueIsNoted(s: State, e: Env)
    requires BookingAsks(s, e) && e.lock == -2 && !FinishAsks(CheckHold(CheckBooking(s, e), e), e)
    ensures var m := Monitor(s, e);
      && m.req == s.req && m.failtype == 0x0C && m.window == (if ChargingSeenNow(CheckBooking(s, e), e)
           then Window(false, e.stamp, e.now) else Window(true, e.stamp, e.now))
      && m.log.notes == s.log.notes + [BookingReport(0x711, s.book.id, s.book.eventId, -1)]
  {
    var b := CheckBooking(s, e);
    CalmHold(b, e);
    CalmFinish(b, e);
  }

  /** A retry is the same command, the vehicle's booking being disabled already. */
  lemma RetryIsTask(s: State, e: Env)
    requires !BookingAsks(s, e) && Retries(CheckBooking(s, e), e) && e.lock == PP_LOCK_OK
    requires !FinishAsks(CheckHold(CheckBooking(s, e), e), e)
    ensures TaskOf(Monitor(s, e)) == BoxTask(s, PP_CHARGECTRL_OPEN).(chargeSt := ChReady)
  {
    CalmBooking(s, e);
    RetryHold(CheckBooking(s, e), e);
    CalmFinish(CheckHold(CheckBooking(s, e), e), e);
    BoxTaskSame(s, CheckBooking(s, e), PP_CHARGECTRL_OPEN);
  }

  lemma RetryHold(b: State, e: Env)
    requires Retries(b, e) && e.lock == PP_LOCK_OK
    ensures TaskOf(CheckHold(b, e)) == BoxTask(b, PP_CHARGECTRL_OPEN).(chargeSt := ChReady)
  {
  }

  lemma BoxTaskSame(s: State, t: State, cmd: nat)
    requires TaskOf(s) == TaskOf(t)
    ensures BoxTask(s, cmd) == BoxTask(t, cmd)
  {
  }

  /** A charge that is over is a command to stop: a booked one at its target or when it fails, any other when
      it has finished or failed; only the booked one at its target will be reported as finished. */
  lemma EndIsTask(s: State, e: Env)
    requires !BookingAsks(s, e) && !Retries(CheckBooking(s, e), e) && !WindowLapses(s, e) && e.lock == PP_LOCK_OK
    requires (s.chargeSt == ChOngoing || e.chargeSt == 1) && !e.upgrade
    requires e.chargeSt == 3 || if s.appointCharging then e.soc >= s.book.targetSoc else e.chargeSt == 2
    ensures TaskOf(Monitor(s, e)) == BoxTask(s, PP_CHARGECTRL_CLOSE).(
              chargeSt := if (if s.appointCharging then e.soc >= s.book.targetSoc else e.chargeSt == 2) then ChFinish
                          else ChAbnormal,
              finishClose := if s.appointCharging then e.soc >= s.book.targetSoc else s.finishClose)
  {
    var b := CheckBooking(s, e);
    CalmBooking(s, e);
    CalmHold(b, e);
    EndFinish(b, e);
    BoxTaskSame(s, b, PP_CHARGECTRL_CLOSE);
    SameCharge(s, b);
  }

  lemma SameCharge(s: State, t: State)
    requires TaskOf(s) == TaskOf(t)
    ensures t.chargeSt == s.chargeSt && t.appointCharging == s.appointCharging && t.finishClose == s.finishClose
    ensures t.book == s.book && t.stage == s.stage && t.req == s.req && t.para == s.para
  {
  }

  lemma EndFinish(b: State, e: Env)
    requires ChargingSeenNow(b, e) && e.lock == PP_LOCK_OK
    requires e.chargeSt == 3 || if b.appointCharging then e.soc >= b.book.targetSoc else e.chargeSt == 2
    ensures TaskOf(CheckFinished(b, e)) == BoxTask(b, PP_CHARGECTRL_CLOSE).(
              chargeSt := if (if b.appointCharging then e.soc >= b.book.targetSoc else e.chargeSt == 2) then ChFinish
                          else ChAbnormal,
              finishClose := if b.appointCharging then e.soc >= b.book.targetSoc else b.finishClose)
  {
  }

  /** End to end: a booked charge that has reached its target is stopped by the box itself, and reported under
      the booking's id as finished (0x700); one that has failed, as closed (0x701). */
  lemma BookedChargeIsStopped(s: State, taken: Env, sent: Env, wait: seq<Env>, over: Env, last: Env)
    requires s.stage == Idle && s.appointCharging && s.chargeSt == ChOngoing && !taken.upgrade
    requires taken.lock == PP_LOCK_OK
    requires !BookingAsks(s, taken) && !Retries(CheckBooking(s, taken), taken) && !WindowLapses(s, taken)
    requires taken.soc >= s.book.targetSoc || taken.chargeSt == 3
    requires CalmFrom(s, taken, sent, wait, over, last)
    requires forall i :: 0 <= i < |wait| ==> !Over(PP_CHARGECTRL_CLOSE, sent.later, wait[i])
    requires Over(PP_CHARGECTRL_CLOSE, sent.later, over) && InTime(sent.later, over)
    ensures var t := AfterCalls(s, taken, sent, wait, over, last);
      && t.stage == Idle && !t.req && !t.appointCharging && t.chargeSt == ChIdle
      && t.log.can == s.log.can + [1, 0]
      && t.log.finals == s.log.finals
           + [BookingReport(if taken.soc >= s.book.targetSoc then 0x700 else 0x701, s.book.id, 0, s.para.expTime)]
  {
    EndIsTask(s, taken);
    TaskIsPending(Monitor(s, taken), TaskOf(Monitor(s, taken)));
    StopIsCarriedOut(s, taken, sent, wait, over, last);
    BookedStopSeen(s, TaskOf(Monitor(s, taken)), AfterCalls(s, taken, sent, wait, over, last), sent.later);
  }

  lemma BookedStopSeen(s: State, m: State, t: State, since: nat)
    requires TaskOf(t) == Stopped(m, since, true) && m.style == Tbox && s.stage == m.stage == Idle
    requires m.log.can == s.log.can && m.log.finals == s.log.finals
    ensures t.stage == Idle && !t.req && !t.appointCharging && t.chargeSt == ChIdle && t.log.can == s.log.can + [1, 0]
    ensures t.log.finals == s.log.finals
      + [BookingReport(if m.finishClose then 0x700 else 0x701, m.para.bookingId, m.para.eventId, m.para.expTime)]
  {
  }

  // ---- The booking itself ----

  predicate EditsBooking(e: Event) {
    (e.TspBook? || e.TspCancel? || e.HuBook? || e.HuCancel?) && e.lock == PP_LOCK_OK
  }

  lemma {:induction false} BookingStays(s: State, es: seq<Event>)
    requires forall i :: 0 <= i < |es| ==> !EditsBooking(es[i])
    ensures Run(s, es).book == s.book
    decreases |es|
  {
    if es != [] {
      OtherEventsKeepBooking(s, es[0]);
      BookingStays(Step(s, es[0]), es[1..]);
    }
  }

  lemma OtherEventsKeepBooking(s: State, e: Event)
    requires !EditsBooking(e)
    ensures Step(s, e).book == s.book
  {
    if e.Main? {
      MonitorKeepsBooking(s, e.env);
      CommandKeepsBooking(Monitor(s, e.env), e.env);
    }
  }

  lemma MonitorKeepsBooking(s: State, e: Env)
    ensures Monitor(s, e).book == s.book
  {
    CheckKeepsBooking(s, e);
    HoldKeepsBooking(CheckBooking(s, e), e);
    FinishedKeepsBooking(CheckHold(CheckBooking(s, e), e), e);
  }

  lemma CheckKeepsBooking(s: State, e: Env)
    ensures CheckBooking(s, e).book == s.book
  {
  }

  lemma HoldKeepsBooking(s: State, e: Env)
    ensures CheckHold(s, e).book == s.book
  {
  }

  lemma FinishedKeepsBooking(s: State, e: Env)
    ensures CheckFinished(s, e).book == s.book
  {
  }

  lemma CommandKeepsBooking(s: State, e: Env)
    ensures Command(s, e).book == s.book
  {
  }

  /** The last booking counts: after any run without another edit the booking is the one given, the head
      unit's without an event; a cancelled one is not valid. */
  lemma LastBookingCounts(s: State, book: Book, expTime: int, eventId: int, es: seq<Event>)
    requires forall i :: 0 <= i < |es| ==> !EditsBooking(es[i])
    ensures Run(Step(s, TspBook(PP_LOCK_OK, book, expTime)), es).book == book.(valid := true)
    ensures Run(Step(s, HuBook(PP_LOCK_OK, book)), es).book == book.(valid := true, eventId := 0)
    ensures !Run(Step(s, TspCancel(PP_LOCK_OK, eventId, expTime)), es).book.valid
    ensures Run(Step(s, HuCancel(PP_LOCK_OK, book)), es).book
            == book.(valid := false, period := 0xff, eventId := s.book.eventId)
  {
    BookingStays(Step(s, TspBook(PP_LOCK_OK, book, expTime)), es);
    BookingStays(Step(s, HuBook(PP_LOCK_OK, book)), es);
    BookingStays(Step(s, TspCancel(PP_LOCK_OK, eventId, expTime)), es);
    BookingStays(Step(s, HuCancel(PP_LOCK_OK, book)), es);
  }

  /** What booking and cancelling tell: the vehicle is told to hold or to drop the booking, and the TSP that
      its edit is done, under its own event, which is also the event that a command still running will be
      reported under. */
  lemma EditsAreTold(s: State, book: Book, expTime: int, eventId: int)
    ensures var t := Step(s, TspBook(PP_LOCK_OK, book, expTime));
      && t.para == s.para.(eventId := book.eventId, expTime := expTime)
      && t.log == s.log.(booked := s.log.booked + [true],
                         notes := s.log.notes + [StatusReport(2, 0, 0x702, book.eventId, expTime)])
    ensures var t := Step(s, TspCancel(PP_LOCK_OK, eventId, expTime));
      && t.para == s.para.(eventId := eventId, expTime := expTime)
      && t.log == s.log.(booked := s.log.booked + [false],
                         notes := s.log.notes + [StatusReport(2, 0, 0x703, eventId, expTime)])
    ensures Step(s, HuBook(PP_LOCK_OK, book)).log == s.log.(booked := s.log.booked + [true])
    ensures Step(s, HuCancel(PP_LOCK_OK, book)).log == s.log.(booked := s.log.booked + [false])
  {
  }

  /** A booking that is cancelled triggers nothing in any run without a new one. */
  lemma {:induction false} CancelledNeverTriggers(s: State, es: seq<Event>)
    requires !s.book.valid && forall i :: 0 <= i < |es| ==> !EditsBooking(es[i])
    ensures Run(s, es).log.polls == s.log.polls
    decreases |es|
  {
    if es != [] {
      OtherEventsKeepBooking(s, es[0]);
      OnlyBookingMovesFilter(s, es[0]);
      CancelledNeverTriggers(Step(s, es[0]), es[1..]);
    }
  }

  /** At initialisation nothing is asked for, held or reported, and the vehicle is told of a saved booking. */
  lemma StartsCleared(now: nat, book: Book)
    ensures var s := Init(now, book);
      && s.stage == Idle && !s.req && s.chargeSt == ChIdle && !s.appointCharging && !s.finishClose && !s.performed
      && !s.window.appointcharge && s.fail == s.failtype == s.onOffFlag == 0 && s.book == book
      && s.log == NoLog.(booked := if book.valid then [true] else [])
  {
  }

  /** From initialisation, in every run: the command machine's and the hold loop's promises. */
  lemma EveryRun(start: nat, book: Book, es: seq<Event>)
    ensures CommandInv(CoreOf(Run(Init(start, book), es)))
    ensures HoldInv(HoldOf(Run(Init(start, book), es)))
  {
    RunKeepsCommandInv(Init(start, book), es);
    RunKeepsHoldInv(Init(start, book), es);
  }

  // ---- The C file's own form ----

  class ChargeController {
    var stage: Stage
    var req: bool
    var cmd: nat
    var style: Style
    var para: Para
    var waitStart: nat
    var fail: nat
    var failtype: nat
    var onOffFlag: nat
    var appointCharging: bool
    var finishClose: bool
    var chargeSt: ChargeSt
    var window: Window
    var performed: bool
    var delaytime: nat
    var book: Book
    ghost var log: Log

    ghost function View(): State
      reads this
    {
      State(stage, req, cmd, style, para, waitStart, fail, failtype, onOffFlag,
            appointCharging, finishClose, chargeSt, window, performed, delaytime, book, log)
    }

    constructor (now: nat, saved: Book)
      ensures View() == Init(now, saved)
      ensures CommandInv(CoreOf(View())) && FilterInv(FilterOf(View()), now) && HoldInv(HoldOf(View()))
    {
      stage, req, cmd, style := Idle, false, 0, Unset;
      para, waitStart := Para(0, 0, 0, -1), 0;
      fail, failtype, onOffFlag := 0, 0, 0;
      appointCharging, finishClose, chargeSt := false, false, ChIdle;
      window := Window(false, 0, now);
      performed, delaytime := false, 0;
      book := saved;
      log := if saved.valid then NoLog.Booked(true) else NoLog;
    }

    /** `SetPP_ChargeCtrl_Request` for the box itself. */
    method RequestFromTbox(command: nat, lock: int) returns (ret: int)
      modifies this
      ensures View() == AskTbox(old(View()), command, lock) && ret == lock
    {
      if lock != PP_LOCK_OK {
        return lock;
      }
      req := true;
      para := para.(bookingId := book.id, eventId := 0);
      cmd := command;
      style := Tbox;
      ret := lock;
    }

    /** The first part of `PP_ChargeCtrl_chargeStMonitor`. */
    method MonitorBooking(e: Env)
      modifies this
      ensures View() == CheckBooking(old(View()), e)
    {
      if book.valid && Repeating(book.period) && OnDay(book.period, e.week) {
        if e.hour == book.hour && e.min == book.min {
          PollMatches(e);
        } else {
          PollDiffers(e);
        }
      }
    }

    method PollDiffers(e: Env)
      modifies this
      ensures View() == OtherPoll(old(View()), e)
    {
      if Elapsed(e.now, delaytime) > 3000 {
        performed := false;
      }
      log := log.Polled(Poll(e.now, false, false));
    }

    method PollMatches(e: Env)
      modifies this
      ensures View() == MatchingPoll(old(View()), e)
    {
      ghost var fires := Fires(View());
      if chargeSt != ChOngoing && !performed {
        FireBooking(e);
      }
      delaytime := e.now;
      log := log.Polled(Poll(e.now, true, fires));
    }

    method FireBooking(e: Env)
      modifies this
      ensures View() == Trigger(old(View()), e)
    {
      ArmBooking(e);
      var ret := RequestFromTbox(PP_CHARGECTRL_OPEN, e.lock);
      Refusal(ret);
    }

    method ArmBooking(e: Env)
      modifies this`window, this`performed, this`chargeSt, this`log
      ensures View() == Arm(old(View()), e)
    {
      performed := true;
      window := Window(true, e.stamp, e.now);
      chargeSt := ChReady;
      log := log.Booked(false).Marked(Triggered(e.stamp));
    }

    method Refusal(ret: int)
      modifies this
      ensures View() == NoteRefusal(old(View()), ret)
    {
      if ret != PP_LOCK_OK {
        if ret == PP_LOCK_ERR_FOTAUPDATE {
          failtype := PP_RMTCTRL_FOTA_UPGRADE;
          log := log.Note(BookingReport(0x711, book.id, book.eventId, -1));
        }
      }
    }

    /** The hold loop. */
    method MonitorHold(e: Env)
      modifies this
      ensures View() == CheckHold(old(View()), e)
    {
      if Elapsed(e.now, window.checkDelay) > 5000 {
        if window.appointcharge && e.chargeSt != CFG_CHARGEING {
          if e.stamp <= window.appointTime + PP_CHARGECTRL_APPOINTHOLDTIME {
            if FailedForConditions(failtype) {
              if e.gun == 1 && e.ready == 0 && !e.upgrade {
                chargeSt := ChReady;
                log := log.Marked(Retried(e.stamp, e.chargeSt, e.gun, e.ready, e.upgrade));
                var _ := RequestFromTbox(PP_CHARGECTRL_OPEN, e.lock);
              }
            }
          } else {
            log := log.Booked(true).Marked(WindowLapsed);
            window := window.(appointcharge := false);
          }
        }
      }
    }

    /** The end-of-charge check. */
    method MonitorFinished(e: Env)
      modifies this
      ensures View() == CheckFinished(old(View()), e)
    {
      if (chargeSt == ChOngoing || e.chargeSt == CFG_CHARGEING) && !e.upgrade {
        window := window.(appointcharge := false);
        log := log.Marked(ChargingSeen);
        if appointCharging {
          MonitorBooked(e);
        } else {
          MonitorPlain(e);
        }
      }
    }

    method MonitorBooked(e: Env)
      modifies this
      ensures View() == EndBooked(old(View()), e)
    {
      if e.soc >= book.targetSoc {
        chargeSt := ChFinish;
        finishClose := true;
        var _ := RequestFromTbox(PP_CHARGECTRL_CLOSE, e.lock);
      } else if e.chargeSt == CFG_CHARGEFAIL {
        chargeSt := ChAbnormal;
        finishClose := false;
        var _ := RequestFromTbox(PP_CHARGECTRL_CLOSE, e.lock);
      }
    }

    method MonitorPlain(e: Env)
      modifies this
      ensures View() == EndPlain(old(View()), e)
    {
      if e.chargeSt == CFG_CHARGEFINISH || e.chargeSt == CFG_CHARGEFAIL {
        if e.chargeSt == CFG_CHARGEFINISH {
          chargeSt := ChFinish;
        } else {
          chargeSt := ChAbnormal;
        }
        var _ := RequestFromTbox(PP_CHARGECTRL_CLOSE, e.lock);
      }
    }

    /** `PP_ChargeCtrl_startHandle`. */
    method TryStart(e: Env) returns (res: int)
      modifies this
      ensures View() == StartHandle(old(View()), e)
      ensures res == if Granted(old(View()), e) then 0 else -1
    {
      res := 0;
      if cmd == PP_CHARGECTRL_OPEN && !(e.gun == 1 && e.ready == 0) {
        fail := 1;
        if e.gun == 1 {
          failtype := PP_RMTCTRL_CHRGGUNUNCONNT;
        } else {
          failtype := PP_RMTCTRL_READYLIGHTON;
        }
        res := -1;
      } else if style == Tsp || style == Hu {
        log := log.Start(StatusReport(1, 0, para.reqType, para.eventId, para.expTime));
      }
    }

    method ResetResult()
      modifies this
      ensures View() == Fresh(old(View()))
    {
      log := log.Consumed();
      fail := 0;
      failtype := PP_RMTCTRL_NORMAL;
      onOffFlag := 0;
    }

    method TakeRequest(e: Env)
      modifies this
      ensures View() == TakeUp(old(View()), e)
    {
      ResetResult();
      var res := TryStart(e);
      if res == 0 {
        stage := ReqStart;
      } else {
        stage := End;
        log := log.Came(Refused);
      }
      req := false;
    }

    method IssueCommand(e: Env)
      modifies this
      ensures View() == SendCommand(old(View()), e)
    {
      if cmd == PP_CHARGECTRL_OPEN {
        log := log.Can(CAN_STARTCHAGER);
      } else {
        if book.valid {
          log := log.Booked(true);
        }
        log := log.Can(CAN_STOPCHAGER);
      }
      stage := RespWait;
      waitStart := e.later;
    }

    method Await(e: Env)
      modifies this
      ensures View() == AwaitResponse(old(View()), e)
    {
      if Elapsed(e.later, waitStart) < 2000 {
        if cmd == PP_CHARGECTRL_OPEN {
          if e.onOff == 1 {
            SwitchedOn();
          }
        } else {
          if e.onOff == 0 {
            SwitchedOff();
          }
        }
      } else {
        TimeOut();
      }
    }

    method SwitchedOn()
      modifies this
      ensures View() == ChargeIsOn(old(View()))
    {
      chargeSt := ChOngoing;
      finishClose := false;
      Confirm(1);
    }

    method SwitchedOff()
      modifies this
      ensures View() == ChargeIsOff(old(View()))
    {
      appointCharging := false;
      log := log.Booked(false);
      chargeSt := ChIdle;
      Confirm(2);
    }

    method Confirm(flag: nat)
      modifies this
      ensures View() == SwitchSeen(old(View()), flag)
    {
      log := log.Can(CAN_CLEAN).Came(Confirmed);
      onOffFlag := flag;
      fail := 0;
      stage := End;
    }

    method TimeOut()
      modifies this`appointCharging, this`log, this`fail, this`failtype, this`chargeSt, this`stage
      ensures View() == NoResponse(old(View()))
    {
      appointCharging := false;
      log := log.Can(CAN_CLEAN).Came(TimedOut);
      SetFailure(PP_RMTCTRL_TIMEOUTFAIL);
      chargeSt := ChIdle;
      stage := End;
    }

    method SetFailure(reason: nat)
      modifies this`fail, this`failtype
      ensures fail == 1 && failtype == reason
    {
      fail := 1;
      failtype := reason;
    }

    /** `PP_ChargeCtrl_EndHandle`. */
    method EndHandle(e: Env) returns (report: Report)
      modifies this`appointCharging, this`finishClose
      ensures report == FinalReport(old(View()), e.unset)
      ensures appointCharging
              == (old(appointCharging) || (style == Tbox && cmd == PP_CHARGECTRL_OPEN && onOffFlag == 1))
      ensures finishClose == (old(finishClose) && style != Tbox)
    {
      if style == Tsp || style == Hu {
        if fail == 0 {
          report := StatusReport(2, 0, para.reqType, para.eventId, 0);
        } else {
          report := StatusReport(3, failtype, para.reqType, para.eventId, 0);
        }
      } else if style == Tbox {
        var code := 0;
        if cmd == PP_CHARGECTRL_OPEN {
          if onOffFlag == 1 {
            code := 0x710;
            appointCharging := true;
          } else {
            code := 0x711;
          }
        } else if onOffFlag == 2 {
          code := if finishClose then 0x700 else 0x701;
        }
        finishClose := false;
        report := BookingReport(code, para.bookingId, para.eventId, para.expTime);
      } else if style == Bluetooth {
        var result := e.unset;
        if fail == 0 {
          if cmd == PP_CHARGECTRL_OPEN {
            result := 2;
          }
          if cmd == PP_CHARGECTRL_CLOSE {
            result := 1;
          }
        } else {
          result := BT_FAIL;
        }
        report := BtReport(cmd, result);
      } else {
        report := NoReport;
      }
    }

    method EndStage(e: Env)
      modifies this
      ensures View() == Finish(old(View()), e)
    {
      var report := EndHandle(e);
      log := log.Final(report);
      stage := Idle;
    }

    method MainFunction(e: Env)
      modifies this
      ensures View() == Step(old(View()), Main(e))
    {
      MonitorBooking(e);
      MonitorHold(e);
      MonitorFinished(e);
      match stage
      case Idle => if req { TakeRequest(e); }
      case ReqStart => IssueCommand(e);
      case RespWait => Await(e);
      case End => EndStage(e);
    }

    /** The start and stop requests of the TSP and of the head unit are taken only when idle. */
    method AskStartOrStop(rt: int, st: Style, ev: int)
      modifies this
      ensures View() == StartOrStop(old(View()), rt, st, ev)
    {
      if rt == PP_COMAND_STARTCHARGE || rt == PP_COMAND_STOPCHARGE {
        if stage == Idle && !req {
          req := true;
          para := para.(reqType := rt, eventId := ev);
          cmd := if rt == PP_COMAND_STARTCHARGE then PP_CHARGECTRL_OPEN else PP_CHARGECTRL_CLOSE;
          style := st;
        }
      }
    }

    method RequestFromTsp(lock: int, rt: int, ev: int, exp: int)
      modifies this
      ensures View() == Step(old(View()), TspCharge(lock, rt, ev, exp))
    {
      if lock == PP_LOCK_OK {
        para := para.(eventId := ev, expTime := exp);
        AskStartOrStop(rt, Tsp, ev);
      }
    }

    method RequestFromHu(lock: int, rt: int)
      modifies this
      ensures View() == Step(old(View()), HuCharge(lock, rt))
    {
      if lock == PP_LOCK_OK {
        AskStartOrStop(rt, Hu, 0);
      }
    }

    method RequestFromBluetooth(lock: int, command: nat)
      modifies this
      ensures View() == Step(old(View()), BtCharge(lock, command))
    {
      if lock == PP_LOCK_OK {
        if command == 1 {
          cmd := PP_CHARGECTRL_CLOSE;
        } else if command == 2 {
          cmd := PP_CHARGECTRL_OPEN;
        }
        req := true;
        style := Bluetooth;
      }
    }

    /** Booking and cancelling by the TSP. */
    method BookFromTsp(lock: int, b: Book, exp: int)
      modifies this
      ensures View() == Step(old(View()), TspBook(lock, b, exp))
    {
      if lock == PP_LOCK_OK {
        para := para.(eventId := b.eventId, expTime := exp);
        book := b.(valid := true);
        log := log.Booked(true).Note(StatusReport(2, 0, 0x702, b.eventId, exp));
      }
    }

    method CancelFromTsp(lock: int, ev: int, exp: int)
      modifies this
      ensures View() == Step(old(View()), TspCancel(lock, ev, exp))
    {
      if lock == PP_LOCK_OK {
        para := para.(eventId := ev, expTime := exp);
        book := book.(valid := false);
        log := log.Booked(false).Note(StatusReport(2, 0, 0x703, ev, exp));
      }
    }

    /** Booking and cancelling at the head unit. */
    method BookFromHu(lock: int, b: Book)
      modifies this
      ensures View() == Step(old(View()), HuBook(lock, b))
    {
      if lock == PP_LOCK_OK {
        book := b.(valid := true, eventId := 0);
        log := log.Booked(true);
      }
    }

    method CancelFromHu(lock: int, b: Book)
      modifies this
      ensures View() == Step(old(View()), HuCancel(lock, b))
    {
      if lock == PP_LOCK_OK {
        book := b.(valid := false, period := 0xff, eventId := book.eventId);
        log := log.Booked(false);
      }
    }

    method SetCtrlReq(rt: int)
      modifies this
      ensures View() == Step(old(View()), Shell(rt))
    {
      para := para.(reqType := rt);
      req := true;
    }

    method Clear()
      modifies this
      ensures View() == Step(old(View()), ClearStatus)
    {
      req := false;
    }
  }
}
