/** The door lock and tailgate controllers, PP_doorLockCtrl.c and PP_autodoorCtrl.c.  The two
    files hold the same state machine with different constants, which a `Profile` carries. */
module BodyCtrl {
  import opened CtrlLog

  const PP_RMTCTRL_ACCNOOFF: nat := 0x01
  const PP_RMTCTRL_TIMEOUTFAIL: nat := 0x06
  const PP_CLOSEDOOR: nat := 1
  const PP_OPENDOOR: nat := 2

  /** The request type that means open, the CAN codes, the timeout in milliseconds, and the values
      of the vehicle signal that confirm opening and closing. */
  datatype Profile = Profile(
    openReqType: int,
    openCmd: nat,
    closeCmd: nat,
    timeout: nat,
    openSignal: int,
    closeSignal: int)

  const DoorLock: Profile := Profile(0x0000, 2, 1, 2000, 0, 1)
  const Tailgate: Profile := Profile(0x0200, 1, 2, 15000, 1, 0)

  ghost predicate Proper(p: Profile) {
    p.openCmd != CAN_CLEAN && p.closeCmd != CAN_CLEAN && p.timeout > 200
  }

  datatype Stage = Idle | ReqStart | RespWait | End

  datatype Style = Unset | Tsp | Bluetooth

  datatype Report =
    | TspReport(status: nat, failure: nat, reqType: int, eventId: int, expTime: int)
    | BtReport(cmd: nat, success: nat)

  /** The statics of the C file and, from `can` on, what has been done to the outside: CAN
      messages, start reports and final reports, and the requests taken up and how they came
      out. */
  datatype State = State(
    stage: Stage,
    req: bool,
    style: Style,
    reqType: int,
    expTime: int,
    eventId: int,
    doorType: nat,
    success: nat,
    failtype: nat,
    waitStart: nat,
    can: seq<nat>,
    starts: seq<Report>,
    finals: seq<Report>,
    consumed: nat,
    outcomes: seq<Outcome>)

  const Init: State := State(Idle, false, Unset, 0, 0, 0, 0, 0, 0, 0, [], [], [], 0, [])

  /** What one call of the main function reads: whether remote control is permitted, the clock
      (twice) and the vehicle signal. */
  datatype Env = Env(permitted: bool, t0: nat, t1: nat, signal: int)

  datatype Request =
    | FromTsp(reqType: int, expTime: int, eventId: int)
    | FromBluetooth(cmd: nat)
    | FromElsewhere

  datatype Event =
    | Main(env: Env)
    | SetRequest(locked: bool, request: Request)
    | Shell(reqType: int)
    | Clear

  function DoorType(p: Profile, reqType: int): nat {
    if reqType == p.openReqType then PP_OPENDOOR else PP_CLOSEDOOR
  }

  function Cmd(p: Profile, doorType: nat): nat {
    if doorType == PP_OPENDOOR then p.openCmd else p.closeCmd
  }

  function MainStep(p: Profile, s: State, e: Env): State {
    match s.stage
    case Idle =>
      if !s.req then s
      else if e.permitted then
        s.(req := false, success := 0, stage := ReqStart, consumed := s.consumed + 1,
           starts := if s.style == Tsp then s.starts + [TspReport(1, 0, s.reqType, s.eventId, s.expTime)] else s.starts)
      else
        s.(req := false, success := 0, failtype := PP_RMTCTRL_ACCNOOFF, stage := End,
           consumed := s.consumed + 1, outcomes := s.outcomes + [Refused])
    case ReqStart =>
      s.(can := s.can + [Cmd(p, s.doorType)], stage := RespWait, waitStart := e.t0)
    case RespWait =>
      if Elapsed(e.t0, s.waitStart) <= 200 then s
      else if Elapsed(e.t1, s.waitStart) < p.timeout then
        if e.signal == (if s.doorType == PP_OPENDOOR then p.openSignal else p.closeSignal) then
          s.(can := s.can + [CAN_CLEAN], success := 1, stage := End, outcomes := s.outcomes + [Confirmed])
        else s
      else
        s.(failtype := PP_RMTCTRL_TIMEOUTFAIL, can := s.can + [CAN_CLEAN], success := 0, stage := End,
           outcomes := s.outcomes + [TimedOut])
    case End =>
      var report :=
        if s.style == Tsp then
          TspReport(if s.success == 1 then 2 else 3, if s.success == 1 then 0 else s.failtype,
                    s.reqType, s.eventId, s.expTime)
        else BtReport(s.doorType, s.success);
      s.(finals := s.finals + [report], stage := Idle)
  }

  function Step(p: Profile, s: State, e: Event): State {
    match e
    case Main(env) => MainStep(p, s, env)
    case SetRequest(locked, r) =>
      if !locked then s
      else (match r
        case FromTsp(reqType, expTime, eventId) =>
          s.(req := true, reqType := reqType, expTime := expTime, eventId := eventId,
             doorType := DoorType(p, reqType), style := Tsp)
        case FromBluetooth(cmd) =>
          s.(req := true, style := Bluetooth,
             doorType := if cmd == 1 then PP_CLOSEDOOR else if cmd == 2 then PP_OPENDOOR else s.doorType)
        case FromElsewhere => s)
    case Shell(reqType) =>
      s.(req := true, reqType := reqType, doorType := DoorType(p, reqType), style := Tsp)
    case Clear => s.(req := false)
  }

  function Run(p: Profile, s: State, es: seq<Event>): State
    decreases |es|
  {
    if es == [] then s else Run(p, Step(p, s, es[0]), es[1..])
  }

  // ---- What every run keeps ----

  /** A final report tells how its request came out. */
  ghost predicate Tells(r: Report, o: Outcome) {
    match r
    case TspReport(status, failure, _, _, _) =>
      (match o
       case Confirmed => status == 2 && failure == 0
       case Refused => status == 3 && failure == PP_RMTCTRL_ACCNOOFF
       case TimedOut => status == 3 && failure == PP_RMTCTRL_TIMEOUTFAIL)
    case BtReport(_, success) => success == if o == Confirmed then 1 else 0
  }

  ghost predicate Inv(s: State) {
    && Alternates(s.can)
    // one unmatched command exactly while waiting, and one command/clean pair a granted request
    && |s.can| == 2 * Commanded(s.outcomes) + (if s.stage == RespWait then 1 else 0)
    // every request taken up is reported once, the current one not yet
    && s.consumed == |s.finals| + (if s.stage == Idle then 0 else 1)
    && |s.outcomes| == |s.finals| + (if s.stage == End then 1 else 0)
    // and truthfully
    && (forall k :: 0 <= k < |s.finals| ==> Tells(s.finals[k], s.outcomes[k]))
    && (s.stage == End ==> (match s.outcomes[|s.outcomes| - 1]
                            case Confirmed => s.success == 1
                            case Refused => s.success == 0 && s.failtype == PP_RMTCTRL_ACCNOOFF
                            case TimedOut => s.success == 0 && s.failtype == PP_RMTCTRL_TIMEOUTFAIL))
  }

  lemma IdleKeepsInv(p: Profile, s: State, e: Env)
    requires Inv(s) && s.stage == Idle
    ensures Inv(MainStep(p, s, e))
  {
    CommandedMore(s.outcomes, Refused);
  }

  lemma ReqStartKeepsInv(p: Profile, s: State, e: Env)
    requires Inv(s) && s.stage == ReqStart && Proper(p)
    ensures Inv(MainStep(p, s, e))
  {
    AlternatesMore(s.can, Cmd(p, s.doorType));
  }

  lemma RespWaitKeepsInv(p: Profile, s: State, e: Env)
    requires Inv(s) && s.stage == RespWait
    ensures Inv(MainStep(p, s, e))
  {
    CommandedMore(s.outcomes, Confirmed);
    CommandedMore(s.outcomes, TimedOut);
    AlternatesMore(s.can, CAN_CLEAN);
  }

  lemma EndKeepsInv(p: Profile, s: State, e: Env)
    requires Inv(s) && s.stage == End
    ensures Inv(MainStep(p, s, e))
  {
    var s' := MainStep(p, s, e);
    assert Tells(s'.finals[|s.finals|], s.outcomes[|s.finals|]);
  }

  lemma StepKeepsInv(p: Profile, s: State, e: Event)
    requires Inv(s) && Proper(p)
    ensures Inv(Step(p, s, e))
  {
    if e.Main? {
      match s.stage
      case Idle => IdleKeepsInv(p, s, e.env);
      case ReqStart => ReqStartKeepsInv(p, s, e.env);
      case RespWait => RespWaitKeepsInv(p, s, e.env);
      case End => EndKeepsInv(p, s, e.env);
    }
  }

  /** Over every run, whatever requests arrive and whatever they overwrite. */
  lemma {:induction false} RunKeepsInv(p: Profile, s: State, es: seq<Event>)
    requires Inv(s) && Proper(p)
    ensures Inv(Run(p, s, es))
    decreases |es|
  {
    if es != [] {
      StepKeepsInv(p, s, es[0]);
      RunKeepsInv(p, Step(p, s, es[0]), es[1..]);
    }
  }

  /** The wait that began at `since` is over: more than 200 ms have passed, and the time is up or the
      signal is the awaited one. */
  predicate Over(p: Profile, opens: bool, since: nat, e: Env) {
    && Elapsed(e.t0, since) > 200
    && (!InTime(p, since, e) || e.signal == if opens then p.openSignal else p.closeSignal)
  }

  predicate InTime(p: Profile, since: nat, e: Env) {
    Elapsed(e.t1, since) < p.timeout
  }

  /** When the wait ends: on the first call that sees the timeout, or before on the first call
      later than 200 ms that sees the awaited signal; it ends well exactly in time; no other call
      changes anything. */
  lemma WaitEndsIff(p: Profile, s: State, e: Env)
    requires s.stage == RespWait
    ensures MainStep(p, s, e).stage == End <==> Over(p, s.doorType == PP_OPENDOOR, s.waitStart, e)
    ensures MainStep(p, s, e).stage == End ==> (MainStep(p, s, e).success == 1 <==> InTime(p, s.waitStart, e))
    ensures MainStep(p, s, e).stage != End ==> MainStep(p, s, e) == s
  {
  }

  // ---- A request that nothing disturbs ----

  /** A request of the TSP, with its type, expiry and event; of Bluetooth, with its code; or of the
      shell, with its type. */
  datatype Order = TspOrder(reqType: int, expTime: int, eventId: int) | BtOrder(code: nat) | ShellOrder(reqType: int)

  /** How the order comes, the lock letting it through. */
  function Asked(o: Order): Event {
    match o
    case TspOrder(reqType, expTime, eventId) => SetRequest(true, FromTsp(reqType, expTime, eventId))
    case BtOrder(code) => SetRequest(true, FromBluetooth(code))
    case ShellOrder(reqType) => Shell(reqType)
  }

  /** The direction of an order given in state `a`.  Bluetooth closes with the code 1 and opens with 2;
      any other code repeats the direction there was. */
  function Direction(p: Profile, a: State, o: Order): nat {
    match o
    case TspOrder(reqType, _, _) => if reqType == p.openReqType then 2 else 1
    case ShellOrder(reqType) => if reqType == p.openReqType then 2 else 1
    case BtOrder(code) => if code == 1 || code == 2 then code else a.doorType
  }

  /** The command of that direction. */
  function OrderedCmd(p: Profile, a: State, o: Order): nat {
    if Direction(p, a, o) == 2 then p.openCmd else p.closeCmd
  }

  /** What is reported of the order: its status to the TSP, its direction and success to Bluetooth. */
  function ReportOf(p: Profile, a: State, o: Order, status: nat, failure: nat): Report {
    match o
    case TspOrder(reqType, expTime, eventId) => TspReport(status, failure, reqType, eventId, expTime)
    case ShellOrder(reqType) => TspReport(status, failure, reqType, a.eventId, a.expTime)
    case BtOrder(_) => BtReport(Direction(p, a, o), if status == 2 then 1 else 0)
  }

  /** The outside has seen the order started, of which Bluetooth is not told, and the messages `more`. */
  ghost predicate Started(p: Profile, a: State, o: Order, s: State, more: seq<nat>) {
    && s.starts == (if o.BtOrder? then a.starts else a.starts + [ReportOf(p, a, o, 1, 0)])
    && s.can == a.can + more
  }

  ghost predicate Untouched(a: State, s: State) {
    s.starts == a.starts && s.can == a.can
  }

  /** The order was refused: reported so, with nothing sent. */
  ghost predicate WasRefused(p: Profile, a: State, o: Order, s: State) {
    s.finals == a.finals + [ReportOf(p, a, o, 3, PP_RMTCTRL_ACCNOOFF)] && Untouched(a, s)
  }

  /** It was started, its command sent and withdrawn, and reported as finished or as timed out. */
  ghost predicate WasCarriedOut(p: Profile, a: State, o: Order, s: State, well: bool) {
    && Started(p, a, o, s, [OrderedCmd(p, a, o), CAN_CLEAN])
    && s.finals == a.finals + [if well then ReportOf(p, a, o, 2, 0) else ReportOf(p, a, o, 3, PP_RMTCTRL_TIMEOUTFAIL)]
  }

  /** The order has been answered once. */
  ghost predicate Answered(p: Profile, a: State, o: Order, s: State) {
    WasRefused(p, a, o, s) || WasCarriedOut(p, a, o, s, true) || WasCarriedOut(p, a, o, s, false)
  }

  /** The state carries the order. */
  ghost predicate Carries(p: Profile, a: State, o: Order, s: State) {
    && s.doorType == Direction(p, a, o)
    && s.style == (if o.BtOrder? then Bluetooth else Tsp)
    && (o.TspOrder? ==> s.reqType == o.reqType && s.expTime == o.expTime && s.eventId == o.eventId)
    && (o.ShellOrder? ==> s.reqType == o.reqType && s.expTime == a.expTime && s.eventId == a.eventId)
  }

  /** Where the order stands, `a` being the state it was given in. */
  ghost predicate Serves(p: Profile, a: State, o: Order, s: State) {
    var cmd := OrderedCmd(p, a, o);
    && Carries(p, a, o, s)
    && match s.stage
       case Idle => if s.req then Untouched(a, s) && s.finals == a.finals else Answered(p, a, o, s)
       case ReqStart => !s.req && s.finals == a.finals && Started(p, a, o, s, [])
       case RespWait => !s.req && s.finals == a.finals && Started(p, a, o, s, [cmd])
       case End =>
         !s.req && s.finals == a.finals
         && ((s.success == 0 && s.failtype == PP_RMTCTRL_ACCNOOFF && Untouched(a, s))
             || (s.success == 1 && Started(p, a, o, s, [cmd, CAN_CLEAN]))
             || (s.success == 0 && s.failtype == PP_RMTCTRL_TIMEOUTFAIL && Started(p, a, o, s, [cmd, CAN_CLEAN])))
  }

  lemma AskedServes(p: Profile, a: State, o: Order)
    requires a.stage == Idle
    ensures Serves(p, a, o, Step(p, a, Asked(o))) && Step(p, a, Asked(o)).req && Step(p, a, Asked(o)).stage == Idle
  {
  }

  lemma Sent(a: seq<nat>, cmd: nat)
    ensures a + [] == a && a + [cmd] + [CAN_CLEAN] == a + [cmd, CAN_CLEAN]
  {
  }

  lemma MainServes(p: Profile, a: State, o: Order, s: State, e: Env)
    requires Serves(p, a, o, s)
    ensures Serves(p, a, o, MainStep(p, s, e))
  {
    Sent(a.can, OrderedCmd(p, a, o));
  }

  // ---- A request that was taken up comes to its end ----

  function ClockOf(e: Event): Reading {
    if e.Main? then Reading(e.env.t0, e.env.t1) else NoReading
  }

  /** The calls of the main function that are needed at most: first by stage, then by what is
      left of the wait. */
  function CallsLeft(p: Profile, s: State, now: nat): nat {
    match s.stage
    case Idle => 0
    case End => 1
    case RespWait => 2 + if s.waitStart + p.timeout > now then s.waitStart + p.timeout - now else 0
    case ReqStart => 3 + p.timeout
  }

  lemma MainGetsCloser(p: Profile, s: State, e: Env, now: nat)
    requires Proper(p) && now < e.t0 <= e.t1 < CLOCK_MODULUS
    requires s.stage != Idle && (s.stage == RespWait ==> s.waitStart <= now)
    ensures CallsLeft(p, MainStep(p, s, e), e.t1) < CallsLeft(p, s, now)
    ensures MainStep(p, s, e).stage == RespWait ==> MainStep(p, s, e).waitStart <= e.t1
  {
  }

  /** With an advancing clock every request taken up comes back to idle within `timeout + 3`
      calls, even when new requests keep arriving. */
  lemma {:induction false} ReturnsToIdle(p: Profile, s: State, now: nat, es: seq<Event>) returns (k: nat)
    requires Proper(p) && Advancing(es, ClockOf, now)
    requires s.stage == RespWait ==> s.waitStart <= now
    requires Calls(es, ClockOf) >= CallsLeft(p, s, now)
    ensures k <= |es| && Run(p, s, es[..k]).stage == Idle
    decreases |es|
  {
    k := 0;
    if s.stage != Idle {
      if es[0].Main? {
        MainGetsCloser(p, s, es[0].env, now);
      }
      k := ReturnsToIdle(p, Step(p, s, es[0]), After(es[0], ClockOf, now), es[1..]);
      k := k + 1;
      assert es[..k][0] == es[0] && es[..k][1..] == es[1..][..k - 1];
    }
  }

  /** The calls needed at most to be idle with nothing pending. */
  function CallsToRest(p: Profile, s: State, now: nat): nat {
    CallsLeft(p, s, now) + if s.req then p.timeout + 4 else 0
  }

  lemma MainGetsToRest(p: Profile, s: State, e: Env, now: nat)
    requires Proper(p) && now < e.t0 <= e.t1 < CLOCK_MODULUS
    requires s.stage == RespWait ==> s.waitStart <= now
    ensures var t := MainStep(p, s, e);
      && (CallsToRest(p, t, e.t1) < CallsToRest(p, s, now) || CallsToRest(p, t, e.t1) == CallsToRest(p, s, now) == 0)
      && (t.stage == RespWait ==> t.waitStart <= e.t1)
    ensures CallsToRest(p, s, now) == 0 <==> s.stage == Idle && !s.req
  {
  }

  // ---- So a request that nothing disturbs is answered ----

  ghost predicate OnlyCalls(es: seq<Event>) {
    forall i :: 0 <= i < |es| ==> es[i].Main?
  }

  lemma {:induction false} CallsOnly(es: seq<Event>)
    requires OnlyCalls(es)
    ensures Calls(es, ClockOf) == |es|
    decreases |es|
  {
    if es != [] {
      CallsOnly(es[1..]);
    }
  }

  lemma {:induction false} RunServes(p: Profile, a: State, o: Order, s: State, es: seq<Event>)
    requires Serves(p, a, o, s) && OnlyCalls(es)
    ensures Serves(p, a, o, Run(p, s, es)) && (!s.req ==> !Run(p, s, es).req)
    decreases |es|
  {
    if es != [] {
      MainServes(p, a, o, s, es[0].env);
      RunServes(p, a, o, Step(p, s, es[0]), es[1..]);
    }
  }

  /** Where a request that no other disturbs stands after any number of calls. */
  lemma RequestIsServed(p: Profile, a: State, o: Order, es: seq<Event>)
    requires a.stage == Idle && OnlyCalls(es)
    ensures Serves(p, a, o, Run(p, Step(p, a, Asked(o)), es))
  {
    AskedServes(p, a, o);
    RunServes(p, a, o, Step(p, a, Asked(o)), es);
  }

  /** A request that no other disturbs is back in idle within `timeout + 4` calls, with exactly one final
      report of its own: a refusal with nothing sent, or, after one start report to the TSP, the command
      of its direction and its clean, finished or timed out. */
  lemma RequestIsAnswered(p: Profile, a: State, o: Order, now: nat, es: seq<Event>) returns (k: nat)
    requires Proper(p) && a.stage == Idle
    requires OnlyCalls(es) && Advancing(es, ClockOf, now) && |es| >= p.timeout + 4
    ensures k <= |es|
    ensures var s := Run(p, Step(p, a, Asked(o)), es[..k]);
      s.stage == Idle && !s.req && Answered(p, a, o, s)
  {
    var s := Step(p, a, Asked(o));
    AskedServes(p, a, o);
    MainServes(p, a, o, s, es[0].env);
    var t := Step(p, s, es[0]);
    CallsOnly(es[1..]);
    k := ReturnsToIdle(p, t, es[0].env.t1, es[1..]);
    RunServes(p, a, o, t, es[1..][..k]);
    k := k + 1;
    assert es[..k][0] == es[0] && es[..k][1..] == es[1..][..k - 1];
  }

  lemma {:induction false} IdleStays(p: Profile, s: State, es: seq<Event>)
    requires s.stage == Idle && !s.req && OnlyCalls(es)
    ensures Run(p, s, es) == s
    decreases |es|
  {
    if es != [] {
      IdleStays(p, s, es[1..]);
    }
  }

  /** A request cleared before it is taken up comes to nothing, whatever calls follow. */
  lemma ClearedIsForgotten(p: Profile, a: State, o: Order, es: seq<Event>)
    requires a.stage == Idle && OnlyCalls(es)
    ensures var s := Run(p, Step(p, Step(p, a, Asked(o)), Clear), es);
      s.stage == Idle && !s.req && Untouched(a, s) && s.finals == a.finals && s.consumed == a.consumed
  {
    IdleStays(p, Step(p, Step(p, a, Asked(o)), Clear), es);
  }

  // ---- And how it comes out ----

  /** The calls of the main function, one after the other. */
  function CallAll(p: Profile, s: State, es: seq<Env>): State
    decreases |es|
  {
    if es == [] then s else CallAll(p, MainStep(p, s, es[0]), es[1..])
  }

  lemma {:induction false} StillWaits(p: Profile, s: State, es: seq<Env>)
    requires s.stage == RespWait
    requires forall i :: 0 <= i < |es| ==> !Over(p, s.doorType == PP_OPENDOOR, s.waitStart, es[i])
    ensures CallAll(p, s, es) == s
    decreases |es|
  {
    if es != [] {
      WaitEndsIff(p, s, es[0]);
      assert MainStep(p, s, es[0]) == s;
      StillWaits(p, s, es[1..]);
    }
  }

  /** A request that is not permitted when it is taken up is refused. */
  lemma RefusedWhenNotPermitted(p: Profile, a: State, o: Order, taken: Env, last: Env)
    requires a.stage == Idle && !taken.permitted
    ensures var s := MainStep(p, MainStep(p, Step(p, a, Asked(o)), taken), last);
      s.stage == Idle && !s.req && WasRefused(p, a, o, s)
  {
    AskedServes(p, a, o);
  }

  lemma SentForOrder(p: Profile, a: State, o: Order, taken: Env, sent: Env)
    requires a.stage == Idle && taken.permitted
    ensures var s := MainStep(p, MainStep(p, Step(p, a, Asked(o)), taken), sent);
      && s.stage == RespWait && s.waitStart == sent.t0 && s.doorType == Direction(p, a, o) && Serves(p, a, o, s)
  {
    AskedServes(p, a, o);
    MainServes(p, a, o, Step(p, a, Asked(o)), taken);
    MainServes(p, a, o, MainStep(p, Step(p, a, Asked(o)), taken), sent);
  }

  lemma AnsweredWell(p: Profile, a: State, o: Order, s: State, over: Env, last: Env)
    requires s.stage == RespWait && Serves(p, a, o, s)
    requires Over(p, Direction(p, a, o) == 2, s.waitStart, over)
    ensures var t := MainStep(p, MainStep(p, s, over), last);
      t.stage == Idle && !t.req && WasCarriedOut(p, a, o, t, InTime(p, s.waitStart, over))
  {
    Sent(a.can, OrderedCmd(p, a, o));
  }

  /** A permitted one is carried out: taken up, its command sent, and after any calls that find nothing
      the call that finds the wait over ends it, well exactly if in time. */
  lemma CarriedOutWhenPermitted(p: Profile, a: State, o: Order, taken: Env, sent: Env, wait: seq<Env>, over: Env,
                                last: Env)
    requires a.stage == Idle && taken.permitted
    requires forall i :: 0 <= i < |wait| ==> !Over(p, Direction(p, a, o) == 2, sent.t0, wait[i])
    requires Over(p, Direction(p, a, o) == 2, sent.t0, over)
    ensures var w := MainStep(p, MainStep(p, Step(p, a, Asked(o)), taken), sent);
      var s := MainStep(p, MainStep(p, CallAll(p, w, wait), over), last);
      s.stage == Idle && !s.req && WasCarriedOut(p, a, o, s, InTime(p, sent.t0, over))
  {
    SentForOrder(p, a, o, taken, sent);
    var w := MainStep(p, MainStep(p, Step(p, a, Asked(o)), taken), sent);
    StillWaits(p, w, wait);
    AnsweredWell(p, a, o, w, over, last);
  }

  /** The codes: the door opens with request type 0 and CAN code 2 and closes with 1, the tailgate opens
      with 0x200 and 1 and closes with 2; the door signal is 0 when open, that of the tailgate 1. */
  lemma CodesOfOrders(a: State, exp: int, ev: int, other: int)
    ensures OrderedCmd(DoorLock, a, TspOrder(0, exp, ev)) == 2 && OrderedCmd(DoorLock, a, BtOrder(1)) == 1
    ensures other != 0 ==> OrderedCmd(DoorLock, a, TspOrder(other, exp, ev)) == 1
    ensures OrderedCmd(Tailgate, a, TspOrder(0x200, exp, ev)) == 1 && OrderedCmd(Tailgate, a, BtOrder(1)) == 2
    ensures other != 0x200 ==> OrderedCmd(Tailgate, a, TspOrder(other, exp, ev)) == 2
    ensures OrderedCmd(DoorLock, a, BtOrder(2)) == 2 && OrderedCmd(Tailgate, a, BtOrder(2)) == 1
    ensures forall e: Env :: Elapsed(e.t0, 0) > 200 && Elapsed(e.t1, 0) < 2000 ==>
      && (Over(DoorLock, true, 0, e) <==> e.signal == 0) && (Over(DoorLock, false, 0, e) <==> e.signal == 1)
      && (Over(Tailgate, true, 0, e) <==> e.signal == 1) && (Over(Tailgate, false, 0, e) <==> e.signal == 0)
    ensures DoorLock.timeout == 2000 && Tailgate.timeout == 15000
  {
  }

  /** What the lock does not let through leaves no trace, nor does a request from elsewhere. */
  lemma TurnedAwayLeavesNoTrace(p: Profile, s: State, r: Request, es: seq<Event>)
    ensures Run(p, s, [SetRequest(false, r)] + es) == Run(p, s, es)
    ensures Run(p, s, [SetRequest(true, FromElsewhere)] + es) == Run(p, s, es)
  {
    assert ([SetRequest(false, r)] + es)[1..] == es && ([SetRequest(true, FromElsewhere)] + es)[1..] == es;
  }

  // ---- The C files' own form ----

  class BodyController {
    const profile: Profile
    var stage: Stage
    var req: bool
    var style: Style
    var reqType: int
    var expTime: int
    var eventId: int
    var doorType: nat
    var success: nat
    var failtype: nat
    var waitStart: nat

    ghost var can: seq<nat>
    ghost var starts: seq<Report>
    ghost var finals: seq<Report>
    ghost var consumed: nat
    ghost var outcomes: seq<Outcome>

    ghost function View(): State
      reads this
    {
      State(stage, req, style, reqType, expTime, eventId, doorType, success, failtype, waitStart,
            can, starts, finals, consumed, outcomes)
    }

    constructor (profile: Profile)
      ensures this.profile == profile && View() == Init
    {
      this.profile := profile;
      stage, req, style := Idle, false, Unset;
      reqType, expTime, eventId, doorType, success, failtype, waitStart := 0, 0, 0, 0, 0, 0, 0;
      can, starts, finals, consumed, outcomes := [], [], [], 0, [];
    }

    method MainFunction(env: Env)
      modifies this
      ensures View() == Step(profile, old(View()), Main(env))
    {
      match stage
      case Idle => TakeRequest(env);
      case ReqStart => SendCommand(env);
      case RespWait => AwaitResponse(env);
      case End => Finish(env);
    }

    method TakeRequest(env: Env)
      requires stage == Idle
      modifies this
      ensures View() == MainStep(profile, old(View()), env)
    {
      if req {
        consumed := consumed + 1;
        if env.permitted {
          success := 0;
          stage := ReqStart;
          if style == Tsp {
            starts := starts + [TspReport(1, 0, reqType, eventId, expTime)];
          }
        } else {
          Refuse();
        }
        req := false;
      }
    }

    method Refuse()
      modifies this
      ensures View() == old(View()).(req := false, failtype := PP_RMTCTRL_ACCNOOFF, success := 0, stage := End,
                                     outcomes := old(outcomes) + [Refused])
    {
      req := false;
      failtype := PP_RMTCTRL_ACCNOOFF;
      success := 0;
      stage := End;
      outcomes := outcomes + [Refused];
    }

    method SendCommand(env: Env)
      requires stage == ReqStart
      modifies this
      ensures View() == MainStep(profile, old(View()), env)
    {
      if doorType == PP_OPENDOOR {
        can := can + [profile.openCmd];
      } else {
        can := can + [profile.closeCmd];
      }
      stage := RespWait;
      waitStart := env.t0;
    }

    method AwaitResponse(env: Env)
      requires stage == RespWait
      modifies this
      ensures View() == MainStep(profile, old(View()), env)
    {
      if Elapsed(env.t0, waitStart) > 200 {
        if Elapsed(env.t1, waitStart) < profile.timeout {
          if doorType == PP_OPENDOOR {
            if env.signal == profile.openSignal {
              Confirm();
            }
          } else {
            if env.signal == profile.closeSignal {
              Confirm();
            }
          }
        } else {
          failtype := PP_RMTCTRL_TIMEOUTFAIL;
          can := can + [CAN_CLEAN];
          success := 0;
          stage := End;
          outcomes := outcomes + [TimedOut];
        }
      }
    }

    method Confirm()
      modifies this
      ensures View() == old(View()).(can := old(can) + [CAN_CLEAN], success := 1, stage := End,
                                     outcomes := old(outcomes) + [Confirmed])
    {
      can := can + [CAN_CLEAN];
      success := 1;
      stage := End;
      outcomes := outcomes + [Confirmed];
    }

    method Finish(env: Env)
      requires stage == End
      modifies this
      ensures View() == MainStep(profile, old(View()), env)
    {
      if style == Tsp {
        var status, failure := 0, failtype;
        if success == 1 {
          status := 2;
          failure := 0;
        } else {
          status := 3;
        }
        finals := finals + [TspReport(status, failure, reqType, eventId, expTime)];
      } else {
        finals := finals + [BtReport(doorType, success)];
      }
      stage := Idle;
    }

    method SetCtrlRequest(locked: bool, r: Request)
      modifies this
      ensures View() == Step(profile, old(View()), SetRequest(locked, r))
    {
      if locked {
        match r
        case FromTsp(rt, exp, ev) =>
          expTime := exp;
          eventId := ev;
          ShellRequest(rt);
        case FromBluetooth(cmd) =>
          if cmd == 1 {
            doorType := PP_CLOSEDOOR;
          } else if cmd == 2 {
            doorType := PP_OPENDOOR;
          }
          req := true;
          style := Bluetooth;
        case FromElsewhere =>
      }
    }

    method ShellRequest(rt: int)
      modifies this
      ensures View() == Step(profile, old(View()), Shell(rt))
    {
      reqType := rt;
      if reqType == profile.openReqType {
        doorType := PP_OPENDOOR;
      } else {
        doorType := PP_CLOSEDOOR;
      }
      req := true;
      style := Tsp;
    }

    method ClearStatus()
      modifies this
      ensures View() == Step(profile, old(View()), Clear)
    {
      req := false;
    }

    predicate HasRequest()
      reads this
    {
      req
    }

    predicate Finished()
      reads this
    {
      stage == Idle && !req
    }
  }
}
