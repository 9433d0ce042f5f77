/** The lock of PrvtProt_lock.c in the hands of its users: the door lock and tailgate controllers, the
    charge controller and the air-conditioning bookings. */
module LockUse {
  import L = OdcLock
  import B = BodyCtrl
  import C = ChargeCtrl
  import AcBooking

  const VEHICTRL_AC: nat := 5

  /** A control object other than the seat, which sets a bit. */
  predicate HasBit(obj: nat) {
    L.IsCtrl(obj) && obj < L.VEHICTRL_SEAT
  }

  lemma BitKeepsUpgradeOut(flag: L.Bits, obj: nat)
    requires HasBit(obj) && obj in flag
    ensures !L.Given(flag, L.OTA_FOTAUPDATE)
  {
    assert obj in L.MASK_CTRL_ALL;
  }

  // ---- Door lock and tailgate ----

  datatype Body = Body(ctrl: B.State, flag: L.Bits)

  /** A call, a request (which asks the lock first), the shell's request (which does not), the clearing of
      the request, and what the other users of the lock do. */
  datatype BodyEvent =
    | Call(env: B.Env)
    | Ask(request: B.Request)
    | Shell(reqType: int)
    | Clear
    | Elsewhere(e: L.Event)

  predicate Fits(obj: nat, e: BodyEvent) {
    e.Elsewhere? ==> e.e.obj != obj
  }

  /** The lock is released at the end of a command and when the request is cleared. */
  function BodyStep(p: B.Profile, obj: nat, s: Body, e: BodyEvent): Body
    requires Fits(obj, e)
  {
    match e
    case Call(env) =>
      Body(B.MainStep(p, s.ctrl, env), if s.ctrl.stage == B.End then s.flag - L.Mask(obj) else s.flag)
    case Ask(r) => Body(B.Step(p, s.ctrl, B.SetRequest(L.Given(s.flag, obj), r)), L.FlagAfter(s.flag, obj))
    case Shell(reqType) => s.(ctrl := B.Step(p, s.ctrl, B.Shell(reqType)))
    case Clear => Body(B.Step(p, s.ctrl, B.Clear), s.flag - L.Mask(obj))
    case Elsewhere(x) => s.(flag := L.Step(s.flag, x))
  }

  ghost predicate AllFit(obj: nat, es: seq<BodyEvent>) {
    forall i :: 0 <= i < |es| ==> Fits(obj, es[i])
  }

  function BodyRun(p: B.Profile, obj: nat, s: Body, es: seq<BodyEvent>): Body
    requires AllFit(obj, es)
    decreases |es|
  {
    if es == [] then s else BodyRun(p, obj, BodyStep(p, obj, s, es[0]), es[1..])
  }

  /** A command waits or runs. */
  predicate Working(c: B.State) {
    c.stage != B.Idle || c.req
  }

  predicate Held(obj: nat, s: Body) {
    Working(s.ctrl) ==> obj in s.flag
  }

  /** No command ends with another one waiting, none is cleared while one runs, and the shell asks only
      while the lock is held. */
  predicate Orderly(obj: nat, s: Body, e: BodyEvent) {
    match e
    case Call(_) => !(s.ctrl.stage == B.End && s.ctrl.req)
    case Shell(_) => obj in s.flag
    case Clear => s.ctrl.stage == B.Idle
    case _ => true
  }

  /** A command goes on holding the lock exactly when the step is orderly. */
  lemma BodyHeldIff(p: B.Profile, obj: nat, s: Body, e: BodyEvent)
    requires HasBit(obj) && Fits(obj, e) && Held(obj, s)
    ensures Held(obj, BodyStep(p, obj, s, e)) <==> Orderly(obj, s, e)
  {
  }

  ghost predicate AllOrderly(p: B.Profile, obj: nat, s: Body, es: seq<BodyEvent>)
    requires AllFit(obj, es)
    decreases |es|
  {
    es == [] || (Orderly(obj, s, es[0]) && AllOrderly(p, obj, BodyStep(p, obj, s, es[0]), es[1..]))
  }

  ghost predicate AlwaysHeld(p: B.Profile, obj: nat, s: Body, es: seq<BodyEvent>)
    requires AllFit(obj, es)
    decreases |es|
  {
    Held(obj, s) && (es == [] || AlwaysHeld(p, obj, BodyStep(p, obj, s, es[0]), es[1..]))
  }

  /** In a run every waiting or running command holds the lock exactly when all steps are orderly. */
  lemma {:induction false} BodyRunHeldIff(p: B.Profile, obj: nat, s: Body, es: seq<BodyEvent>)
    requires HasBit(obj) && AllFit(obj, es) && Held(obj, s)
    ensures AlwaysHeld(p, obj, s, es) <==> AllOrderly(p, obj, s, es)
    decreases |es|
  {
    if es != [] {
      var t := BodyStep(p, obj, s, es[0]);
      BodyHeldIff(p, obj, s, es[0]);
      if Held(obj, t) {
        BodyRunHeldIff(p, obj, t, es[1..]);
      } else {
        NotHeldNow(p, obj, t, es[1..]);
      }
    }
  }

  lemma NotHeldNow(p: B.Profile, obj: nat, s: Body, es: seq<BodyEvent>)
    requires AllFit(obj, es) && !Held(obj, s)
    ensures !AlwaysHeld(p, obj, s, es)
  {
  }

  /** So after an orderly run no upgrade can start while a command waits or runs. */
  lemma {:induction false} BodyKeepsUpgradeOut(p: B.Profile, obj: nat, s: Body, es: seq<BodyEvent>)
    requires HasBit(obj) && AllFit(obj, es) && Held(obj, s) && AllOrderly(p, obj, s, es)
    ensures var t := BodyRun(p, obj, s, es);
      Working(t.ctrl) ==> obj in t.flag && !L.Given(t.flag, L.OTA_FOTAUPDATE)
    decreases |es|
  {
    if es == [] {
      if Working(s.ctrl) { BitKeepsUpgradeOut(s.flag, obj); }
    } else {
      BodyHeldIff(p, obj, s, es[0]);
      BodyKeepsUpgradeOut(p, obj, BodyStep(p, obj, s, es[0]), es[1..]);
    }
  }

  lemma {:induction false} BodyRunAppend(p: B.Profile, obj: nat, s: Body, es: seq<BodyEvent>, fs: seq<BodyEvent>)
    requires AllFit(obj, es) && AllFit(obj, fs)
    ensures AllFit(obj, es + fs) && BodyRun(p, obj, s, es + fs) == BodyRun(p, obj, BodyRun(p, obj, s, es), fs)
    decreases |es|
  {
    if es == [] {
      assert es + fs == fs;
    } else {
      assert (es + fs)[0] == es[0] && (es + fs)[1..] == es[1..] + fs;
      BodyRunAppend(p, obj, BodyStep(p, obj, s, es[0]), es[1..], fs);
    }
  }

  lemma BodyRunOfTwo(p: B.Profile, obj: nat, s: Body, a: BodyEvent, b: BodyEvent)
    requires Fits(obj, a) && Fits(obj, b)
    ensures BodyRun(p, obj, s, [a, b]) == BodyStep(p, obj, BodyStep(p, obj, s, a), b)
  {
    assert [a, b][1..] == [b] && [b][1..] == [];
    assert BodyRun(p, obj, s, [a, b]) == BodyRun(p, obj, BodyStep(p, obj, s, a), [b]);
  }

  function AskThenCall(o: B.Order, env: B.Env): seq<BodyEvent>
    requires o.TspOrder?
  {
    [Ask(B.FromTsp(o.reqType, o.expTime, o.eventId)), Call(env)]
  }

  /** The command asked for is refused and not reported yet. */
  lemma FirstIsRefused(p: B.Profile, obj: nat, o: B.Order, refused: B.Env)
    requires HasBit(obj) && !refused.permitted && o.TspOrder?
    ensures var s := BodyRun(p, obj, Body(B.Init, {}), AskThenCall(o, refused));
      s.flag == {obj} && s.ctrl.stage == B.End && !s.ctrl.req && s.ctrl.can == []
  {
    BodyRunOfTwo(p, obj, Body(B.Init, {}), AskThenCall(o, refused)[0], Call(refused));
    assert BodyStep(p, obj, Body(B.Init, {}), AskThenCall(o, refused)[0]).flag == {obj};
  }

  /** A second one is asked for, and the end of the first releases the lock. */
  lemma SecondIsLeft(p: B.Profile, obj: nat, s: Body, o: B.Order, ended: B.Env)
    requires HasBit(obj) && s.flag == {obj} && s.ctrl.stage == B.End && s.ctrl.can == [] && o.TspOrder?
    ensures var t := BodyRun(p, obj, s, AskThenCall(o, ended));
      && t.flag == {} && t.ctrl.stage == B.Idle && t.ctrl.req && t.ctrl.can == []
      && t.ctrl.doorType == B.DoorType(p, o.reqType)
  {
    BodyRunOfTwo(p, obj, s, AskThenCall(o, ended)[0], Call(ended));
    var a := BodyStep(p, obj, s, AskThenCall(o, ended)[0]);
    assert obj !in L.MASK_FOTAUPDATE;
    assert a.flag == {obj} && a.flag - L.Mask(obj) == {};
  }

  /** An upgrade takes it, and the second command is taken up. */
  lemma TakenUpMeanwhile(p: B.Profile, obj: nat, s: Body, taken: B.Env, sent: B.Env)
    requires s.flag == {} && s.ctrl.stage == B.Idle && s.ctrl.req && s.ctrl.can == [] && taken.permitted
    requires HasBit(obj)
    ensures var t := BodyRun(p, obj, s, [Elsewhere(L.Acquire(L.OTA_FOTAUPDATE)), Call(taken)] + [Call(sent)]);
      t.flag == {L.OTA_FOTAUPDATE} && t.ctrl.stage == B.RespWait && t.ctrl.can == [B.Cmd(p, s.ctrl.doorType)]
  {
    var acquire := Elsewhere(L.Acquire(L.OTA_FOTAUPDATE));
    BodyRunAppend(p, obj, s, [acquire, Call(taken)], [Call(sent)]);
    BodyRunOfTwo(p, obj, s, acquire, Call(taken));
    assert [Call(sent)][1..] == [];
  }

  /** A run from initialisation: a second command comes while the first, which was refused, has not been
      reported; the end of the first releases the lock, an upgrade takes it, and the CAN command of the
      second goes out while the upgrade holds it. */
  lemma SecondCommandDuringUpgrade(p: B.Profile, obj: nat, o: B.Order, refused: B.Env, ended: B.Env,
                                   taken: B.Env, sent: B.Env)
    requires HasBit(obj) && !refused.permitted && taken.permitted && o.TspOrder?
    ensures var es := AskThenCall(o, refused)
                      + (AskThenCall(o, ended)
                         + ([Elsewhere(L.Acquire(L.OTA_FOTAUPDATE)), Call(taken)] + [Call(sent)]));
      && AllFit(obj, es)
      && var s := BodyRun(p, obj, Body(B.Init, {}), es);
         s.flag == {L.OTA_FOTAUPDATE} && s.ctrl.stage == B.RespWait && s.ctrl.can == [B.OrderedCmd(p, B.Init, o)]
  {
    var s0 := Body(B.Init, {});
    var rest := [Elsewhere(L.Acquire(L.OTA_FOTAUPDATE)), Call(taken)] + [Call(sent)];
    BodyRunAppend(p, obj, s0, AskThenCall(o, refused), AskThenCall(o, ended) + rest);
    FirstIsRefused(p, obj, o, refused);
    var s1 := BodyRun(p, obj, s0, AskThenCall(o, refused));
    BodyRunAppend(p, obj, s1, AskThenCall(o, ended), rest);
    SecondIsLeft(p, obj, s1, o, ended);
    TakenUpMeanwhile(p, obj, BodyRun(p, obj, s1, AskThenCall(o, ended)), taken, sent);
  }

  // ---- The charge controller ----

  datatype Charge = Charge(ctrl: C.State, flag: L.Bits)

  datatype ChargeEvent = At(e: C.Event) | Other(x: L.Event)

  predicate ChargeFits(e: ChargeEvent) {
    e.Other? ==> e.x.obj != L.VEHICTRL_CHRG
  }

  /** What the lock answers is no longer an input. */
  function Answered(e: C.Event, answer: int): C.Event {
    if e.Main? then C.Main(e.env.(lock := answer))
    else if e.Shell? || e.ClearStatus? then e
    else e.(lock := answer)
  }

  /** The flag after a call: the monitor may ask, and the end of a command releases. */
  function FlagAfterCall(s: C.State, e: C.Env, flag: L.Bits): L.Bits {
    var asked := if C.MonitorAsks(s, e) then L.FlagAfter(flag, L.VEHICTRL_CHRG) else flag;
    if s.stage == C.End then asked - L.Mask(L.VEHICTRL_CHRG) else asked
  }

  /** Every request asks the lock and, let through, releases it again unless a request is pending. */
  function FlagAfterRequest(t: C.State, flag: L.Bits): L.Bits {
    if L.Given(flag, L.VEHICTRL_CHRG) && !t.req then flag - L.Mask(L.VEHICTRL_CHRG)
    else L.FlagAfter(flag, L.VEHICTRL_CHRG)
  }

  function ChargeStep(s: Charge, e: ChargeEvent): Charge
    requires ChargeFits(e)
  {
    match e
    case At(x) =>
      var y := Answered(x, L.Answer(s.flag, L.VEHICTRL_CHRG));
      var t := C.Step(s.ctrl, y);
      Charge(t, if y.Main? then FlagAfterCall(s.ctrl, y.env, s.flag)
                else if y.Shell? || y.ClearStatus? then s.flag
                else FlagAfterRequest(t, s.flag))
    case Other(x) => s.(flag := L.Step(s.flag, x))
  }

  ghost predicate AllChargeFit(es: seq<ChargeEvent>) {
    forall i :: 0 <= i < |es| ==> ChargeFits(es[i])
  }

  function ChargeRun(s: Charge, es: seq<ChargeEvent>): Charge
    requires AllChargeFit(es)
    decreases |es|
  {
    if es == [] then s else ChargeRun(ChargeStep(s, es[0]), es[1..])
  }

  predicate ChargeWorking(c: C.State) {
    c.stage != C.Idle || c.req
  }

  predicate ChargeHeld(s: Charge) {
    ChargeWorking(s.ctrl) ==> L.VEHICTRL_CHRG in s.flag
  }

  /** No command ends with another one waiting or asked for by the monitor in the same call; the TSP and
      the head unit ask, book and cancel nothing while a command runs, unless the lock refuses or another
      one waits; and the shell asks only while the lock is held. */
  predicate ChargeOrderly(s: Charge, e: ChargeEvent) {
    match e
    case Other(_) => true
    case At(x) =>
      var lets := L.Given(s.flag, L.VEHICTRL_CHRG);
      match x
      case Main(env) =>
        s.ctrl.stage == C.End ==>
          !s.ctrl.req && !(lets && C.MonitorAsks(s.ctrl, env.(lock := L.Answer(s.flag, L.VEHICTRL_CHRG))))
      case Shell(_) => L.VEHICTRL_CHRG in s.flag
      case ClearStatus => true
      case BtCharge(_, _) => true
      case _ => s.ctrl.stage == C.Idle || s.ctrl.req || !lets
  }

  lemma GivenSetsBit(flag: L.Bits, obj: nat)
    requires HasBit(obj)
    ensures L.Given(flag, obj) ==> L.FlagAfter(flag, obj) == flag + {obj}
    ensures !L.Given(flag, obj) ==> L.FlagAfter(flag, obj) == flag
    ensures L.Answer(flag, obj) == L.OK <==> L.Given(flag, obj)
    ensures obj in flag && !L.Given(flag, obj) ==> L.FlagAfter(flag, obj) == flag
  {
  }

  lemma CallHeldIff(s: Charge, env: C.Env)
    requires ChargeHeld(s)
    ensures ChargeHeld(ChargeStep(s, At(C.Main(env)))) <==> ChargeOrderly(s, At(C.Main(env)))
  {
    var e := env.(lock := L.Answer(s.flag, L.VEHICTRL_CHRG));
    GivenSetsBit(s.flag, L.VEHICTRL_CHRG);
    C.MonitorRequests(s.ctrl, e);
    C.CommandRequests(C.Monitor(s.ctrl, e), e);
  }

  lemma RequestKeeps(s: C.State, e: C.Event)
    requires !e.Main?
    ensures C.Step(s, e).stage == s.stage
    ensures !e.BtCharge? && !e.Shell? && !e.ClearStatus? && s.stage != C.Idle ==> C.Step(s, e).req == s.req
    ensures !e.ClearStatus? && s.req ==> C.Step(s, e).req
    ensures e.BtCharge? && e.lock == C.PP_LOCK_OK ==> C.Step(s, e).req
    ensures !e.Shell? && !e.ClearStatus? && e.lock != C.PP_LOCK_OK ==> C.Step(s, e) == s
  {
  }

  lemma RequestHeldIff(s: Charge, e: C.Event)
    requires ChargeHeld(s) && !e.Main?
    ensures ChargeHeld(ChargeStep(s, At(e))) <==> ChargeOrderly(s, At(e))
  {
    GivenSetsBit(s.flag, L.VEHICTRL_CHRG);
    RequestKeeps(s.ctrl, Answered(e, L.Answer(s.flag, L.VEHICTRL_CHRG)));
  }

  /** A charge command goes on holding the lock exactly when the step is orderly. */
  lemma ChargeHeldIff(s: Charge, e: ChargeEvent)
    requires ChargeHeld(s) && ChargeFits(e)
    ensures ChargeHeld(ChargeStep(s, e)) <==> ChargeOrderly(s, e)
  {
    match e
    case At(x) => if x.Main? { CallHeldIff(s, x.env); } else { RequestHeldIff(s, x); }
    case Other(x) =>
  }

  ghost predicate AllChargeOrderly(s: Charge, es: seq<ChargeEvent>)
    requires AllChargeFit(es)
    decreases |es|
  {
    es == [] || (ChargeOrderly(s, es[0]) && AllChargeOrderly(ChargeStep(s, es[0]), es[1..]))
  }

  ghost predicate ChargeAlwaysHeld(s: Charge, es: seq<ChargeEvent>)
    requires AllChargeFit(es)
    decreases |es|
  {
    ChargeHeld(s) && (es == [] || ChargeAlwaysHeld(ChargeStep(s, es[0]), es[1..]))
  }

  /** The same over runs: a waiting or running charge command always holds the lock exactly when all
      steps are orderly. */
  lemma {:induction false} ChargeRunHeldIff(s: Charge, es: seq<ChargeEvent>)
    requires AllChargeFit(es) && ChargeHeld(s)
    ensures ChargeAlwaysHeld(s, es) <==> AllChargeOrderly(s, es)
    decreases |es|
  {
    if es != [] {
      var t := ChargeStep(s, es[0]);
      ChargeHeldIff(s, es[0]);
      if ChargeHeld(t) {
        ChargeRunHeldIff(t, es[1..]);
      } else {
        ChargeNotHeldNow(t, es[1..]);
      }
    }
  }

  lemma ChargeNotHeldNow(s: Charge, es: seq<ChargeEvent>)
    requires AllChargeFit(es) && !ChargeHeld(s)
    ensures !ChargeAlwaysHeld(s, es)
  {
  }

  lemma {:induction false} ChargeKeepsUpgradeOut(s: Charge, es: seq<ChargeEvent>)
    requires AllChargeFit(es) && ChargeHeld(s) && AllChargeOrderly(s, es)
    ensures var t := ChargeRun(s, es);
      ChargeWorking(t.ctrl) ==> L.VEHICTRL_CHRG in t.flag && !L.Given(t.flag, L.OTA_FOTAUPDATE)
    decreases |es|
  {
    if es == [] {
      if ChargeWorking(s.ctrl) { BitKeepsUpgradeOut(s.flag, L.VEHICTRL_CHRG); }
    } else {
      ChargeHeldIff(s, es[0]);
      ChargeKeepsUpgradeOut(ChargeStep(s, es[0]), es[1..]);
    }
  }

  lemma {:induction false} ChargeRunAppend(s: Charge, es: seq<ChargeEvent>, fs: seq<ChargeEvent>)
    requires AllChargeFit(es) && AllChargeFit(fs)
    ensures AllChargeFit(es + fs) && ChargeRun(s, es + fs) == ChargeRun(ChargeRun(s, es), fs)
    decreases |es|
  {
    if es == [] {
      assert es + fs == fs;
    } else {
      assert (es + fs)[0] == es[0] && (es + fs)[1..] == es[1..] + fs;
      ChargeRunAppend(ChargeStep(s, es[0]), es[1..], fs);
    }
  }

  lemma ChargeRunOfTwo(s: Charge, a: ChargeEvent, b: ChargeEvent)
    requires ChargeFits(a) && ChargeFits(b)
    ensures ChargeRun(s, [a, b]) == ChargeStep(ChargeStep(s, a), b)
  {
    assert [a, b][1..] == [b] && [b][1..] == [];
    assert ChargeRun(s, [a, b]) == ChargeRun(ChargeStep(s, a), [b]);
  }

  /** The monitor has nothing to look at. */
  ghost predicate NothingBooked(s: C.State) {
    !s.book.valid && s.chargeSt == C.ChIdle && !s.window.appointcharge && !s.appointCharging
  }

  lemma NothingAsked(s: C.State, now: nat)
    requires NothingBooked(s)
    ensures C.Monitor(s, C.PlainCall(now, 0, 0)) == s && !C.MonitorAsks(s, C.PlainCall(now, 0, 0))
  {
  }

  /** The charge start of the TSP, taken up by the next call. */
  function StartTaken(eventId: int, now: nat): seq<ChargeEvent> {
    [At(C.TspCharge(0, C.PP_COMAND_STARTCHARGE, eventId, 0)), At(C.Main(C.PlainCall(now, 0, 0)))]
  }

  /** Its CAN command, and a booking. */
  function SentThenBooked(book: C.Book, now: nat): seq<ChargeEvent> {
    [At(C.Main(C.PlainCall(now, 0, 0))), At(C.TspBook(0, book, 0))]
  }

  lemma StartIsTaken(s: Charge, eventId: int, now: nat)
    requires s.flag == {} && s.ctrl.stage == C.Idle && !s.ctrl.req && s.ctrl.log.can == [] && NothingBooked(s.ctrl)
    ensures var t := ChargeRun(s, StartTaken(eventId, now));
      && t.flag == {L.VEHICTRL_CHRG} && t.ctrl.stage == C.ReqStart && !t.ctrl.req
      && t.ctrl.cmd == C.PP_CHARGECTRL_OPEN && t.ctrl.log.can == [] && NothingBooked(t.ctrl)
  {
    ChargeRunOfTwo(s, StartTaken(eventId, now)[0], StartTaken(eventId, now)[1]);
    var a := ChargeStep(s, StartTaken(eventId, now)[0]);
    assert a.flag == {L.VEHICTRL_CHRG};
    NothingAsked(a.ctrl, now);
    assert L.VEHICTRL_CHRG !in L.MASK_FOTAUPDATE;
    assert L.Answer(a.flag, L.VEHICTRL_CHRG) == 0;
  }

  lemma BookedWhileWaiting(s: Charge, book: C.Book, now: nat)
    requires s.flag == {L.VEHICTRL_CHRG} && s.ctrl.stage == C.ReqStart && !s.ctrl.req
    requires s.ctrl.cmd == C.PP_CHARGECTRL_OPEN && s.ctrl.log.can == [] && NothingBooked(s.ctrl)
    ensures var t := ChargeRun(s, SentThenBooked(book, now));
      t.flag == {} && t.ctrl.stage == C.RespWait && t.ctrl.log.can == [C.CAN_STARTCHAGER]
  {
    ChargeRunOfTwo(s, SentThenBooked(book, now)[0], SentThenBooked(book, now)[1]);
    NothingAsked(s.ctrl, now);
    assert L.VEHICTRL_CHRG !in L.MASK_FOTAUPDATE;
    assert L.Answer(s.flag, L.VEHICTRL_CHRG) == 0;
    var a := ChargeStep(s, SentThenBooked(book, now)[0]);
    assert a.flag == s.flag && a.ctrl.stage == C.RespWait;
    assert a.flag - L.Mask(L.VEHICTRL_CHRG) == {};
  }

  /** A run from initialisation: a charge booking comes while a charge command waits for its answer and
      releases the lock of the command; an upgrade takes it, with the CAN command still out. */
  lemma BookingLetsUpgradeIn(start: nat, saved: C.Book, eventId: int, book: C.Book, now: nat)
    requires !saved.valid
    ensures var es := StartTaken(eventId, now)
                      + (SentThenBooked(book, now + 1) + [Other(L.Acquire(L.OTA_FOTAUPDATE))]);
      && AllChargeFit(es)
      && var s := ChargeRun(Charge(C.Init(start, saved), {}), es);
         s.flag == {L.OTA_FOTAUPDATE} && s.ctrl.stage == C.RespWait && s.ctrl.log.can == [C.CAN_STARTCHAGER]
  {
    var s0, upgrade := Charge(C.Init(start, saved), {}), [Other(L.Acquire(L.OTA_FOTAUPDATE))];
    ChargeRunAppend(s0, StartTaken(eventId, now), SentThenBooked(book, now + 1) + upgrade);
    StartIsTaken(s0, eventId, now);
    var s1 := ChargeRun(s0, StartTaken(eventId, now));
    ChargeRunAppend(s1, SentThenBooked(book, now + 1), upgrade);
    BookedWhileWaiting(s1, book, now + 1);
    assert upgrade[1..] == [];
  }

  // ---- The air-conditioning bookings ----

  /** A booking or cancelling that changed anything has taken the lock, and the table does not give it
      back: no upgrade can start in any run in which no air-conditioning command ends or is cleared. */
  lemma BookingKeepsUpgradeOut(s: AcBooking.State, ev: AcBooking.Event, flag: L.Bits, es: seq<L.Event>)
    requires ev.Book? || ev.TspCancel? || ev.ShellCancel?
    requires ev.lock == L.Answer(flag, VEHICTRL_AC) && AcBooking.Step(s, ev) != s
    requires L.Release(VEHICTRL_AC) !in es
    ensures !L.Given(L.Run(L.FlagAfter(flag, VEHICTRL_AC), es), L.OTA_FOTAUPDATE)
  {
    GivenSetsBit(flag, VEHICTRL_AC);
    L.HeldKeepsUpgradeOut(L.FlagAfter(flag, VEHICTRL_AC), VEHICTRL_AC, es);
  }
}
