/** The dispatcher of PP_rmtCtrl.c: idle, authentication, command launch, end.  Of its ten
    table-driven controllers the door lock and the tailgate are modelled in full; of the others
    the dispatcher's interface is (stage, request flag, start, end, clear, one step). */
module RmtCtrl {
  import BodyCtrl
  import CtrlLog

  datatype CtrlSt = RmtIdle | IdentQuery | IdentLaunch | CommandLaunch | RmtEnd

  /** Another controller: stage 0 is its idle stage. */
  datatype Other = Other(stage: nat, req: bool)

  // The objects of the dispatch table, by index.
  const RMTCTRL_DOORLOCK: nat := 0
  const RMTCTRL_AUTODOOR: nat := 2
  const RMTCTRL_CHARGE: nat := 6
  const RMTCTRL_OBJ_MAX: nat := 11

  /** The table entries but door lock, tailgate and charging (which has no entry function). */
  predicate IsOther(i: nat) {
    i < RMTCTRL_OBJ_MAX && i != RMTCTRL_DOORLOCK && i != RMTCTRL_AUTODOOR && i != RMTCTRL_CHARGE
  }

  datatype AuthSt = AuthPending | AuthSuccess | AuthFail

  /** What has happened, for the record. */
  datatype Mark =
    | LeftIdle
    | FlagWasOne
    | AuthSucceeded(upgrading: bool)
    | AuthFailed
    | Launched

  datatype State = State(
    st: CtrlSt,
    fotaAuthReq: bool,
    fotaUpgradeSt: bool,
    fotaAuthResult: int,
    door: BodyCtrl.State,
    tailgate: BodyCtrl.State,
    others: map<nat, Other>,
    log: seq<Mark>)

  /** One call of the main function: the authentication flag and the state of the authentication
      in progress, what door lock and tailgate read, what the idle-time monitors make of the
      other controllers' requests, and what their main functions make of the controllers. */
  datatype Env = Env(flag: bool, auth: AuthSt, door: BodyCtrl.Env, tailgate: BodyCtrl.Env,
                     monitored: map<nat, bool>, stepped: map<nat, Other>)

  datatype Event =
    | MainCall(env: Env)
    | DoorEvent(e: BodyCtrl.Event)
    | TailgateEvent(e: BodyCtrl.Event)
    | OtherRequest(i: nat)
    | AuthRequest
    | FotaStart(locked: bool)
    | FotaEnd

  predicate Requested(s: State) {
    s.door.req || s.tailgate.req || exists i | i in s.others :: s.others[i].req
  }

  predicate AllDone(s: State) {
    && s.door.stage == BodyCtrl.Idle && !s.door.req
    && s.tailgate.stage == BodyCtrl.Idle && !s.tailgate.req
    && forall i | i in s.others :: s.others[i].stage == 0 && !s.others[i].req
  }

  function ClearAll(s: State): State {
    s.(door := s.door.(req := false), tailgate := s.tailgate.(req := false),
       others := map i | i in s.others :: s.others[i].(req := false))
  }

  function Monitor(s: State, monitored: map<nat, bool>): State {
    s.(others := map i | i in s.others :: if i in monitored then s.others[i].(req := monitored[i]) else s.others[i])
  }

  function DoorStep(d: BodyCtrl.State, env: Env): BodyCtrl.State {
    BodyCtrl.MainStep(BodyCtrl.DoorLock, d, env.door)
  }

  function TailgateStep(d: BodyCtrl.State, env: Env): BodyCtrl.State {
    BodyCtrl.MainStep(BodyCtrl.Tailgate, d, env.tailgate)
  }

  function Launch(s: State, env: Env): State {
    s.(door := DoorStep(s.door, env),
       tailgate := TailgateStep(s.tailgate, env),
       others := map i | i in s.others :: if i in env.stepped then env.stepped[i] else s.others[i],
       log := s.log + [Launched])
  }

  function MainCallStep(s0: State, env: Env): State {
    match s0.st
    case RmtIdle =>
      var s := Monitor(s0, env.monitored);
      if s.fotaAuthReq then s.(fotaAuthReq := false, st := IdentLaunch, log := s.log + [LeftIdle])
      else if Requested(s) then s.(st := IdentQuery, log := s.log + [LeftIdle])
      else s
    case IdentQuery =>
      if env.flag then s0.(st := CommandLaunch, log := s0.log + [FlagWasOne]) else s0.(st := IdentLaunch)
    case IdentLaunch =>
      (match env.auth
       case AuthSuccess =>
         s0.(fotaAuthResult := 1, st := if s0.fotaUpgradeSt then RmtEnd else CommandLaunch,
             log := s0.log + [AuthSucceeded(s0.fotaUpgradeSt)])
       case AuthFail =>
         ClearAll(s0).(fotaAuthResult := -1, fotaUpgradeSt := false, st := RmtEnd, log := s0.log + [AuthFailed])
       case AuthPending => s0)
    case CommandLaunch =>
      var s := Launch(s0, env);
      if AllDone(s) then s.(st := RmtEnd) else s
    case RmtEnd => s0.(st := RmtIdle)
  }

  /** A controller is stepped only by the dispatcher, so the events between two calls are the
      requests and the clearing of one. */
  predicate Possible(e: Event) {
    (e.DoorEvent? || e.TailgateEvent? ==> !e.e.Main?)
    && (e.OtherRequest? ==> IsOther(e.i))
  }

  function Step(s: State, e: Event): State
    requires Possible(e)
  {
    match e
    case MainCall(env) => MainCallStep(s, env)
    case DoorEvent(d) => s.(door := BodyCtrl.Step(BodyCtrl.DoorLock, s.door, d))
    case TailgateEvent(d) => s.(tailgate := BodyCtrl.Step(BodyCtrl.Tailgate, s.tailgate, d))
    case OtherRequest(i) => if i in s.others then s.(others := s.others[i := s.others[i].(req := true)]) else s
    case AuthRequest => s.(fotaAuthReq := true, fotaAuthResult := 0)
    case FotaStart(locked) => if locked then s.(fotaAuthReq := true, fotaUpgradeSt := true, fotaAuthResult := 0) else s
    case FotaEnd => s.(fotaUpgradeSt := false)
  }

  function Start(): State {
    State(RmtIdle, false, false, 0, BodyCtrl.Init, BodyCtrl.Init,
          map i: nat | i < RMTCTRL_OBJ_MAX && IsOther(i) :: Other(0, false), [])
  }

  function Run(s: State, es: seq<Event>): State
    requires forall i :: 0 <= i < |es| ==> Possible(es[i])
    decreases |es|
  {
    if es == [] then s else Run(Step(s, es[0]), es[1..])
  }

  // ---- What every run keeps ----

  predicate Grants(m: Mark) {
    m == FlagWasOne || m == AuthSucceeded(false)
  }

  /** Since the dispatcher last left idle, the authentication flag was 1 or an authentication
      succeeded with no upgrade in progress. */
  ghost predicate Granted(log: seq<Mark>) {
    exists j :: 0 <= j < |log| && Grants(log[j]) && forall k :: j < k < |log| ==> log[k] != LeftIdle
  }

  ghost predicate AllLaunchesGranted(log: seq<Mark>) {
    forall k {:trigger log[..k]} :: 0 <= k < |log| && log[k] == Launched ==> Granted(log[..k])
  }

  ghost predicate Resting(s: State) {
    && s.door.stage == BodyCtrl.Idle && s.tailgate.stage == BodyCtrl.Idle
    && forall i | i in s.others :: s.others[i].stage == 0
  }

  ghost predicate Inv(s: State) {
    && AllLaunchesGranted(s.log)
    && (s.st == CommandLaunch ==> Granted(s.log))
    && (s.st != CommandLaunch ==> Resting(s))
  }

  /** Under the dispatcher, too, the two controllers keep what they keep alone. */
  ghost predicate BodiesInv(s: State) {
    BodyCtrl.Inv(s.door) && BodyCtrl.Inv(s.tailgate)
  }

  lemma LogGrows(log: seq<Mark>, m: Mark)
    requires AllLaunchesGranted(log) && (m == Launched ==> Granted(log))
    ensures AllLaunchesGranted(log + [m])
    ensures Grants(m) ==> Granted(log + [m])
    ensures Granted(log) && m != LeftIdle ==> Granted(log + [m])
  {
    var log' := log + [m];
    forall k | 0 <= k < |log'| && log'[k] == Launched
      ensures Granted(log'[..k])
    {
      assert log'[..k] == log[..k];
      if k == |log| { assert log[..k] == log; }
    }
    if Grants(m) { assert Grants(log'[|log|]); }
    if Granted(log) && m != LeftIdle {
      var j :| 0 <= j < |log| && Grants(log[j]) && forall k :: j < k < |log| ==> log[k] != LeftIdle;
      assert Grants(log'[j]);
    }
  }

  lemma MainCallKeepsGranted(s: State, env: Env)
    requires AllLaunchesGranted(s.log) && (s.st == CommandLaunch ==> Granted(s.log))
    ensures AllLaunchesGranted(MainCallStep(s, env).log)
    ensures MainCallStep(s, env).st == CommandLaunch ==> Granted(MainCallStep(s, env).log)
  {
    match s.st
    case RmtIdle =>
      LogGrows(s.log, LeftIdle);
    case IdentQuery =>
      LogGrows(s.log, FlagWasOne);
    case IdentLaunch =>
      LogGrows(s.log, AuthSucceeded(s.fotaUpgradeSt));
      LogGrows(s.log, AuthFailed);
    case CommandLaunch =>
      LogGrows(s.log, Launched);
    case RmtEnd =>
  }

  lemma MainCallKeepsResting(s: State, env: Env)
    requires s.st != CommandLaunch ==> Resting(s)
    ensures MainCallStep(s, env).st != CommandLaunch ==> Resting(MainCallStep(s, env))
  {
  }

  lemma StepKeepsInv(s: State, e: Event)
    requires Inv(s) && Possible(e)
    ensures Inv(Step(s, e))
  {
    match e
    case MainCall(env) =>
      MainCallKeepsGranted(s, env);
      MainCallKeepsResting(s, env);
    case _ =>
  }

  /** Every step does to a controller nothing, or one step of its own, or clears its request. */
  lemma BodySteps(s: State, e: Event)
    requires Possible(e)
    ensures Step(s, e).door == s.door || exists d :: Step(s, e).door == BodyCtrl.Step(BodyCtrl.DoorLock, s.door, d)
    ensures Step(s, e).tailgate == s.tailgate
            || exists d :: Step(s, e).tailgate == BodyCtrl.Step(BodyCtrl.Tailgate, s.tailgate, d)
  {
    var s' := Step(s, e);
    match e
    case MainCall(env) =>
      assert BodyCtrl.Step(BodyCtrl.DoorLock, s.door, BodyCtrl.Main(env.door)) == DoorStep(s.door, env);
      assert BodyCtrl.Step(BodyCtrl.Tailgate, s.tailgate, BodyCtrl.Main(env.tailgate)) == TailgateStep(s.tailgate, env);
      assert BodyCtrl.Step(BodyCtrl.DoorLock, s.door, BodyCtrl.Clear) == s.door.(req := false);
      assert BodyCtrl.Step(BodyCtrl.Tailgate, s.tailgate, BodyCtrl.Clear) == s.tailgate.(req := false);
    case _ =>
  }

  lemma StepKeepsBodies(s: State, e: Event)
    requires BodiesInv(s) && Possible(e)
    ensures BodiesInv(Step(s, e))
  {
    var s' := Step(s, e);
    BodySteps(s, e);
    if s'.door != s.door {
      var d :| s'.door == BodyCtrl.Step(BodyCtrl.DoorLock, s.door, d);
      BodyCtrl.StepKeepsInv(BodyCtrl.DoorLock, s.door, d);
    }
    if s'.tailgate != s.tailgate {
      var d :| s'.tailgate == BodyCtrl.Step(BodyCtrl.Tailgate, s.tailgate, d);
      BodyCtrl.StepKeepsInv(BodyCtrl.Tailgate, s.tailgate, d);
    }
  }

  lemma {:induction false} RunKeepsInv(s: State, es: seq<Event>)
    requires Inv(s) && BodiesInv(s) && forall i :: 0 <= i < |es| ==> Possible(es[i])
    ensures Inv(Run(s, es)) && BodiesInv(Run(s, es))
    decreases |es|
  {
    if es != [] {
      StepKeepsInv(s, es[0]);
      StepKeepsBodies(s, es[0]);
      RunKeepsInv(Step(s, es[0]), es[1..]);
    }
  }

  /** From the start, in every run with any interleaving of requests: every launch was granted
      since idle was last left, and outside COMMAND_LAUNCH all ten controllers rest. */
  lemma EveryRun(es: seq<Event>)
    requires forall i :: 0 <= i < |es| ==> Possible(es[i])
    ensures AllLaunchesGranted(Run(Start(), es).log)
    ensures Run(Start(), es).st != CommandLaunch ==> Resting(Run(Start(), es))
    ensures BodiesInv(Run(Start(), es))
  {
    RunKeepsInv(Start(), es);
  }

  /** A door or tailgate CAN message goes out only in a launch that was granted. */
  lemma CanOnlyWhenGranted(s: State, e: Event)
    requires Inv(s) && Possible(e)
    requires Step(s, e).door.can != s.door.can || Step(s, e).tailgate.can != s.tailgate.can
    ensures e.MainCall? && s.st == CommandLaunch && Granted(s.log)
    ensures Step(s, e).log == s.log + [Launched]
  {
  }

  /** The call that handles a failed authentication leaves no request pending in any of the ten
      and starts nothing. */
  lemma FailedAuthenticationClears(s: State, env: Env)
    requires Inv(s) && s.st == IdentLaunch && env.auth == AuthFail
    ensures !Requested(MainCallStep(s, env)) && AllDone(MainCallStep(s, env))
    ensures !MainCallStep(s, env).fotaUpgradeSt
  {
  }

  // ---- The way to the launch ----

  ghost predicate AllPossible(es: seq<Event>) {
    forall i :: 0 <= i < |es| ==> Possible(es[i])
  }

  /** The calls of the main function among the events. */
  function MainCalls(es: seq<Event>): seq<Env> {
    if es == [] then [] else (if es[0].MainCall? then [es[0].env] else []) + MainCalls(es[1..])
  }

  lemma CallsFirst(es: seq<Event>)
    requires es != []
    ensures es[0].MainCall? ==>
      MainCalls(es) != [] && MainCalls(es)[0] == es[0].env && MainCalls(es)[1..] == MainCalls(es[1..])
    ensures !es[0].MainCall? ==> MainCalls(es) == MainCalls(es[1..])
  {
  }

  ghost predicate NoUpgradeStarts(es: seq<Event>) {
    forall i :: 0 <= i < |es| ==> !(es[i].FotaStart? && es[i].locked)
  }

  /** One of the two controllers that are modelled in full. */
  datatype Which = TheDoorLock | TheTailgate

  function BodyOf(s: State, w: Which): BodyCtrl.State {
    match w case TheDoorLock => s.door case TheTailgate => s.tailgate
  }

  function ProfileOf(w: Which): BodyCtrl.Profile {
    match w case TheDoorLock => BodyCtrl.DoorLock case TheTailgate => BodyCtrl.Tailgate
  }

  /** What it reads in a call. */
  function ReadBy(w: Which, env: Env): BodyCtrl.Env {
    match w case TheDoorLock => env.door case TheTailgate => env.tailgate
  }

  /** An event of its own. */
  function EventOf(w: Which, e: BodyCtrl.Event): Event {
    match w case TheDoorLock => DoorEvent(e) case TheTailgate => TailgateEvent(e)
  }

  predicate Disturbs(w: Which, e: Event) {
    match w case TheDoorLock => e.DoorEvent? case TheTailgate => e.TailgateEvent?
  }

  ghost predicate NoneOf(w: Which, es: seq<Event>) {
    forall i :: 0 <= i < |es| ==> !Disturbs(w, es[i])
  }

  /** An authentication of its own is asked for before the first call. */
  predicate AsksFirst(es: seq<Event>) {
    es != [] && !es[0].MainCall? && (es[0].AuthRequest? || AsksFirst(es[1..]))
  }

  /** Some request is there when the first call comes. */
  ghost predicate RequestedAtCall(s: State, es: seq<Event>)
    requires AllPossible(es)
    decreases |es|
  {
    es != [] &&
    if es[0].MainCall? then Requested(Monitor(s, es[0].env.monitored)) else RequestedAtCall(Step(s, es[0]), es[1..])
  }

  /** Of these calls, beginning with the authentication step, the last finds that the authentication has
      succeeded and none that it has failed. */
  predicate Succeeds(calls: seq<Env>) {
    && calls != [] && calls[|calls| - 1].auth == AuthSuccess
    && forall i :: 0 <= i < |calls| ==> calls[i].auth != AuthFail
  }

  /** What brings a waiting request to its launch.  No upgrade starts; and the second call finds the
      authentication flag 1, or the authentication succeeds: from the third call on, or from the second
      when an authentication of its own was asked for first, which skips the flag. */
  ghost predicate GrantsLaunch(es: seq<Event>, asked: bool) {
    var calls := MainCalls(es);
    && NoUpgradeStarts(es)
    && if asked then |calls| >= 2 && Succeeds(calls[1..])
       else |calls| >= 2 && (calls[1].flag || Succeeds(calls[2..]))
  }

  lemma AuthenticationStep(s: State, e: Event)
    requires Possible(e) && !(e.FotaStart? && e.locked) && s.st == IdentLaunch && !s.fotaUpgradeSt
    requires e.MainCall? ==> e.env.auth != AuthFail
    ensures var t := Step(s, e);
      && t.st == (if e.MainCall? && e.env.auth == AuthSuccess then CommandLaunch else IdentLaunch)
      && !t.fotaUpgradeSt && forall w :: !Disturbs(w, e) ==> BodyOf(t, w) == BodyOf(s, w)
  {
  }

  lemma {:induction false} AuthenticationLaunches(s: State, es: seq<Event>, w: Which) returns (k: nat)
    requires AllPossible(es) && NoUpgradeStarts(es) && s.st == IdentLaunch && !s.fotaUpgradeSt
    requires Succeeds(MainCalls(es))
    ensures k <= |es| && Run(s, es[..k]).st == CommandLaunch
    ensures NoneOf(w, es) ==> BodyOf(Run(s, es[..k]), w) == BodyOf(s, w)
    decreases |es|
  {
    CallsFirst(es);
    AuthenticationStep(s, es[0]);
    if es[0].MainCall? && es[0].env.auth == AuthSuccess {
      k := 0;
    } else {
      k := AuthenticationLaunches(Step(s, es[0]), es[1..], w);
    }
    k := k + 1;
    RunFirst(s, es, k);
  }

  lemma RunFirst(s: State, es: seq<Event>, k: nat)
    requires AllPossible(es) && 0 < k <= |es|
    ensures AllPossible(es[..k]) && Run(s, es[..k]) == Run(Step(s, es[0]), es[1..][..k - 1])
  {
    assert es[..k][0] == es[0] && es[..k][1..] == es[1..][..k - 1];
  }

  lemma {:induction false} QueryLaunches(s: State, es: seq<Event>, w: Which) returns (k: nat)
    requires AllPossible(es) && NoUpgradeStarts(es) && s.st == IdentQuery && !s.fotaUpgradeSt
    requires MainCalls(es) != [] && (MainCalls(es)[0].flag || Succeeds(MainCalls(es)[1..]))
    ensures k <= |es| && Run(s, es[..k]).st == CommandLaunch
    ensures NoneOf(w, es) ==> BodyOf(Run(s, es[..k]), w) == BodyOf(s, w)
    decreases |es|
  {
    var t := Step(s, es[0]);
    CallsFirst(es);
    if !es[0].MainCall? {
      k := QueryLaunches(t, es[1..], w);
    } else if es[0].env.flag {
      k := 0;
    } else {
      k := AuthenticationLaunches(t, es[1..], w);
    }
    k := k + 1;
    RunFirst(s, es, k);
  }

  lemma IdleLeft(s: State, env: Env)
    requires s.st == RmtIdle && !s.fotaUpgradeSt && Requested(Monitor(s, env.monitored))
    ensures var t := MainCallStep(s, env);
      && t.st == (if s.fotaAuthReq then IdentLaunch else IdentQuery) && !t.fotaUpgradeSt
      && t.door == s.door && t.tailgate == s.tailgate
  {
  }

  lemma IdleBetween(s: State, e: Event)
    requires Possible(e) && !e.MainCall? && !(e.FotaStart? && e.locked)
    ensures var t := Step(s, e);
      && t.st == s.st && t.fotaAuthReq == (s.fotaAuthReq || e.AuthRequest?)
      && (t.fotaUpgradeSt ==> s.fotaUpgradeSt) && forall w :: !Disturbs(w, e) ==> BodyOf(t, w) == BodyOf(s, w)
  {
  }

  /** A call in idle that finds a request: what is to come grants the launch from there. */
  lemma GrantsFromIdle(es: seq<Event>, asked: bool)
    requires es != [] && es[0].MainCall? && GrantsLaunch(es, asked)
    ensures NoUpgradeStarts(es[1..])
    ensures var calls := MainCalls(es[1..]);
      calls != [] && if asked then Succeeds(calls) else calls[0].flag || Succeeds(calls[1..])
  {
    CallsFirst(es);
    assert MainCalls(es)[2..] == MainCalls(es)[1..][1..];
  }

  lemma GrantsBetween(s: State, es: seq<Event>)
    requires es != [] && AllPossible(es) && !es[0].MainCall?
    requires GrantsLaunch(es, s.fotaAuthReq || AsksFirst(es))
    ensures GrantsLaunch(es[1..], Step(s, es[0]).fotaAuthReq || AsksFirst(es[1..]))
  {
    IdleBetween(s, es[0]);
    CallsFirst(es);
  }

  lemma IdleCallLaunches(s: State, es: seq<Event>, w: Which) returns (k: nat)
    requires AllPossible(es) && es != [] && es[0].MainCall? && s.st == RmtIdle && !s.fotaUpgradeSt
    requires Requested(Monitor(s, es[0].env.monitored)) && GrantsLaunch(es, s.fotaAuthReq)
    ensures 0 < k <= |es| && Run(s, es[..k]).st == CommandLaunch
    ensures NoneOf(w, es) ==> BodyOf(Run(s, es[..k]), w) == BodyOf(s, w)
  {
    IdleLeft(s, es[0].env);
    GrantsFromIdle(es, s.fotaAuthReq);
    if s.fotaAuthReq {
      k := AuthenticationLaunches(Step(s, es[0]), es[1..], w);
    } else {
      k := QueryLaunches(Step(s, es[0]), es[1..], w);
    }
    k := k + 1;
    RunFirst(s, es, k);
  }

  /** A request waiting in idle, of whichever controller, comes to its launch, whatever else arrives. */
  lemma {:induction false} WaitingRequestIsLaunched(s: State, es: seq<Event>, w: Which) returns (k: nat)
    requires AllPossible(es) && s.st == RmtIdle && !s.fotaUpgradeSt
    requires RequestedAtCall(s, es) && GrantsLaunch(es, s.fotaAuthReq || AsksFirst(es))
    ensures k <= |es| && Run(s, es[..k]).st == CommandLaunch
    ensures NoneOf(w, es) ==> BodyOf(Run(s, es[..k]), w) == BodyOf(s, w)
    decreases |es|
  {
    if !es[0].MainCall? {
      IdleBetween(s, es[0]);
      GrantsBetween(s, es);
      k := WaitingRequestIsLaunched(Step(s, es[0]), es[1..], w);
      k := k + 1;
      RunFirst(s, es, k);
    } else {
      k := IdleCallLaunches(s, es, w);
    }
  }

  /** While an upgrade is under way and the flag is 0 nothing is launched in any run, unless the
      upgrade ends or an authentication fails; a waiting door or tailgate request goes on waiting. */
  lemma {:induction false} UpgradeHoldsBack(s: State, es: seq<Event>, w: Which)
    requires AllPossible(es) && s.fotaUpgradeSt && s.st != CommandLaunch
    requires forall i :: 0 <= i < |es| ==> es[i] != FotaEnd
    requires forall i :: 0 <= i < |es| && es[i].MainCall? ==> !es[i].env.flag && es[i].env.auth != AuthFail
    ensures Run(s, es).st != CommandLaunch && BodyOf(Run(s, es), w).can == BodyOf(s, w).can
    ensures NoneOf(w, es) ==> BodyOf(Run(s, es), w) == BodyOf(s, w)
    decreases |es|
  {
    if es != [] {
      UpgradeHoldsBack(Step(s, es[0]), es[1..], w);
    }
  }

  /** A run from the start: an upgrade begins before the authentication for a door request has
      succeeded, and the dispatcher is at its end with the request still pending. */
  lemma UpgradeComesFirst(o: BodyCtrl.Order, query: Env, launch: Env, auth: Env)
    requires !launch.flag && auth.auth == AuthSuccess
    ensures var request := DoorEvent(BodyCtrl.Asked(o));
      var s := Run(Start(), [request, MainCall(query), MainCall(launch), FotaStart(true), MainCall(auth)]);
      s.st == RmtEnd && s.door.req && s.door.stage == BodyCtrl.Idle && Launched !in s.log
  {
    var request := DoorEvent(BodyCtrl.Asked(o));
    RunOfFive(Start(), request, MainCall(query), MainCall(launch), FotaStart(true), MainCall(auth));
  }

  lemma RunOfTwo(s: State, a: Event, b: Event)
    requires Possible(a) && Possible(b)
    ensures Run(s, [a, b]) == Step(Step(s, a), b)
  {
    assert [a, b][1..] == [b] && [b][1..] == [];
    assert Run(s, [a, b]) == Run(Step(s, a), [b]);
  }

  lemma RunOfFive(s: State, a: Event, b: Event, c: Event, d: Event, e: Event)
    requires Possible(a) && Possible(b) && Possible(c) && Possible(d) && Possible(e)
    ensures Run(s, [a, b, c, d, e]) == Step(Step(Step(Step(Step(s, a), b), c), d), e)
  {
    var s2 := Step(Step(s, a), b);
    assert [a, b, c, d, e] == [a, b] + ([c, d] + [e]);
    RunAppend(s, [a, b], [c, d] + [e]);
    RunOfTwo(s, a, b);
    RunAppend(s2, [c, d], [e]);
    RunOfTwo(s2, c, d);
    assert [e][1..] == [];
  }

  // ---- A door or tailgate request that no other disturbs ----

  predicate Done(d: BodyCtrl.State) {
    d.stage == BodyCtrl.Idle && !d.req
  }

  /** What calls are to the controller. */
  function CallsOf(w: Which, calls: seq<Env>): (r: seq<BodyCtrl.Event>)
    ensures |r| == |calls| && forall i :: 0 <= i < |calls| ==> r[i] == BodyCtrl.Main(ReadBy(w, calls[i]))
  {
    seq(|calls|, i requires 0 <= i < |calls| => BodyCtrl.Main(ReadBy(w, calls[i])))
  }

  lemma BodyStepsOnce(s: State, w: Which, e: Event)
    requires Possible(e) && !Disturbs(w, e) && (s.st == CommandLaunch || Done(BodyOf(s, w)))
    ensures Step(s, e).st == CommandLaunch || Done(BodyOf(Step(s, e), w))
    ensures BodyOf(Step(s, e), w) ==
      if e.MainCall? then BodyCtrl.Step(ProfileOf(w), BodyOf(s, w), BodyCtrl.Main(ReadBy(w, e.env))) else BodyOf(s, w)
  {
  }

  /** From a launch on each of the two takes one step a call until it is done, whatever requests of the
      others, upgrades and authentications come in between and however often the dispatcher goes round. */
  lemma {:induction false} BodyRuns(s: State, w: Which, es: seq<Event>)
    requires AllPossible(es) && NoneOf(w, es) && (s.st == CommandLaunch || Done(BodyOf(s, w)))
    ensures BodyOf(Run(s, es), w) == BodyCtrl.Run(ProfileOf(w), BodyOf(s, w), CallsOf(w, MainCalls(es)))
    decreases |es|
  {
    if es != [] {
      BodyStepsOnce(s, w, es[0]);
      BodyRuns(Step(s, es[0]), w, es[1..]);
      if es[0].MainCall? {
        assert CallsOf(w, MainCalls(es))[0] == BodyCtrl.Main(ReadBy(w, es[0].env));
        assert CallsOf(w, MainCalls(es))[1..] == CallsOf(w, MainCalls(es[1..]));
      } else {
        assert MainCalls(es) == MainCalls(es[1..]);
      }
    }
  }

  /** The events up to call number `k`. */
  lemma {:induction false} UpToCall(es: seq<Event>, k: nat) returns (n: nat)
    requires k <= |MainCalls(es)|
    ensures n <= |es| && MainCalls(es[..n]) == MainCalls(es)[..k]
    decreases |es|
  {
    n := 0;
    if k > 0 {
      n := UpToCall(es[1..], if es[0].MainCall? then k - 1 else k);
      n := n + 1;
      assert es[..n][0] == es[0] && es[..n][1..] == es[1..][..n - 1];
    }
  }

  lemma {:induction false} CallsAppend(es: seq<Event>, fs: seq<Event>)
    ensures MainCalls(es + fs) == MainCalls(es) + MainCalls(fs)
    decreases |es|
  {
    if es == [] {
      assert es + fs == fs;
    } else {
      assert (es + fs)[0] == es[0] && (es + fs)[1..] == es[1..] + fs;
      CallsAppend(es[1..], fs);
    }
  }

  lemma {:induction false} RunAppend(s: State, es: seq<Event>, fs: seq<Event>)
    requires AllPossible(es) && AllPossible(fs)
    ensures AllPossible(es + fs) && Run(s, es + fs) == Run(Run(s, es), fs)
    decreases |es|
  {
    if es == [] {
      assert es + fs == fs;
    } else {
      assert (es + fs)[0] == es[0] && (es + fs)[1..] == es[1..] + fs;
      RunAppend(Step(s, es[0]), es[1..], fs);
    }
  }

  lemma {:induction false} RequestStays(s: State, w: Which, es: seq<Event>)
    requires AllPossible(es) && NoneOf(w, es) && BodyOf(s, w).req && MainCalls(es) != []
    ensures RequestedAtCall(s, es)
    decreases |es|
  {
    if !es[0].MainCall? {
      RequestStays(Step(s, es[0]), w, es[1..]);
    }
  }

  /** What an event reads of the clock for the controller. */
  function ClockFor(w: Which): Event -> CtrlLog.Reading {
    (e: Event) => if e.MainCall? then BodyCtrl.ClockOf(BodyCtrl.Main(ReadBy(w, e.env))) else CtrlLog.NoReading
  }

  lemma {:induction false} CallsAdvance(w: Which, es: seq<Event>, now: nat)
    requires CtrlLog.Advancing(es, ClockFor(w), now)
    ensures CtrlLog.Advancing(CallsOf(w, MainCalls(es)), BodyCtrl.ClockOf, now)
    decreases |es|
  {
    if es != [] {
      CallsAdvance(w, es[1..], CtrlLog.After(es[0], ClockFor(w), now));
      if es[0].MainCall? {
        assert CallsOf(w, MainCalls(es))[1..] == CallsOf(w, MainCalls(es[1..]));
      } else {
        assert MainCalls(es) == MainCalls(es[1..]);
      }
    }
  }

  /** The calls that a request needs at most, with a timeout of 2000 or 15000 ms. */
  function CallsNeeded(w: Which): nat {
    match w case TheDoorLock => 2004 case TheTailgate => 15004
  }

  /** A request that has come to its launch is answered. */
  lemma LaunchedIsAnswered(s: State, w: Which, a: BodyCtrl.State, o: BodyCtrl.Order, es: seq<Event>, now: nat)
    returns (n: nat)
    requires AllPossible(es) && NoneOf(w, es) && s.st == CommandLaunch && a.stage == BodyCtrl.Idle
    requires BodyOf(s, w) == BodyCtrl.Step(ProfileOf(w), a, BodyCtrl.Asked(o))
    requires CtrlLog.Advancing(es, ClockFor(w), now) && |MainCalls(es)| >= CallsNeeded(w)
    ensures n <= |es|
    ensures var d := BodyOf(Run(s, es[..n]), w);
      Done(d) && BodyCtrl.Answered(ProfileOf(w), a, o, d)
  {
    var calls := CallsOf(w, MainCalls(es));
    CallsAdvance(w, es, now);
    var k := BodyCtrl.RequestIsAnswered(ProfileOf(w), a, o, now, calls);
    n := UpToCall(es, k);
    BodyRuns(s, w, es[..n]);
    assert CallsOf(w, MainCalls(es[..n])) == calls[..k];
  }

  /** What is left of the events after the first `k`. */
  lemma FromCall(w: Which, es: seq<Event>, k: nat, m: nat, now: nat)
    requires k <= m <= |es| && CtrlLog.Advancing(es, ClockFor(w), now)
    ensures |MainCalls(es[k..])| >= |MainCalls(es[m..])|
    ensures CtrlLog.Advancing(es[k..], ClockFor(w), CtrlLog.AfterAll(es[..k], ClockFor(w), now))
  {
    assert es == es[..k] + es[k..] && es[k..] == es[k..m] + es[m..];
    CallsAppend(es[k..m], es[m..]);
    CtrlLog.AdvancingAfter(es[..k], es[k..], ClockFor(w), now);
  }

  /** End to end: a door or tailgate request that comes while the dispatcher is idle, and on the way to
      whose launch (the first `m` events) no upgrade starts and the launch is granted, gets exactly one
      final report of its own, within 2004 or 15004 further calls.  Of all the events that may come in
      between, before the launch or after, only another request of the same controller is left out. */
  lemma BodyRequestIsAnswered(s: State, w: Which, o: BodyCtrl.Order, es: seq<Event>, m: nat, now: nat) returns (n: nat)
    requires s.st == RmtIdle && !s.fotaUpgradeSt && BodyOf(s, w).stage == BodyCtrl.Idle
    requires AllPossible(es) && NoneOf(w, es) && m <= |es|
    requires GrantsLaunch(es[..m], s.fotaAuthReq || AsksFirst(es[..m]))
    requires CtrlLog.Advancing(es, ClockFor(w), now) && |MainCalls(es[m..])| >= CallsNeeded(w)
    ensures n <= |es|
    ensures var d := BodyOf(Run(Step(s, EventOf(w, BodyCtrl.Asked(o))), es[..n]), w);
      Done(d) && BodyCtrl.Answered(ProfileOf(w), BodyOf(s, w), o, d)
  {
    var asked := Step(s, EventOf(w, BodyCtrl.Asked(o)));
    RequestStays(asked, w, es[..m]);
    var k := WaitingRequestIsLaunched(asked, es[..m], w);
    assert es[..m][..k] == es[..k];
    FromCall(w, es, k, m, now);
    n := LaunchedIsAnswered(Run(asked, es[..k]), w, BodyOf(s, w), o, es[k..],
                            CtrlLog.AfterAll(es[..k], ClockFor(w), now));
    RunSplit(asked, es, k, n);
    n := k + n;
  }

  lemma RunSplit(s: State, es: seq<Event>, k: nat, n: nat)
    requires AllPossible(es) && k + n <= |es|
    ensures AllPossible(es[..k]) && AllPossible(es[k..][..n]) && AllPossible(es[..k + n])
    ensures Run(s, es[..k + n]) == Run(Run(s, es[..k]), es[k..][..n])
  {
    RunAppend(s, es[..k], es[k..][..n]);
    assert es[..k + n] == es[..k] + es[k..][..n];
  }

  // ---- The way back to idle ----

  /** The other controllers have come to their end. */
  ghost predicate OthersRest(s: State, e: Event) {
    e.MainCall? && forall i :: i in s.others ==> i in e.env.stepped && e.env.stepped[i] == Other(0, false)
  }

  /** The clocks of the two controllers, and what they need of them. */
  ghost predicate ClocksKept(s: State, nowDoor: nat, nowTailgate: nat) {
    && (s.door.stage == BodyCtrl.RespWait ==> s.door.waitStart <= nowDoor)
    && (s.tailgate.stage == BodyCtrl.RespWait ==> s.tailgate.waitStart <= nowTailgate)
  }

  function CallsToEnd(s: State, nowDoor: nat, nowTailgate: nat): nat {
    var d := BodyCtrl.CallsToRest(BodyCtrl.DoorLock, s.door, nowDoor);
    var t := BodyCtrl.CallsToRest(BodyCtrl.Tailgate, s.tailgate, nowTailgate);
    if d > t then d else t
  }

  lemma LaunchGetsCloser(s: State, e: Event, nowDoor: nat, nowTailgate: nat)
    requires s.st == CommandLaunch && OthersRest(s, e) && ClocksKept(s, nowDoor, nowTailgate)
    requires nowDoor < e.env.door.t0 <= e.env.door.t1 < CtrlLog.CLOCK_MODULUS
    requires nowTailgate < e.env.tailgate.t0 <= e.env.tailgate.t1 < CtrlLog.CLOCK_MODULUS
    ensures var t, n := Step(s, e), CallsToEnd(Step(s, e), e.env.door.t1, e.env.tailgate.t1);
      && ClocksKept(t, e.env.door.t1, e.env.tailgate.t1) && t.others.Keys == s.others.Keys
      && (n < CallsToEnd(s, nowDoor, nowTailgate) || n == 0)
      && t.st == (if n == 0 then RmtEnd else CommandLaunch)
  {
    BodyGetsToRest(s, TheDoorLock, e, nowDoor);
    BodyGetsToRest(s, TheTailgate, e, nowTailgate);
    EndsWhenDone(s, e);
  }

  lemma BodyGetsToRest(s: State, w: Which, e: Event, now: nat)
    requires s.st == CommandLaunch && e.MainCall?
    requires var b := ReadBy(w, e.env); now < b.t0 <= b.t1 < CtrlLog.CLOCK_MODULUS
    requires BodyOf(s, w).stage == BodyCtrl.RespWait ==> BodyOf(s, w).waitStart <= now
    ensures var b, later := BodyOf(Step(s, e), w), ReadBy(w, e.env).t1;
      var n := BodyCtrl.CallsToRest(ProfileOf(w), b, later);
      && (b.stage == BodyCtrl.RespWait ==> b.waitStart <= later)
      && (n < BodyCtrl.CallsToRest(ProfileOf(w), BodyOf(s, w), now) || n == 0) && (n == 0 <==> Done(b))
  {
    BodyCtrl.MainGetsToRest(ProfileOf(w), BodyOf(s, w), ReadBy(w, e.env), now);
    BodyStepsOnce(s, w, e);
    BodyAtRest(ProfileOf(w), BodyOf(Step(s, e), w), ReadBy(w, e.env).t1);
  }

  lemma BodyAtRest(p: BodyCtrl.Profile, d: BodyCtrl.State, now: nat)
    ensures BodyCtrl.CallsToRest(p, d, now) == 0 <==> Done(d)
  {
  }

  lemma EndsWhenDone(s: State, e: Event)
    requires s.st == CommandLaunch && OthersRest(s, e)
    ensures var t := Step(s, e); t.st == if Done(t.door) && Done(t.tailgate) then RmtEnd else CommandLaunch
  {
  }

  /** From a launch the dispatcher comes back to idle: once the other controllers have come to their end,
      it takes as many calls as the door lock and the tailgate need, and two more. */
  lemma {:induction false} ComesBackToIdle(s: State, es: seq<Event>, nowDoor: nat, nowTailgate: nat) returns (k: nat)
    requires AllPossible(es) && s.st == CommandLaunch && ClocksKept(s, nowDoor, nowTailgate)
    requires forall i :: 0 <= i < |es| ==> OthersRest(s, es[i])
    requires CtrlLog.Advancing(es, ClockFor(TheDoorLock), nowDoor)
    requires CtrlLog.Advancing(es, ClockFor(TheTailgate), nowTailgate)
    requires |es| >= CallsToEnd(s, nowDoor, nowTailgate) + 2
    ensures k <= |es| && Run(s, es[..k]).st == RmtIdle
    decreases |es|
  {
    var e, t := es[0], Step(s, es[0]);
    LaunchGetsCloser(s, e, nowDoor, nowTailgate);
    if t.st == RmtEnd {
      assert es[..2] == [e, es[1]];
      RunOfTwo(s, e, es[1]);
      k := 2;
    } else {
      k := ComesBackToIdle(t, es[1..], e.env.door.t1, e.env.tailgate.t1);
      k := k + 1;
      RunFirst(s, es, k);
    }
  }

  // ---- Leaving idle ----

  /** The record is true of leaving idle and of failed authentications. */
  lemma MarksTell(s: State, e: Event)
    requires Possible(e)
    ensures var t := Step(s, e);
      && (s.st == RmtIdle && t.st != RmtIdle <==> Adds(s, t, LeftIdle))
      && (e.MainCall? && s.st == IdentLaunch && e.env.auth == AuthFail <==> Adds(s, t, AuthFailed))
  {
  }

  predicate Adds(s: State, t: State, m: Mark) {
    |t.log| == |s.log| + 1 && t.log[|s.log|] == m
  }

  /** No controller asks for anything, nor is an authentication asked for. */
  ghost predicate NothingAsked(s: State) {
    s.st == RmtIdle && !s.fotaAuthReq && !Requested(s)
  }

  /** The monitors find nothing due. */
  ghost predicate NothingDue(e: Event) {
    e.MainCall? && forall i :: i in e.env.monitored ==> !e.env.monitored[i]
  }

  /** Without a request the dispatcher stays in idle, from the start on. */
  lemma {:induction false} StaysInIdle(s: State, es: seq<Event>)
    requires AllPossible(es) && NothingAsked(s) && forall i :: 0 <= i < |es| ==> NothingDue(es[i])
    ensures NothingAsked(Run(s, es)) && Run(s, es).log == s.log
    decreases |es|
  {
    if es != [] {
      StaysInIdle(Step(s, es[0]), es[1..]);
    }
  }

  lemma StartAsksNothing()
    ensures NothingAsked(Start()) && !Start().fotaUpgradeSt
    ensures Start().others.Keys == {1, 3, 4, 5, 7, 8, 9, 10}
    ensures Resting(Start()) && Start().door == Start().tailgate == BodyCtrl.Init
  {
    assert forall i :: i in Start().others ==> i in {1, 3, 4, 5, 7, 8, 9, 10};
  }

  /** A request of another controller stays until the first call when the monitors do not take it back,
      and one that they find due is there in that call. */
  lemma {:induction false} OtherRequestStays(s: State, i: nat, es: seq<Event>)
    requires AllPossible(es) && MainCalls(es) != [] && i in s.others
    requires var m := MainCalls(es)[0].monitored; if i in m then m[i] else s.others[i].req
    ensures RequestedAtCall(s, es)
    decreases |es|
  {
    CallsFirst(es);
    if es[0].MainCall? {
      assert Monitor(s, es[0].env.monitored).others[i].req;
    } else {
      OtherKeepsAsking(s, i, es[0]);
      OtherRequestStays(Step(s, es[0]), i, es[1..]);
    }
  }

  lemma OtherKeepsAsking(s: State, i: nat, e: Event)
    requires Possible(e) && !e.MainCall? && i in s.others
    ensures i in Step(s, e).others && (s.others[i].req ==> Step(s, e).others[i].req)
  {
  }

  /** So a request of another controller, or one that its monitor finds due, comes to its launch, and the
      call after that steps the controller. */
  lemma OtherRequestIsStepped(s: State, i: nat, es: seq<Event>, next: Env) returns (k: nat)
    requires AllPossible(es) && s.st == RmtIdle && !s.fotaUpgradeSt && i in s.others && MainCalls(es) != []
    requires i in MainCalls(es)[0].monitored ==> MainCalls(es)[0].monitored[i]
    requires GrantsLaunch(es, s.fotaAuthReq || AsksFirst(es)) && IsOther(i) && i in next.stepped
    ensures k <= |es|
    ensures var t := Run(Step(s, OtherRequest(i)), es[..k]);
      t.st == CommandLaunch && i in t.others && Step(t, MainCall(next)).others[i] == next.stepped[i]
  {
    var asked := Step(s, OtherRequest(i));
    OtherRequestStays(asked, i, es);
    k := WaitingRequestIsLaunched(asked, es, TheDoorLock);
    OthersAreKept(asked, es[..k]);
  }

  lemma {:induction false} OthersAreKept(s: State, es: seq<Event>)
    requires AllPossible(es)
    ensures Run(s, es).others.Keys == s.others.Keys
    decreases |es|
  {
    if es != [] {
      assert Step(s, es[0]).others.Keys == s.others.Keys;
      OthersAreKept(Step(s, es[0]), es[1..]);
    }
  }

  // ---- What becomes of an authentication ----

  /** From the authentication step on, the first call that does not find it pending decides it: success
      is noted as 1 and failure as -1, and failure takes an upgrade back. */
  lemma {:induction false} AuthenticationDecides(s: State, es: seq<Event>, last: Env)
    requires AllPossible(es) && NoUpgradeStarts(es) && s.st == IdentLaunch && last.auth != AuthPending
    requires forall i :: 0 <= i < |es| ==> !es[i].AuthRequest?
    requires forall i :: 0 <= i < |es| && es[i].MainCall? ==> es[i].env.auth == AuthPending
    ensures var t := Run(s, es);
      && t.st == IdentLaunch && t.fotaAuthResult == s.fotaAuthResult
      && MainCallStep(t, last).fotaAuthResult == (if last.auth == AuthSuccess then 1 else -1)
      && (last.auth == AuthFail ==> !MainCallStep(t, last).fotaUpgradeSt && MainCallStep(t, last).st == RmtEnd)
    decreases |es|
  {
    if es != [] {
      AuthenticationDecides(Step(s, es[0]), es[1..], last);
    }
  }

  /** An authentication of its own is asked for again with its result open, and an upgrade asks for one
      exactly when it is given the lock. */
  lemma AuthenticationIsAsked(s: State, locked: bool, env: Env)
    requires s.st == RmtIdle
    ensures var t := MainCallStep(Step(s, AuthRequest), env); t.st == IdentLaunch && t.fotaAuthResult == 0
    ensures var t := MainCallStep(Step(s, FotaStart(locked)), env);
      locked ==> t.st == IdentLaunch && t.fotaAuthResult == 0 && t.fotaUpgradeSt && !t.fotaAuthReq
    ensures !locked ==> Step(s, FotaStart(locked)) == s
    ensures !Step(s, FotaEnd).fotaUpgradeSt
  {
  }

  // ---- The C file's own form ----

  class Dispatcher {
    var st: CtrlSt
    var fotaAuthReq: bool
    var fotaUpgradeSt: bool
    var fotaAuthResult: int
    const door: BodyCtrl.BodyController
    const tailgate: BodyCtrl.BodyController
    var others: map<nat, Other>
    ghost var log: seq<Mark>

    ghost predicate Valid()
      reads this
    {
      && door != tailgate && door.profile == BodyCtrl.DoorLock && tailgate.profile == BodyCtrl.Tailgate
      && forall i: nat :: i in others <==> IsOther(i)
    }

    ghost function View(): State
      reads this, door, tailgate
    {
      State(st, fotaAuthReq, fotaUpgradeSt, fotaAuthResult, door.View(), tailgate.View(), others, log)
    }

    constructor ()
      ensures Valid() && fresh(door) && fresh(tailgate)
      ensures View() == Start()
    {
      st, fotaAuthReq, fotaUpgradeSt, fotaAuthResult := RmtIdle, false, false, 0;
      door := new BodyCtrl.BodyController(BodyCtrl.DoorLock);
      tailgate := new BodyCtrl.BodyController(BodyCtrl.Tailgate);
      others := map i: nat | i < RMTCTRL_OBJ_MAX && IsOther(i) :: Other(0, false);
      log := [];
    }

    predicate Request()
      reads this, door, tailgate
      ensures Request() == Requested(View())
    {
      door.HasRequest() || tailgate.HasRequest() || exists i | i in others :: others[i].req
    }

    predicate Ended()
      reads this, door, tailgate
      ensures Ended() == AllDone(View())
    {
      door.Finished() && tailgate.Finished() && forall i | i in others :: others[i].stage == 0 && !others[i].req
    }

    method Clear()
      requires Valid()
      modifies this`others, door, tailgate
      ensures Valid() && View() == ClearAll(old(View()))
    {
      tailgate.ClearStatus();
      door.ClearStatus();
      others := map i | i in others :: others[i].(req := false);
    }

    /** One entry of the table; the entry for charging has no main function. */
    method CallEntry(i: nat, env: Env)
      requires Valid() && i < RMTCTRL_OBJ_MAX
      modifies this`others, door, tailgate
      ensures Valid()
      ensures door.View() == if i == RMTCTRL_DOORLOCK then DoorStep(old(door.View()), env) else old(door.View())
      ensures tailgate.View()
              == if i == RMTCTRL_AUTODOOR then TailgateStep(old(tailgate.View()), env) else old(tailgate.View())
      ensures others == if IsOther(i) && i in env.stepped then old(others)[i := env.stepped[i]] else old(others)
    {
      if i == RMTCTRL_DOORLOCK {
        door.MainFunction(env.door);
      } else if i == RMTCTRL_AUTODOOR {
        tailgate.MainFunction(env.tailgate);
      } else if i != RMTCTRL_CHARGE {
        if i in env.stepped {
          others := others[i := env.stepped[i]];
        }
      }
    }

    /** The table loop of COMMAND_LAUNCH: every entry that has a main function is called once. */
    method CallAll(env: Env)
      requires Valid()
      modifies this`others, door, tailgate
      ensures Valid()
      ensures door.View() == DoorStep(old(door.View()), env)
      ensures tailgate.View() == TailgateStep(old(tailgate.View()), env)
      ensures others == map i | i in old(others) :: if i in env.stepped then env.stepped[i] else old(others)[i]
    {
      ghost var was, wasDoor, wasTailgate := others, door.View(), tailgate.View();
      for i := 0 to RMTCTRL_OBJ_MAX
        invariant Valid() && others.Keys == was.Keys
        invariant door.View() == if i > RMTCTRL_DOORLOCK then DoorStep(wasDoor, env) else wasDoor
        invariant tailgate.View() == if i > RMTCTRL_AUTODOOR then TailgateStep(wasTailgate, env) else wasTailgate
        invariant forall j | j in was :: others[j] == if j < i && j in env.stepped then env.stepped[j] else was[j]
      {
        CallEntry(i, env);
      }
    }

    /** The authentication step. */
    method Authenticate(env: Env)
      requires Valid() && st == IdentLaunch
      modifies this, door, tailgate
      ensures Valid() && View() == MainCallStep(old(View()), env)
    {
      if env.auth == AuthSuccess {
        log := log + [AuthSucceeded(fotaUpgradeSt)];
        fotaAuthResult := 1;
        if !fotaUpgradeSt {
          st := CommandLaunch;
        } else {
          st := RmtEnd;
        }
      } else if env.auth == AuthFail {
        log := log + [AuthFailed];
        fotaAuthResult := -1;
        fotaUpgradeSt := false;
        Clear();
        st := RmtEnd;
      }
    }

    /** The idle step: the monitors run and a request or an authentication request is looked for. */
    method LookForRequest(env: Env)
      requires Valid() && st == RmtIdle
      modifies this
      ensures Valid() && View() == MainCallStep(old(View()), env)
    {
      others := map i | i in others :: if i in env.monitored then others[i].(req := env.monitored[i]) else others[i];
      var ret := Request();
      if ret || fotaAuthReq {
        log := log + [LeftIdle];
        if fotaAuthReq {
          fotaAuthReq := false;
          st := IdentLaunch;
        } else {
          st := IdentQuery;
        }
      }
    }

    method LaunchCommands(env: Env)
      requires Valid() && st == CommandLaunch
      modifies this, door, tailgate
      ensures Valid() && View() == MainCallStep(old(View()), env)
    {
      log := log + [Launched];
      CallAll(env);
      var ifend := Ended();
      if ifend {
        st := RmtEnd;
      }
    }

    method MainFunction(env: Env)
      requires Valid()
      modifies this, door, tailgate
      ensures Valid() && View() == Step(old(View()), MainCall(env))
    {
      match st
      case RmtIdle =>
        LookForRequest(env);
      case IdentQuery =>
        if env.flag {
          st := CommandLaunch;
          log := log + [FlagWasOne];
        } else {
          st := IdentLaunch;
        }
      case IdentLaunch =>
        Authenticate(env);
      case CommandLaunch =>
        LaunchCommands(env);
      case RmtEnd =>
        st := RmtIdle;
    }
  }
}
