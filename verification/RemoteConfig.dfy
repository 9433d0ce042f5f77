/** The remote configuration protocol of PrvtProt_remoteConfig.c: check, get, merge, end, commit,
    with its timeouts, send callbacks and resets. */
module RemoteConfig {
  import opened CtrlLog

  const RMTCFG_DELAY_TIME: nat := 1500
  const PP_RMTCFG_WAIT_TIMEOUT: nat := 5000
  const PP_RETRANSMIT_TIMES: nat := 1

  datatype CfgSt = CfgIdle | CheckReq | CheckResp | GetReq | GetResp | CfgEnd

  datatype WaitSt = WaitIdle | CheckWait | GetWait | EndWait

  /** The requests of the protocol. */
  datatype Kind = Check | Get | End

  /** One block of settings: its valid flag and the rest. */
  datatype Block = Block(valid: bool, content: int)

  datatype Blocks = Blocks(ficm: Block, apn1: Block, apn2: Block, common: Block, extend: Block)

  datatype Config = Config(version: seq<nat>, blocks: Blocks)

  /** What is in flash: whether a configuration was ever stored (1), and it. */
  datatype Flash = Flash(st: nat, config: Config)

  datatype Option<T> = None | Some(value: T)

  /** What has happened, for the record.  `Asked` is a request step, whether or not the message
      could be encoded; `Cleared` is the end of a wait; `Reloaded` is a read of the flash into the
      working copy. */
  datatype Mark =
    | Triggered
    | Asked(kind: Kind)
    | GetAccepted
    | Cleared
    | Merged(config: Config)
    | Reloaded
    | Committed(config: Config)

  /** The struct `PrvtProt_rmtCfgSt_t`. */
  datatype Ctl = Ctl(
    req: nat,
    reqCnt: nat,
    cfgSt: CfgSt,
    period: nat,
    waitSt: WaitSt,
    waittime: nat,
    iccidValid: bool,
    delaytime: nat,
    active: bool,
    needUpdata: bool,
    cfgAccept: bool,
    cfgsuccess: bool)

  /** The last check response and get response, as decoded. */
  datatype CheckData = CheckData(needUpdate: int, version: seq<nat>)
  datatype GetData = GetData(result: int, blocks: Blocks)

  datatype State = State(
    ctl: Ctl,
    checkResp: CheckData,
    getResp: GetData,
    work: Config,
    checkVersion: seq<nat>,
    iccid: bool,
    flash: Flash,
    log: seq<Mark>)

  datatype Msg =
    | NoMsg
    | CheckAnswer(needUpdate: int, version: Option<seq<nat>>)
    | GetAnswer(result: int, blocks: Blocks)
    | ConnRequest
    | ReadRequest

  /** What one call reads: the ignition, the socket, a message, whether the SIM's number could be
      got, the clock when waiting and when acting. */
  datatype Env = Env(kl15: bool, open: bool, msg: Msg, gotIccid: bool, t0: nat, t1: nat)

  datatype Sent = SentConnResp | SentReadResp | SentCheck | SentGet | SentEnd

  datatype TxResult = TxSuccess | TxFail | TxOther

  datatype Event =
    | Main(env: Env)
    | SendCb(sent: Sent, res: TxResult, now: nat)
    | SetCfgReq(req: nat, now: nat)
    | AskAddress

  const NoBlock: Block := Block(false, 0)
  const NoBlocks: Blocks := Blocks(NoBlock, NoBlock, NoBlock, NoBlock, NoBlock)

  // ---- The steps ----

  /** The end of a wait, recorded if there was one. */
  function Clear(s: State): State {
    if s.ctl.waitSt == WaitIdle then s
    else s.(ctl := s.ctl.(waitSt := WaitIdle), log := s.log + [Cleared])
  }

  /** Back to idle, the request dropped: what a timeout and most failures come to. */
  function GiveUp(s: State): State {
    var s := Clear(s);
    s.(ctl := s.ctl.(req := 0, reqCnt := 0, cfgSt := CfgIdle))
  }

  function Reset(s: State): State {
    var s := GiveUp(s);
    s.(ctl := s.ctl.(cfgAccept := false, cfgsuccess := false, needUpdata := false, period := 0, waittime := 0))
  }

  function Invalid(b: Block): Block {
    b.(valid := false)
  }

  /** What reading the local configuration makes of the working copy. */
  function Local(flash: Flash, work: Config, checkVersion: seq<nat>): Config {
    if flash.st == 1 then flash.config
    else Config(checkVersion, Blocks(Invalid(work.blocks.ficm), Invalid(work.blocks.apn1), Invalid(work.blocks.apn2),
                                     Invalid(work.blocks.common), Invalid(work.blocks.extend)))
  }

  function LoadLocal(s: State): State {
    s.(work := Local(s.flash, s.work, s.checkVersion),
       checkVersion := if s.flash.st == 1 then s.flash.config.version else s.checkVersion,
       log := s.log + [Reloaded])
  }

  function Pick(b: Block, old_: Block): Block {
    if b.valid then b else old_
  }

  /** Each block that came replaces the one there was. */
  function Merge(got: Blocks, old_: Blocks): Blocks {
    Blocks(Pick(got.ficm, old_.ficm), Pick(got.apn1, old_.apn1), Pick(got.apn2, old_.apn2),
           Pick(got.common, old_.common), Pick(got.extend, old_.extend))
  }

  /** The fields are written by the decoder before anybody asks whether the answer is awaited. */
  function Receive(s: State, msg: Msg): State {
    match msg
    case NoMsg => s
    case CheckAnswer(need, version) =>
      var s := s.(checkResp := CheckData(need, if version.Some? then version.value else s.checkResp.version));
      if s.ctl.waitSt == CheckWait then
        var s := Clear(s);
        s.(ctl := s.ctl.(needUpdata := s.ctl.needUpdata || need == 1), checkResp := s.checkResp.(needUpdate := 0))
      else s
    case GetAnswer(result, blocks) =>
      var s := s.(getResp := GetData(result, Merge(blocks, s.getResp.blocks)));
      if s.ctl.waitSt == GetWait then Clear(s.(log := s.log + [GetAccepted])) else s
    case ConnRequest =>
      var s := GiveUp(s);
      s.(ctl := s.ctl.(cfgAccept := true))
    case ReadRequest => LoadLocal(s)
  }

  function Await(s: State, now: nat): State {
    if Elapsed(now, s.ctl.waittime) > PP_RMTCFG_WAIT_TIMEOUT then GiveUp(s) else s
  }

  /** The request of its own that follows switching on, and the SIM's number. */
  function Activate(s: State, e: Env): State {
    var s := if s.ctl.active then s
             else s.(ctl := s.ctl.(req := 1, reqCnt := 0, period := e.t1, delaytime := e.t1, active := true),
                     log := s.log + [Triggered]);
    if s.iccid then s.(ctl := s.ctl.(iccidValid := true)) else s.(iccid := e.gotIccid)
  }

  function Ask(s: State, kind: Kind, now: nat): State {
    s.(ctl := s.ctl.(waitSt := match kind case Check => CheckWait case Get => GetWait case End => EndWait,
                     waittime := now,
                     cfgSt := match kind case Check => CheckResp case Get => GetResp case End => CfgEnd),
       log := s.log + [Asked(kind)])
  }

  /** The configuration that a get response with result 1 leads to. */
  function MergedConfig(s: State): Config {
    Config(s.checkResp.version, Merge(s.getResp.blocks, s.flash.config.blocks))
  }

  function MergeStep(s: State): State {
    if s.getResp.result == 1 then
      s.(getResp := s.getResp.(result := 0), work := MergedConfig(s), ctl := s.ctl.(cfgsuccess := true),
         log := s.log + [Merged(MergedConfig(s))])
    else s
  }

  function IdleStep(s: State, now: nat): State {
    if (s.ctl.iccidValid && Elapsed(now, s.ctl.delaytime) >= 15000) || Elapsed(now, s.ctl.delaytime) >= 30000 then
      if s.ctl.req == 1 && s.ctl.reqCnt < PP_RETRANSMIT_TIMES then
        if Elapsed(now, s.ctl.period) >= RMTCFG_DELAY_TIME then
          var s := Clear(s);
          s.(ctl := s.ctl.(cfgSt := CheckReq, reqCnt := s.ctl.reqCnt + 1))
        else s
      else s.(ctl := s.ctl.(reqCnt := 0, req := 0))
    else s
  }

  function Act(s: State, now: nat): State {
    match s.ctl.cfgSt
    case CfgIdle => IdleStep(s, now)
    case CheckReq => Ask(s.(checkVersion := s.flash.config.version), Check, now)
    case CheckResp =>
      if s.ctl.needUpdata then s.(ctl := s.ctl.(needUpdata := false, cfgSt := GetReq)) else GiveUp(s)
    case GetReq => Ask(s.(getResp := GetData(0, NoBlocks)), Get, now)
    case GetResp => s.(ctl := s.ctl.(cfgSt := CfgEnd))
    case CfgEnd => Ask(MergeStep(s), End, now)
  }

  /** A call that finds a wait under way does not act, even when it is the one to end it. */
  function MainStep(s: State, e: Env): State {
    if !e.kl15 then s.(ctl := s.ctl.(active := false, cfgSt := CfgIdle))
    else if !e.open then Reset(s)
    else
      var s := Receive(s, e.msg);
      if s.ctl.waitSt != WaitIdle then Await(s, e.t0) else Act(Activate(s, e), e.t1)
  }

  function Commit(s: State): State {
    s.(ctl := s.ctl.(cfgsuccess := false), flash := Flash(1, s.work), checkVersion := s.checkResp.version,
       log := s.log + [Committed(s.work)])
  }

  function CallbackStep(s: State, sent: Sent, res: TxResult, now: nat): State {
    match sent
    case SentConnResp =>
      if res != TxSuccess then s
      else s.(ctl := s.ctl.(req := 1, reqCnt := 0, period := now), log := s.log + [Triggered])
    case SentReadResp => s
    case SentCheck =>
      if res == TxFail then var s := GiveUp(s); s.(ctl := s.ctl.(period := now)) else s
    case SentGet =>
      if res == TxFail then var s := GiveUp(s); s.(ctl := s.ctl.(period := now)) else s
    case SentEnd => GiveUp(if res == TxSuccess && s.ctl.cfgsuccess then Commit(s) else s)
  }

  function Step(s: State, e: Event): State {
    match e
    case Main(env) => MainStep(s, env)
    case SendCb(sent, res, now) => CallbackStep(s, sent, res, now)
    case SetCfgReq(req, now) =>
      s.(ctl := s.ctl.(req := req, reqCnt := 0, period := now), log := if req == 1 then s.log + [Triggered] else s.log)
    case AskAddress =>
      s.(work := s.work.(blocks := s.work.blocks.(apn1 := s.flash.config.blocks.apn1)), log := s.log + [Reloaded])
  }

  function Run(s: State, es: seq<Event>): State
    decreases |es|
  {
    if es == [] then s else Run(Step(s, es[0]), es[1..])
  }

  function Start(flash: Flash, zeros: seq<nat>): State {
    var work := Config([], NoBlocks);
    State(Ctl(0, 0, CfgIdle, 0, WaitIdle, 0, false, 0, false, false, false, false),
          CheckData(0, []), GetData(0, NoBlocks),
          Local(flash, work, zeros), if flash.st == 1 then flash.config.version else zeros, false, flash, [])
  }

  // ---- What the record of every run keeps ----

  /** Every request step has been followed by the end of its wait. */
  ghost predicate AllAnswered(log: seq<Mark>) {
    forall i :: 0 <= i < |log| && log[i].Asked? ==> exists k :: i < k < |log| && log[k] == Cleared
  }

  /** At most one request is outstanding: before each one every earlier wait had ended. */
  ghost predicate OneAtATime(log: seq<Mark>) {
    forall j {:trigger log[..j]} :: 0 <= j < |log| && log[j].Asked? ==> AllAnswered(log[..j])
  }

  ghost predicate NoRequestAfter(log: seq<Mark>, a: nat) {
    forall k :: a < k < |log| ==> !log[k].Asked?
  }

  ghost predicate GetAskedLast(log: seq<Mark>) {
    exists a :: 0 <= a < |log| && log[a] == Asked(Get) && NoRequestAfter(log, a)
  }

  /** A get request, its accepted response, and no request since. */
  ghost predicate GetAnswered(log: seq<Mark>) {
    exists a, b :: 0 <= a < b < |log| && log[a] == Asked(Get) && log[b] == GetAccepted && NoRequestAfter(log, a)
  }

  ghost predicate EndsFollowGets(log: seq<Mark>) {
    forall j {:trigger log[..j]} :: 0 <= j < |log| && log[j] == Asked(End) ==> GetAnswered(log[..j])
  }

  ghost predicate Ordered(log: seq<Mark>) {
    OneAtATime(log) && EndsFollowGets(log)
  }

  lemma OrderedMore(log: seq<Mark>, m: Mark)
    requires Ordered(log)
    requires m.Asked? ==> AllAnswered(log)
    requires m == Asked(End) ==> GetAnswered(log)
    ensures Ordered(log + [m])
  {
    var log' := log + [m];
    forall j | 0 <= j < |log'|
      ensures log'[..j] == if j < |log| then log[..j] else log
    {
    }
  }

  lemma AnsweredMore(log: seq<Mark>, m: Mark)
    ensures m == Cleared || (!m.Asked? && AllAnswered(log)) ==> AllAnswered(log + [m])
  {
    var log' := log + [m];
    if m == Cleared {
      assert log'[|log|] == Cleared;
    } else if !m.Asked? && AllAnswered(log) {
      forall i | 0 <= i < |log'| && log'[i].Asked?
        ensures exists k :: i < k < |log'| && log'[k] == Cleared
      {
        var k :| i < k < |log| && log[k] == Cleared;
        assert log'[k] == Cleared;
      }
    }
  }

  lemma GetsMore(log: seq<Mark>, m: Mark)
    ensures m == Asked(Get) || (!m.Asked? && GetAskedLast(log)) ==> GetAskedLast(log + [m])
    ensures !m.Asked? && GetAnswered(log) ==> GetAnswered(log + [m])
    ensures m == GetAccepted && GetAskedLast(log) ==> GetAnswered(log + [m])
  {
    var log' := log + [m];
    if m == Asked(Get) {
      assert log'[|log|] == m && NoRequestAfter(log', |log|);
    }
    if !m.Asked? && GetAskedLast(log) {
      var a :| 0 <= a < |log| && log[a] == Asked(Get) && NoRequestAfter(log, a);
      assert log'[a] == Asked(Get) && NoRequestAfter(log', a);
      if m == GetAccepted { assert log'[|log|] == GetAccepted; }
    }
    if !m.Asked? && GetAnswered(log) {
      var a, b :| 0 <= a < b < |log| && log[a] == Asked(Get) && log[b] == GetAccepted && NoRequestAfter(log, a);
      assert log'[a] == Asked(Get) && log'[b] == GetAccepted && NoRequestAfter(log', a);
    }
  }

  // ---- Order: one request at a time, and no end without a get ----

  ghost predicate Matches(w: WaitSt, c: CfgSt) {
    match w
    case WaitIdle => true
    case CheckWait => c == CfgIdle || c == CheckResp
    case GetWait => c == CfgIdle || c == GetResp
    case EndWait => c == CfgIdle || c == CfgEnd
  }

  ghost predicate OrderInv(w: WaitSt, c: CfgSt, log: seq<Mark>) {
    && Ordered(log)
    && Matches(w, c)
    && (w == WaitIdle ==> AllAnswered(log))
    && (w == GetWait ==> GetAskedLast(log))
    && (w == WaitIdle && c in {GetResp, CfgEnd} ==> GetAnswered(log))
  }

  ghost predicate InOrder(s: State) {
    OrderInv(s.ctl.waitSt, s.ctl.cfgSt, s.log)
  }

  /** A mark that is no request keeps the order. */
  lemma MarkKeepsOrder(w: WaitSt, c: CfgSt, log: seq<Mark>, m: Mark)
    requires OrderInv(w, c, log) && !m.Asked?
    ensures OrderInv(w, c, log + [m])
  {
    OrderedMore(log, m);
    AnsweredMore(log, m);
    GetsMore(log, m);
  }

  /** So does the end of a wait that leaves the stage idle, or that of a check, or that of a get
      whose response was accepted. */
  lemma ClearKeepsOrder(w: WaitSt, c: CfgSt, log: seq<Mark>)
    requires OrderInv(w, c, log) && (w == EndWait ==> c == CfgIdle)
    requires w == GetWait && c != CfgIdle ==> GetAnswered(log)
    ensures OrderInv(WaitIdle, c, log + [Cleared])
  {
    OrderedMore(log, Cleared);
    AnsweredMore(log, Cleared);
    GetsMore(log, Cleared);
  }

  lemma GiveUpKeepsOrder(s: State)
    requires InOrder(s)
    ensures InOrder(GiveUp(s))
  {
    if s.ctl.waitSt != WaitIdle {
      ClearKeepsOrder(s.ctl.waitSt, CfgIdle, s.log);
    }
  }

  lemma AcceptKeepsOrder(c: CfgSt, log: seq<Mark>)
    requires OrderInv(GetWait, c, log)
    ensures OrderInv(WaitIdle, c, log + [GetAccepted] + [Cleared])
  {
    GetsMore(log, GetAccepted);
    MarkKeepsOrder(GetWait, c, log, GetAccepted);
    ClearKeepsOrder(GetWait, c, log + [GetAccepted]);
  }

  lemma AnswerKeepsOrder(s: State, msg: Msg)
    requires InOrder(s) && (msg.CheckAnswer? || msg.GetAnswer?)
    ensures InOrder(Receive(s, msg))
  {
    var w, c, t := s.ctl.waitSt, s.ctl.cfgSt, Receive(s, msg);
    if msg.CheckAnswer? && w == CheckWait {
      ClearKeepsOrder(w, c, s.log);
      assert t.log == s.log + [Cleared] && t.ctl.waitSt == WaitIdle && t.ctl.cfgSt == c;
    } else if msg.GetAnswer? && w == GetWait {
      AcceptKeepsOrder(c, s.log);
      assert t.log == s.log + [GetAccepted] + [Cleared] && t.ctl.waitSt == WaitIdle && t.ctl.cfgSt == c;
    } else {
      assert t.log == s.log && t.ctl == s.ctl;
    }
  }

  lemma ReceiveKeepsOrder(s: State, msg: Msg)
    requires InOrder(s)
    ensures InOrder(Receive(s, msg))
  {
    match msg
    case NoMsg =>
    case CheckAnswer(_, _) => AnswerKeepsOrder(s, msg);
    case GetAnswer(_, _) => AnswerKeepsOrder(s, msg);
    case ConnRequest => GiveUpKeepsOrder(s);
    case ReadRequest => MarkKeepsOrder(s.ctl.waitSt, s.ctl.cfgSt, s.log, Reloaded);
  }

  lemma AskKeepsOrder(s: State, kind: Kind, now: nat)
    requires InOrder(s) && s.ctl.waitSt == WaitIdle && (kind == End ==> GetAnswered(s.log))
    ensures InOrder(Ask(s, kind, now))
  {
    OrderedMore(s.log, Asked(kind));
    GetsMore(s.log, Asked(kind));
  }

  lemma ActKeepsOrder(s: State, now: nat)
    requires InOrder(s) && s.ctl.waitSt == WaitIdle
    ensures InOrder(Act(s, now))
  {
    match s.ctl.cfgSt
    case CfgIdle =>
    case CheckReq => AskKeepsOrder(s.(checkVersion := s.flash.config.version), Check, now);
    case CheckResp =>
    case GetReq => AskKeepsOrder(s.(getResp := GetData(0, NoBlocks)), Get, now);
    case GetResp =>
    case CfgEnd => EndKeepsOrder(s, now);
  }

  lemma EndKeepsOrder(s: State, now: nat)
    requires InOrder(s) && s.ctl.waitSt == WaitIdle && s.ctl.cfgSt == CfgEnd
    ensures InOrder(Ask(MergeStep(s), End, now))
  {
    MarkKeepsOrder(WaitIdle, CfgEnd, s.log, Merged(MergedConfig(s)));
    AskKeepsOrder(MergeStep(s), End, now);
  }

  lemma MainKeepsOrder(s: State, e: Env)
    requires InOrder(s)
    ensures InOrder(MainStep(s, e))
  {
    if e.kl15 {
      if e.open {
        var r := Receive(s, e.msg);
        ReceiveKeepsOrder(s, e.msg);
        if r.ctl.waitSt != WaitIdle {
          GiveUpKeepsOrder(r);
        } else {
          MarkKeepsOrder(WaitIdle, r.ctl.cfgSt, r.log, Triggered);
          ActKeepsOrder(Activate(r, e), e.t1);
        }
      } else {
        GiveUpKeepsOrder(s);
      }
    }
  }

  lemma CallbackKeepsOrder(s: State, sent: Sent, res: TxResult, now: nat)
    requires InOrder(s)
    ensures InOrder(CallbackStep(s, sent, res, now))
  {
    var w, c := s.ctl.waitSt, s.ctl.cfgSt;
    match sent
    case SentConnResp => MarkKeepsOrder(w, c, s.log, Triggered);
    case SentReadResp =>
    case SentCheck => GiveUpKeepsOrder(s);
    case SentGet => GiveUpKeepsOrder(s);
    case SentEnd =>
      MarkKeepsOrder(w, c, s.log, Committed(s.work));
      GiveUpKeepsOrder(if res == TxSuccess && s.ctl.cfgsuccess then Commit(s) else s);
  }

  lemma StepKeepsOrder(s: State, e: Event)
    requires InOrder(s)
    ensures InOrder(Step(s, e))
  {
    var w, c := s.ctl.waitSt, s.ctl.cfgSt;
    match e
    case Main(env) => MainKeepsOrder(s, env);
    case SendCb(sent, res, now) => CallbackKeepsOrder(s, sent, res, now);
    case SetCfgReq(_, _) => MarkKeepsOrder(w, c, s.log, Triggered);
    case AskAddress => MarkKeepsOrder(w, c, s.log, Reloaded);
  }

  // ---- Content: a commit stores what was merged ----

  /** The configuration merged last, unless the working copy was reloaded since. */
  function Pending(log: seq<Mark>): Option<Config> {
    if log == [] then None
    else match log[|log| - 1]
      case Merged(c) => Some(c)
      case Reloaded => None
      case _ => Pending(log[..|log| - 1])
  }

  /** What flash holds after the commits of the log. */
  function Saved(log: seq<Mark>, initial: Flash): Flash {
    if log == [] then initial
    else match log[|log| - 1]
      case Committed(c) => Flash(1, c)
      case _ => Saved(log[..|log| - 1], initial)
  }

  ghost predicate CommitsMerged(log: seq<Mark>) {
    forall j {:trigger log[..j]} :: 0 <= j < |log| && log[j].Committed? && Pending(log[..j]).Some? ==>
      log[j].config == Pending(log[..j]).value
  }

  function Merges(log: seq<Mark>): nat {
    if log == [] then 0 else Merges(log[..|log| - 1]) + if log[|log| - 1].Merged? then 1 else 0
  }

  function Commits(log: seq<Mark>): nat {
    if log == [] then 0 else Commits(log[..|log| - 1]) + if log[|log| - 1].Committed? then 1 else 0
  }

  ghost predicate ContentInv(log: seq<Mark>, work: Config, flash: Flash, success: bool, initial: Flash) {
    && CommitsMerged(log)
    && (Pending(log).Some? ==> work == Pending(log).value)
    && flash == Saved(log, initial)
    && Commits(log) + (if success then 1 else 0) <= Merges(log)
  }

  ghost predicate Contents(s: State, initial: Flash) {
    ContentInv(s.log, s.work, s.flash, s.ctl.cfgsuccess, initial)
  }

  lemma ContentMore(log: seq<Mark>, m: Mark, initial: Flash)
    requires CommitsMerged(log) && (m.Committed? && Pending(log).Some? ==> m.config == Pending(log).value)
    ensures CommitsMerged(log + [m])
    ensures Pending(log + [m]) == match m case Merged(c) => Some(c) case Reloaded => None case _ => Pending(log)
    ensures Saved(log + [m], initial) == if m.Committed? then Flash(1, m.config) else Saved(log, initial)
    ensures Merges(log + [m]) == Merges(log) + if m.Merged? then 1 else 0
    ensures Commits(log + [m]) == Commits(log) + if m.Committed? then 1 else 0
  {
    var log' := log + [m];
    assert log'[..|log|] == log;
    forall j | 0 <= j < |log'|
      ensures log'[..j] == if j < |log| then log[..j] else log
    {
    }
  }

  /** The marks that are about neither the working copy nor flash. */
  predicate Neutral(m: Mark) {
    m.Triggered? || m.Asked? || m.GetAccepted? || m.Cleared?
  }

  lemma NeutralKeepsContent(log: seq<Mark>, work: Config, flash: Flash, success: bool, m: Mark, initial: Flash)
    requires ContentInv(log, work, flash, success, initial) && Neutral(m)
    ensures ContentInv(log + [m], work, flash, success, initial)
    ensures ContentInv(log + [m], work, flash, false, initial)
  {
    ContentMore(log, m, initial);
  }

  lemma ReloadKeepsContent(log: seq<Mark>, work: Config, flash: Flash, success: bool, work': Config, initial: Flash)
    requires ContentInv(log, work, flash, success, initial)
    ensures ContentInv(log + [Reloaded], work', flash, success, initial)
  {
    ContentMore(log, Reloaded, initial);
  }

  lemma ClearKeepsContent(s: State, initial: Flash)
    requires Contents(s, initial)
    ensures Contents(Clear(s), initial)
  {
    NeutralKeepsContent(s.log, s.work, s.flash, s.ctl.cfgsuccess, Cleared, initial);
  }

  lemma GiveUpKeepsContent(s: State, initial: Flash)
    requires Contents(s, initial)
    ensures Contents(Clear(s), initial) && Contents(GiveUp(s), initial) && Contents(Reset(s), initial)
  {
    NeutralKeepsContent(s.log, s.work, s.flash, s.ctl.cfgsuccess, Cleared, initial);
  }

  lemma ReceiveKeepsContent(s: State, msg: Msg, initial: Flash)
    requires Contents(s, initial)
    ensures Contents(Receive(s, msg), initial)
  {
    match msg
    case NoMsg =>
    case CheckAnswer(_, _) => AnswerKeepsContent(s, msg, initial);
    case GetAnswer(_, _) => AnswerKeepsContent(s, msg, initial);
    case ConnRequest => GiveUpKeepsContent(s, initial);
    case ReadRequest => ReloadKeepsContent(s.log, s.work, s.flash, s.ctl.cfgsuccess, LoadLocal(s).work, initial);
  }

  /** An answer touches neither the working copy nor flash. */
  lemma AnswerOutcome(s: State, msg: Msg)
    requires msg.CheckAnswer? || msg.GetAnswer?
    ensures var t := Receive(s, msg);
      && t.work == s.work && t.flash == s.flash && t.ctl.cfgsuccess == s.ctl.cfgsuccess
      && (t.log == s.log || t.log == s.log + [Cleared] || t.log == s.log + [GetAccepted] + [Cleared])
  {
  }

  lemma AnswerKeepsContent(s: State, msg: Msg, initial: Flash)
    requires Contents(s, initial) && (msg.CheckAnswer? || msg.GetAnswer?)
    ensures Contents(Receive(s, msg), initial)
  {
    AnswerOutcome(s, msg);
    NeutralKeepsContent(s.log, s.work, s.flash, s.ctl.cfgsuccess, Cleared, initial);
    NeutralKeepsContent(s.log, s.work, s.flash, s.ctl.cfgsuccess, GetAccepted, initial);
    NeutralKeepsContent(s.log + [GetAccepted], s.work, s.flash, s.ctl.cfgsuccess, Cleared, initial);
  }

  lemma AskKeepsContent(s: State, kind: Kind, now: nat, initial: Flash)
    requires Contents(s, initial)
    ensures Contents(Ask(s, kind, now), initial)
  {
    NeutralKeepsContent(s.log, s.work, s.flash, s.ctl.cfgsuccess, Asked(kind), initial);
  }

  lemma EndKeepsContent(s: State, now: nat, initial: Flash)
    requires Contents(s, initial)
    ensures Contents(Ask(MergeStep(s), End, now), initial)
  {
    ContentMore(s.log, Merged(MergedConfig(s)), initial);
    AskKeepsContent(MergeStep(s), End, now, initial);
  }

  /** The invariant is about nothing else. */
  lemma SameContents(s: State, t: State, initial: Flash)
    requires Contents(s, initial)
    requires t.log == s.log && t.work == s.work && t.flash == s.flash && t.ctl.cfgsuccess == s.ctl.cfgsuccess
    ensures Contents(t, initial)
  {
  }

  /** What the idle step leaves alone. */
  lemma IdleOutcome(s: State, now: nat)
    requires s.ctl.cfgSt == CfgIdle
    ensures var t := IdleStep(s, now);
      && t.log == (if t.ctl.cfgSt == CheckReq then Clear(s).log else s.log)
      && t.work == s.work && t.flash == s.flash && t.ctl.cfgsuccess == s.ctl.cfgsuccess
      && Due(t.ctl) <= Due(s.ctl)
  {
  }

  lemma IdleKeepsContent(s: State, now: nat, initial: Flash)
    requires Contents(s, initial) && s.ctl.cfgSt == CfgIdle
    ensures Contents(IdleStep(s, now), initial)
  {
    var t := IdleStep(s, now);
    IdleOutcome(s, now);
    if t.ctl.cfgSt == CheckReq {
      ClearKeepsContent(s, initial);
      SameContents(Clear(s), t, initial);
    } else {
      SameContents(s, t, initial);
    }
  }

  lemma ActKeepsContent(s: State, now: nat, initial: Flash)
    requires Contents(s, initial)
    ensures Contents(Act(s, now), initial)
  {
    match s.ctl.cfgSt
    case CfgIdle => IdleKeepsContent(s, now, initial);
    case CheckReq => AskKeepsContent(s.(checkVersion := s.flash.config.version), Check, now, initial);
    case CheckResp => GiveUpKeepsContent(s, initial);
    case GetReq => AskKeepsContent(s.(getResp := GetData(0, NoBlocks)), Get, now, initial);
    case GetResp =>
    case CfgEnd => EndKeepsContent(s, now, initial);
  }

  lemma MainKeepsContent(s: State, e: Env, initial: Flash)
    requires Contents(s, initial)
    ensures Contents(MainStep(s, e), initial)
  {
    if e.kl15 {
      if e.open {
        var r := Receive(s, e.msg);
        ReceiveKeepsContent(s, e.msg, initial);
        if r.ctl.waitSt != WaitIdle {
          GiveUpKeepsContent(r, initial);
        } else {
          NeutralKeepsContent(r.log, r.work, r.flash, r.ctl.cfgsuccess, Triggered, initial);
          ActKeepsContent(Activate(r, e), e.t1, initial);
        }
      } else {
        GiveUpKeepsContent(s, initial);
      }
    }
  }

  lemma CommitKeepsContent(s: State, initial: Flash)
    requires Contents(s, initial) && s.ctl.cfgsuccess
    ensures Contents(Commit(s), initial)
  {
    ContentMore(s.log, Committed(s.work), initial);
  }

  lemma StepKeepsContent(s: State, e: Event, initial: Flash)
    requires Contents(s, initial)
    ensures Contents(Step(s, e), initial)
  {
    match e
    case Main(env) => MainKeepsContent(s, env, initial);
    case SendCb(sent, res, _) =>
      if sent == SentConnResp {
        NeutralKeepsContent(s.log, s.work, s.flash, s.ctl.cfgsuccess, Triggered, initial);
      } else if sent == SentEnd && res == TxSuccess && s.ctl.cfgsuccess {
        CommitKeepsContent(s, initial);
        GiveUpKeepsContent(Commit(s), initial);
      } else {
        GiveUpKeepsContent(s, initial);
      }
    case SetCfgReq(_, _) => NeutralKeepsContent(s.log, s.work, s.flash, s.ctl.cfgsuccess, Triggered, initial);
    case AskAddress => ReloadKeepsContent(s.log, s.work, s.flash, s.ctl.cfgsuccess, Step(s, e).work, initial);
  }

  // ---- Count: no check request without a trigger of its own ----

  function Triggers(log: seq<Mark>): nat {
    if log == [] then 0 else Triggers(log[..|log| - 1]) + if log[|log| - 1].Triggered? then 1 else 0
  }

  function Checks(log: seq<Mark>): nat {
    if log == [] then 0 else Checks(log[..|log| - 1]) + if log[|log| - 1] == Asked(Check) then 1 else 0
  }

  /** The stage that a trigger has brought about, and the request that it will. */
  function Due(c: Ctl): nat {
    (if c.cfgSt == CheckReq then 1 else 0) + (if c.req == 1 && c.reqCnt == 0 then 1 else 0)
  }

  ghost predicate CountInv(log: seq<Mark>, due: nat) {
    Checks(log) + due <= Triggers(log)
  }

  ghost predicate Counted(s: State) {
    CountInv(s.log, Due(s.ctl))
  }

  lemma CountMore(log: seq<Mark>, m: Mark, due: nat, due': nat)
    requires CountInv(log, due)
    requires due' + (if m == Asked(Check) then 1 else 0) <= due + if m == Triggered then 1 else 0
    ensures CountInv(log + [m], due')
  {
    assert (log + [m])[..|log|] == log;
  }

  lemma GiveUpKeepsCount(s: State)
    requires Counted(s)
    ensures Counted(Clear(s)) && Counted(GiveUp(s))
  {
    CountMore(s.log, Cleared, Due(s.ctl), Due(s.ctl));
  }

  lemma AcceptKeepsCount(log: seq<Mark>, due: nat)
    requires CountInv(log, due)
    ensures CountInv(log + [GetAccepted] + [Cleared], due)
  {
    CountMore(log, GetAccepted, due, due);
    CountMore(log + [GetAccepted], Cleared, due, due);
  }

  lemma AnswerKeepsCount(s: State, msg: Msg)
    requires Counted(s) && (msg.CheckAnswer? || msg.GetAnswer?)
    ensures Counted(Receive(s, msg))
  {
    var w, t := s.ctl.waitSt, Receive(s, msg);
    assert Due(t.ctl) == Due(s.ctl);
    if msg.CheckAnswer? && w == CheckWait {
      CountMore(s.log, Cleared, Due(s.ctl), Due(s.ctl));
      assert t.log == s.log + [Cleared];
    } else if msg.GetAnswer? && w == GetWait {
      AcceptKeepsCount(s.log, Due(s.ctl));
      assert t.log == s.log + [GetAccepted] + [Cleared];
    } else {
      assert t.log == s.log;
    }
  }

  lemma ReceiveKeepsCount(s: State, msg: Msg)
    requires Counted(s)
    ensures Counted(Receive(s, msg))
  {
    match msg
    case NoMsg =>
    case CheckAnswer(_, _) => AnswerKeepsCount(s, msg);
    case GetAnswer(_, _) => AnswerKeepsCount(s, msg);
    case ConnRequest => GiveUpKeepsCount(s);
    case ReadRequest => CountMore(s.log, Reloaded, Due(s.ctl), Due(s.ctl));
  }

  lemma AskKeepsCount(s: State, kind: Kind, now: nat)
    requires Counted(s) && (kind == Check ==> s.ctl.cfgSt == CheckReq)
    ensures Counted(Ask(s, kind, now))
  {
    CountMore(s.log, Asked(kind), Due(s.ctl), Due(Ask(s, kind, now).ctl));
  }

  lemma EndKeepsCount(s: State, now: nat)
    requires Counted(s)
    ensures Counted(Ask(MergeStep(s), End, now))
  {
    CountMore(s.log, Merged(MergedConfig(s)), Due(s.ctl), Due(s.ctl));
    AskKeepsCount(MergeStep(s), End, now);
  }

  lemma IdleKeepsCount(s: State, now: nat)
    requires Counted(s) && s.ctl.cfgSt == CfgIdle
    ensures Counted(IdleStep(s, now))
  {
    IdleOutcome(s, now);
    CountMore(s.log, Cleared, Due(s.ctl), Due(IdleStep(s, now).ctl));
  }

  lemma ActKeepsCount(s: State, now: nat)
    requires Counted(s)
    ensures Counted(Act(s, now))
  {
    match s.ctl.cfgSt
    case CfgIdle => IdleKeepsCount(s, now);
    case CheckReq => AskKeepsCount(s.(checkVersion := s.flash.config.version), Check, now);
    case CheckResp => GiveUpKeepsCount(s);
    case GetReq => AskKeepsCount(s.(getResp := GetData(0, NoBlocks)), Get, now);
    case GetResp =>
    case CfgEnd => EndKeepsCount(s, now);
  }

  lemma MainKeepsCount(s: State, e: Env)
    requires Counted(s)
    ensures Counted(MainStep(s, e))
  {
    if e.kl15 {
      if e.open {
        var r := Receive(s, e.msg);
        ReceiveKeepsCount(s, e.msg);
        if r.ctl.waitSt != WaitIdle {
          GiveUpKeepsCount(r);
        } else {
          CountMore(r.log, Triggered, Due(r.ctl), Due(Activate(r, e).ctl));
          ActKeepsCount(Activate(r, e), e.t1);
        }
      } else {
        GiveUpKeepsCount(s);
      }
    }
  }

  lemma StepKeepsCount(s: State, e: Event)
    requires Counted(s)
    ensures Counted(Step(s, e))
  {
    var due, due' := Due(s.ctl), Due(Step(s, e).ctl);
    match e
    case Main(env) => MainKeepsCount(s, env);
    case SendCb(sent, res, _) =>
      if sent == SentConnResp {
        if res == TxSuccess { CountMore(s.log, Triggered, due, due'); }
      } else if sent == SentEnd && res == TxSuccess && s.ctl.cfgsuccess {
        CountMore(s.log, Committed(s.work), due, due);
        GiveUpKeepsCount(Commit(s));
      } else {
        GiveUpKeepsCount(s);
      }
    case SetCfgReq(req, _) => if req == 1 { CountMore(s.log, Triggered, due, due'); }
    case AskAddress => CountMore(s.log, Reloaded, due, due);
  }

  // ---- Every run ----

  ghost predicate Inv(s: State, initial: Flash) {
    InOrder(s) && Contents(s, initial) && Counted(s)
  }

  lemma {:induction false} RunKeepsInv(s: State, es: seq<Event>, initial: Flash)
    requires Inv(s, initial)
    ensures Inv(Run(s, es), initial)
    decreases |es|
  {
    if es != [] {
      StepKeepsOrder(s, es[0]);
      StepKeepsContent(s, es[0], initial);
      StepKeepsCount(s, es[0]);
      RunKeepsInv(Step(s, es[0]), es[1..], initial);
    }
  }

  /** From switching on, with any messages, callbacks, resets and timeouts: one request at a time,
      an end request only after a get request and its accepted response, no more check requests
      than triggers, no more commits than merges, and flash holds what was committed last, which
      is the configuration merged last unless the working copy was reloaded since. */
  lemma EveryRun(flash: Flash, zeros: seq<nat>, es: seq<Event>)
    ensures var s := Run(Start(flash, zeros), es);
      && OneAtATime(s.log) && EndsFollowGets(s.log) && CommitsMerged(s.log)
      && s.flash == Saved(s.log, flash)
      && Commits(s.log) <= Merges(s.log) && Checks(s.log) <= Triggers(s.log)
  {
    RunKeepsInv(Start(flash, zeros), es, flash);
  }

  // ---- What the merge and the commit are worth ----

  /** The step that sends the end of a configuration that came. */
  ghost predicate AtMerge(s: State, e: Env) {
    s.ctl.cfgSt == CfgEnd && s.ctl.waitSt == WaitIdle && s.getResp.result == 1 && Undisturbed(e)
  }

  ghost predicate Undisturbed(e: Env) {
    e.kl15 && e.open && e.msg == NoMsg
  }

  /** The five blocks by name. */
  datatype Field = Ficm | Apn1 | Apn2 | Common | Extend

  function At(b: Blocks, x: Field): Block {
    match x
    case Ficm => b.ficm
    case Apn1 => b.apn1
    case Apn2 => b.apn2
    case Common => b.common
    case Extend => b.extend
  }

  /** Each block of `result` is the one that came when it is valid, and the old one otherwise. */
  ghost predicate Overlaid(came: Blocks, old_: Blocks, result: Blocks) {
    forall x: Field :: At(result, x) == if At(came, x).valid then At(came, x) else At(old_, x)
  }

  lemma SameBlocks(a: Blocks, b: Blocks)
    requires forall x: Field :: At(a, x) == At(b, x)
    ensures a == b
  {
    assert At(a, Ficm) == At(b, Ficm) && At(a, Apn1) == At(b, Apn1) && At(a, Apn2) == At(b, Apn2);
    assert At(a, Common) == At(b, Common) && At(a, Extend) == At(b, Extend);
  }

  lemma MergeOverlays(came: Blocks, old_: Blocks)
    ensures Overlaid(came, old_, Merge(came, old_))
  {
    forall x: Field
      ensures At(Merge(came, old_), x) == if At(came, x).valid then At(came, x) else At(old_, x)
    {
      match x
      case Ficm =>
      case Apn1 =>
      case Apn2 =>
      case Common =>
      case Extend =>
    }
  }

  lemma AfterMerge(s: State, e: Env)
    requires AtMerge(s, e)
    ensures var a := MainStep(s, e);
      && a.work == MergedConfig(s) && a.ctl.cfgsuccess && a.ctl.waitSt == EndWait && a.getResp.result == 0
      && a.flash == s.flash && a.checkVersion == s.checkVersion
  {
    ActivateKeeps(s, e);
    ActMerges(Activate(s, e), e.t1);
  }

  lemma ActivateKeeps(s: State, e: Env)
    ensures var a := Activate(s, e);
      && a.ctl.cfgSt == s.ctl.cfgSt && a.ctl.waitSt == s.ctl.waitSt && a.getResp == s.getResp
      && a.flash == s.flash && a.checkVersion == s.checkVersion && a.checkResp == s.checkResp
  {
  }

  lemma ActMerges(s: State, now: nat)
    requires s.ctl.cfgSt == CfgEnd && s.getResp.result == 1
    ensures var a := Act(s, now);
      && a.work == MergedConfig(s) && a.ctl.cfgsuccess && a.ctl.waitSt == EndWait && a.getResp.result == 0
      && a.flash == s.flash && a.checkVersion == s.checkVersion && a.ctl.waittime == now
  {
  }

  lemma AfterRead(s: State, r: Env)
    requires s.ctl.waitSt == EndWait && s.ctl.cfgsuccess && r.kl15 && r.open && r.msg == ReadRequest
    ensures var b := MainStep(s, r);
      b.work == Local(s.flash, s.work, s.checkVersion) && b.ctl.cfgsuccess && b.flash == s.flash
  {
  }

  lemma AfterCallback(s: State, now: nat)
    requires s.ctl.cfgsuccess
    ensures var t := CallbackStep(s, SentEnd, TxSuccess, now); t.flash == Flash(1, s.work) && t.ctl.cfgSt == CfgIdle
  {
  }

  /** A read request between the merge and the callback reloads the working copy, and the callback
      then stores that: with a stored configuration the new one is kept exactly when it is the
      stored one, and without one exactly when it has no valid block and the version last asked
      with. */
  lemma ReadBeforeCallbackKeepsMergeIff(s: State, e: Env, r: Env, now: nat)
    requires AtMerge(s, e) && r.kl15 && r.open && r.msg == ReadRequest
    ensures var t := CallbackStep(MainStep(MainStep(s, e), r), SentEnd, TxSuccess, now);
      && (s.flash.st == 1 ==> t.flash == s.flash)
      && (t.flash.config == MergedConfig(s) <==>
          if s.flash.st == 1 then MergedConfig(s) == s.flash.config
          else MergedConfig(s).version == s.checkVersion && NoneValid(MergedConfig(s).blocks))
  {
    AfterMerge(s, e);
    AfterRead(MainStep(s, e), r);
    AfterCallback(MainStep(MainStep(s, e), r), now);
    LocalKeepsIff(s.flash, MergedConfig(s), s.checkVersion);
  }

  /** An address query between the merge and the callback reloads one block of the working copy, and
      the callback then stores that block as it was: the merge is kept exactly when it did not
      change that block. */
  lemma AskBeforeCallbackKeepsMergeIff(s: State, e: Env, now: nat)
    requires AtMerge(s, e)
    ensures var t := CallbackStep(Step(MainStep(s, e), AskAddress), SentEnd, TxSuccess, now);
      && t.flash.config.blocks.apn1 == s.flash.config.blocks.apn1
      && (t.flash.config == MergedConfig(s) <==> MergedConfig(s).blocks.apn1 == s.flash.config.blocks.apn1)
  {
    AfterMerge(s, e);
    var a := Step(MainStep(s, e), AskAddress);
    assert a.work == MergedConfig(s).(blocks := MergedConfig(s).blocks.(apn1 := s.flash.config.blocks.apn1));
    AfterCallback(a, now);
  }

  lemma LocalKeepsIff(flash: Flash, work: Config, checkVersion: seq<nat>)
    ensures Local(flash, work, checkVersion) == work <==>
      if flash.st == 1 then work == flash.config else work.version == checkVersion && NoneValid(work.blocks)
  {
  }

  predicate NoneValid(b: Blocks) {
    !b.ficm.valid && !b.apn1.valid && !b.apn2.valid && !b.common.valid && !b.extend.valid
  }

  lemma CheckReceived(s: State, msg: Msg)
    requires s.ctl.waitSt == CheckWait && msg.CheckAnswer? && msg.needUpdate == 1 && msg.version.Some?
    ensures var r := Receive(s, msg);
      && r.ctl == s.ctl.(waitSt := WaitIdle, needUpdata := true) && r.checkResp.needUpdate == 0
      && r.checkResp.version == msg.version.value && r.flash == s.flash
  {
  }

  /** The call that receives the awaited check answer. */
  lemma CheckAnswered(s: State, e: Env)
    requires s.ctl.cfgSt == CheckResp && s.ctl.waitSt == CheckWait && s.ctl.active
    requires e.kl15 && e.open && e.msg.CheckAnswer? && e.msg.needUpdate == 1 && e.msg.version.Some?
    ensures var t := MainStep(s, e);
      && t.ctl.cfgSt == GetReq && t.ctl.waitSt == WaitIdle && t.ctl.active && !t.ctl.needUpdata
      && t.checkResp.version == e.msg.version.value && t.flash == s.flash
  {
    CheckReceived(s, e.msg);
  }

  /** Told not to update, the module is back in idle with its request dropped, and the configuration is not
      asked for. */
  lemma ToldNotToUpdate(s: State, e: Env)
    requires s.ctl.cfgSt == CheckResp && s.ctl.waitSt == CheckWait && s.ctl.active && !s.ctl.needUpdata
    requires e.kl15 && e.open && e.msg.CheckAnswer? && e.msg.needUpdate != 1
    ensures var t := MainStep(s, e);
      && t.ctl.cfgSt == CfgIdle && t.ctl.waitSt == WaitIdle && t.ctl.req == 0 && t.ctl.reqCnt == 0
      && t.flash == s.flash && t.work == s.work && t.log == s.log + [Cleared]
  {
  }

  lemma GetReceived(s: State, msg: Msg)
    requires s.ctl.waitSt == GetWait && msg.GetAnswer?
    ensures var r := Receive(s, msg);
      && r.ctl == s.ctl.(waitSt := WaitIdle)
      && r.getResp == GetData(msg.result, Merge(msg.blocks, s.getResp.blocks))
      && r.checkResp == s.checkResp && r.flash == s.flash
  {
  }

  /** The call that receives the awaited get answer. */
  lemma GetIsAnswered(s: State, e: Env)
    requires s.ctl.cfgSt == GetResp && s.ctl.waitSt == GetWait && s.ctl.active
    requires e.kl15 && e.open && e.msg.GetAnswer?
    ensures var t := MainStep(s, e);
      && t.ctl.cfgSt == CfgEnd && t.ctl.waitSt == WaitIdle && t.ctl.active
      && t.getResp == GetData(e.msg.result, Merge(e.msg.blocks, s.getResp.blocks))
      && t.checkResp == s.checkResp && t.flash == s.flash && t.ctl.cfgsuccess == s.ctl.cfgsuccess
  {
    GetReceived(s, e.msg);
  }

  lemma Asks(s: State, e: Env)
    requires s.ctl.waitSt == WaitIdle && s.ctl.active && s.ctl.cfgSt in {CheckReq, GetReq} && Undisturbed(e)
    ensures var t := MainStep(s, e);
      && t.ctl.active && t.flash == s.flash && t.checkResp == s.checkResp && t.ctl.waittime == e.t1
      && t.ctl.cfgsuccess == s.ctl.cfgsuccess
      && (s.ctl.cfgSt == CheckReq ==>
            t.ctl.cfgSt == CheckResp && t.ctl.waitSt == CheckWait && t.checkVersion == s.flash.config.version)
      && (s.ctl.cfgSt == GetReq ==>
            t.ctl.cfgSt == GetResp && t.ctl.waitSt == GetWait && t.getResp.blocks == NoBlocks && t.getResp.result == 0)
  {
  }

  lemma MergeOverNone(got: Blocks, old_: Blocks)
    ensures Merge(Merge(got, NoBlocks), old_) == Merge(got, old_)
  {
  }

  /** The calls of the main function, one after the other. */
  function CallAll(s: State, es: seq<Env>): State
    decreases |es|
  {
    if es == [] then s else CallAll(MainStep(s, es[0]), es[1..])
  }

  /** Calls in which nothing comes, within the five seconds from `since` on. */
  ghost predicate Waiting(es: seq<Env>, since: nat) {
    forall i {:trigger es[i]} :: 0 <= i < |es| ==>
      Undisturbed(es[i]) && Elapsed(es[i].t0, since) <= PP_RMTCFG_WAIT_TIMEOUT
  }

  /** Any number of them changes nothing. */
  lemma {:induction false} WaitsQuietly(s: State, es: seq<Env>)
    requires s.ctl.waitSt != WaitIdle && Waiting(es, s.ctl.waittime)
    ensures CallAll(s, es) == s
    decreases |es|
  {
    if es != [] {
      assert MainStep(s, es[0]) == s;
      WaitsQuietly(s, es[1..]);
    }
  }

  /** The check, from its request to the call that is told to update. */
  function CheckCalls(s: State, ask: Env, wait: seq<Env>, answer: Env): State {
    MainStep(CallAll(MainStep(s, ask), wait), answer)
  }

  lemma CheckTells(s: State, ask: Env, wait: seq<Env>, answer: Env)
    requires s.ctl.cfgSt == CheckReq && s.ctl.waitSt == WaitIdle && s.ctl.active
    requires Undisturbed(ask) && Waiting(wait, ask.t1)
    requires answer.kl15 && answer.open && answer.msg.CheckAnswer?
    requires answer.msg.needUpdate == 1 && answer.msg.version.Some?
    ensures var t := CheckCalls(s, ask, wait, answer);
      && t.ctl.cfgSt == GetReq && t.ctl.waitSt == WaitIdle && t.ctl.active
      && t.checkResp.version == answer.msg.version.value && t.flash == s.flash
  {
    Asks(s, ask);
    WaitsQuietly(MainStep(s, ask), wait);
    CheckAnswered(MainStep(s, ask), answer);
  }

  lemma GetBrings(s: State, ask: Env, wait: seq<Env>, answer: Env)
    requires s.ctl.cfgSt == GetReq && s.ctl.waitSt == WaitIdle && s.ctl.active
    requires Undisturbed(ask) && Waiting(wait, ask.t1)
    requires answer.kl15 && answer.open && answer.msg.GetAnswer? && answer.msg.result == 1
    ensures var t := CheckCalls(s, ask, wait, answer);
      && t.ctl.cfgSt == CfgEnd && t.ctl.waitSt == WaitIdle && t.getResp.result == 1
      && MergedConfig(t) == Config(s.checkResp.version, Merge(answer.msg.blocks, s.flash.config.blocks))
      && t.flash == s.flash
  {
    Asks(s, ask);
    WaitsQuietly(MainStep(s, ask), wait);
    GetIsAnswered(MainStep(s, ask), answer);
    MergeOverNone(answer.msg.blocks, s.flash.config.blocks);
  }

  /** Sent a result other than 1, the module reports the end all the same but stores nothing, unless an earlier
      merge is still to be stored. */
  lemma ResultIsRefused(s: State, ask: Env, wait: seq<Env>, answer: Env, end: Env, wait3: seq<Env>, res: TxResult,
                        now: nat)
    requires s.ctl.cfgSt == GetReq && s.ctl.waitSt == WaitIdle && s.ctl.active && !s.ctl.cfgsuccess
    requires Undisturbed(ask) && Waiting(wait, ask.t1) && Undisturbed(end) && Waiting(wait3, end.t1)
    requires answer.kl15 && answer.open && answer.msg.GetAnswer? && answer.msg.result != 1
    ensures var t := CallAll(MainStep(CheckCalls(s, ask, wait, answer), end), wait3);
      && t.ctl.waitSt == EndWait && !t.ctl.cfgsuccess
      && CallbackStep(t, SentEnd, res, now).flash == s.flash
      && CallbackStep(t, SentEnd, res, now).ctl.cfgSt == CfgIdle
  {
    Asks(s, ask);
    WaitsQuietly(MainStep(s, ask), wait);
    GetIsAnswered(MainStep(s, ask), answer);
    EndIsAsked(CheckCalls(s, ask, wait, answer), end);
    WaitsQuietly(MainStep(CheckCalls(s, ask, wait, answer), end), wait3);
  }

  lemma EndIsAsked(s: State, e: Env)
    requires s.ctl.cfgSt == CfgEnd && s.ctl.waitSt == WaitIdle && s.ctl.active && s.getResp.result != 1
    requires Undisturbed(e)
    ensures var t := MainStep(s, e);
      && t.ctl.waitSt == EndWait && t.ctl.waittime == e.t1 && t.ctl.cfgsuccess == s.ctl.cfgsuccess && t.flash == s.flash
  {
  }

  lemma MergeIsCommitted(s: State, e: Env, wait: seq<Env>, now: nat)
    requires AtMerge(s, e) && Waiting(wait, e.t1)
    ensures CallbackStep(CallAll(MainStep(s, e), wait), SentEnd, TxSuccess, now).flash == Flash(1, MergedConfig(s))
  {
    AfterMerge(s, e);
    WaitsQuietly(MainStep(s, e), wait);
    AfterCallback(MainStep(s, e), now);
  }

  /** A whole cycle, however many calls each answer takes within its five seconds: asked, told to
      update, sent the settings and acknowledged, the module holds in flash the announced version
      and each valid block that was sent, the others as they were. */
  lemma CycleStores(s: State, check: Env, wait1: seq<Env>, told: Env, get: Env, wait2: seq<Env>, sent: Env,
                    end: Env, wait3: seq<Env>, now: nat)
    requires s.ctl.cfgSt == CheckReq && s.ctl.waitSt == WaitIdle && s.ctl.active
    requires Undisturbed(check) && Waiting(wait1, check.t1)
    requires told.kl15 && told.open && told.msg.CheckAnswer? && told.msg.needUpdate == 1 && told.msg.version.Some?
    requires Undisturbed(get) && Waiting(wait2, get.t1)
    requires sent.kl15 && sent.open && sent.msg.GetAnswer? && sent.msg.result == 1
    requires Undisturbed(end) && Waiting(wait3, end.t1)
    ensures var merged := CheckCalls(CheckCalls(s, check, wait1, told), get, wait2, sent);
      var f := CallbackStep(CallAll(MainStep(merged, end), wait3), SentEnd, TxSuccess, now).flash;
      && f.st == 1 && f.config.version == told.msg.version.value
      && forall x: Field :: At(f.config.blocks, x)
           == if At(sent.msg.blocks, x).valid then At(sent.msg.blocks, x) else At(s.flash.config.blocks, x)
  {
    MergeOverlays(sent.msg.blocks, s.flash.config.blocks);
    CheckTells(s, check, wait1, told);
    var s2 := CheckCalls(s, check, wait1, told);
    GetBrings(s2, get, wait2, sent);
    MergeIsCommitted(CheckCalls(s2, get, wait2, sent), end, wait3, now);
  }

  // ---- The answers to a get, over runs ----

  /** The event brings this get answer to the module. */
  predicate Brings(e: Event) {
    e.Main? && e.env.kl15 && e.env.open && e.env.msg.GetAnswer?
  }

  /** The last valid block `x` of the answers that came, or `first`. */
  function LastSent(es: seq<Event>, x: Field, first: Block): Block {
    if es == [] then first
    else
      var e := es[|es| - 1];
      if Brings(e) && At(e.env.msg.blocks, x).valid then At(e.env.msg.blocks, x)
      else LastSent(es[..|es| - 1], x, first)
  }

  function Gets(log: seq<Mark>): nat {
    if log == [] then 0 else Gets(log[..|log| - 1]) + if log[|log| - 1] == Asked(Get) then 1 else 0
  }

  /** The event asks for the configuration: the call finds no wait and the stage for it. */
  predicate AsksGet(s: State, e: Event) {
    && e.Main? && e.env.kl15 && e.env.open && s.ctl.cfgSt == GetReq && !e.env.msg.ConnRequest?
    && (s.ctl.waitSt == WaitIdle || (s.ctl.waitSt == CheckWait && e.env.msg.CheckAnswer?)
        || (s.ctl.waitSt == GetWait && e.env.msg.GetAnswer?))
  }

  ghost predicate AsksNoGet(s: State, es: seq<Event>)
    decreases |es|
  {
    es == [] || (!AsksGet(s, es[0]) && AsksNoGet(Step(s, es[0]), es[1..]))
  }

  lemma AnswersOverlay(s: State, e: Event, x: Field)
    requires !AsksGet(s, e)
    ensures At(Step(s, e).getResp.blocks, x)
            == if Brings(e) && At(e.env.msg.blocks, x).valid then At(e.env.msg.blocks, x) else At(s.getResp.blocks, x)
  {
    if e.Main? && e.env.kl15 && e.env.open {
      var r := Receive(s, e.env.msg);
      ReceivedBlocks(s, e.env.msg, x);
      RestKeepsBlocks(r, e.env);
    }
  }

  lemma ReceivedBlocks(s: State, msg: Msg, x: Field)
    ensures At(Receive(s, msg).getResp.blocks, x)
            == if msg.GetAnswer? && At(msg.blocks, x).valid then At(msg.blocks, x) else At(s.getResp.blocks, x)
    ensures Receive(s, msg).ctl.cfgSt == if msg.ConnRequest? then CfgIdle else s.ctl.cfgSt
    ensures Receive(s, msg).ctl.waitSt == WaitIdle <==>
      || s.ctl.waitSt == WaitIdle || msg.ConnRequest?
      || (msg.CheckAnswer? && s.ctl.waitSt == CheckWait) || (msg.GetAnswer? && s.ctl.waitSt == GetWait)
  {
    if msg.GetAnswer? { MergeOverlays(msg.blocks, s.getResp.blocks); }
  }

  lemma RestKeepsBlocks(r: State, e: Env)
    requires r.ctl.waitSt == WaitIdle ==> r.ctl.cfgSt != GetReq
    ensures var t := if r.ctl.waitSt != WaitIdle then Await(r, e.t0) else Act(Activate(r, e), e.t1);
      t.getResp.blocks == r.getResp.blocks
  {
  }

  /** Between two requests for the configuration each block of the get response is the last valid one that
      came, however many answers came and whether or not they were awaited. */
  lemma {:induction false} LastAnswerCounts(s: State, es: seq<Event>, x: Field)
    requires AsksNoGet(s, es)
    ensures At(Run(s, es).getResp.blocks, x) == LastSent(es, x, At(s.getResp.blocks, x))
    decreases |es|
  {
    if es != [] {
      AnswersOverlay(s, es[0], x);
      LastAnswerCounts(Step(s, es[0]), es[1..], x);
      LastSentFirst(es, x, At(s.getResp.blocks, x));
    }
  }

  lemma {:induction false} LastSentFirst(es: seq<Event>, x: Field, first: Block)
    requires es != []
    ensures LastSent(es, x, first)
            == LastSent(es[1..], x, if Brings(es[0]) && At(es[0].env.msg.blocks, x).valid then
                                      At(es[0].env.msg.blocks, x)
                                    else first)
    decreases |es|
  {
    var n := |es| - 1;
    if n > 0 {
      assert es[1..][n - 1] == es[n] && es[1..][..n - 1] == es[..n][1..];
      LastSentFirst(es[..n], x, first);
    } else {
      assert es[1..] == [] && es[..0] == [];
    }
  }

  // ---- Flash, and what makes the module forget ----

  /** Flash changes only by the acknowledgement of an end while a merge is to be stored, and then holds
      the working copy; the same acknowledgement again stores nothing. */
  lemma FlashChangesIff(s: State, e: Event)
    ensures var commits := e.SendCb? && e.sent == SentEnd && e.res == TxSuccess && s.ctl.cfgsuccess;
      && Step(s, e).flash == (if commits then Flash(1, s.work) else s.flash)
      && (commits ==> !Step(s, e).ctl.cfgsuccess && Step(s, e).checkVersion == s.checkResp.version)
  {
    if e.Main? && e.env.kl15 && e.env.open { MainKeepsFlash(s, e.env); }
  }

  lemma MainKeepsFlash(s: State, e: Env)
    ensures MainStep(s, e).flash == s.flash
  {
    ReceiveKeepsFlash(s, e.msg);
    RestKeepsFlash(Receive(s, e.msg), e);
  }

  lemma ReceiveKeepsFlash(s: State, msg: Msg)
    ensures Receive(s, msg).flash == s.flash
  {
  }

  lemma RestKeepsFlash(r: State, e: Env)
    ensures Await(r, e.t0).flash == r.flash && Act(Activate(r, e), e.t1).flash == r.flash
  {
  }

  /** A closed socket makes the module forget its request and a merge, so that an acknowledgement stores
      nothing. */
  lemma ClosedSocketForgets(s: State, e: Env, res: TxResult, now: nat)
    requires e.kl15 && !e.open
    ensures var t := MainStep(s, e);
      && t.ctl.cfgSt == CfgIdle && t.ctl.waitSt == WaitIdle && t.ctl.req == 0 && t.ctl.reqCnt == 0
      && !t.ctl.needUpdata && !t.ctl.cfgAccept && t.ctl.period == t.ctl.waittime == 0
      && CallbackStep(t, SentEnd, res, now).flash == s.flash
  {
  }

  /** A check or get that could not be sent is given up; any other news of it changes nothing. */
  lemma FailedSendGivesUp(s: State, sent: Sent, res: TxResult, now: nat)
    requires sent == SentCheck || sent == SentGet
    ensures var t := CallbackStep(s, sent, res, now);
      if res == TxFail then
        t.ctl.cfgSt == CfgIdle && t.ctl.waitSt == WaitIdle && t.ctl.req == 0 && t.ctl.reqCnt == 0
        && t.ctl.period == now && t.flash == s.flash && t.work == s.work
      else t == s
  {
  }

  /** What a read request shows: the stored configuration, or without one the blocks there were, none of
      them valid, under the version last asked with. */
  lemma ReadShows(s: State)
    ensures var t := Receive(s, ReadRequest);
      if s.flash.st == 1 then t.work == s.flash.config && t.checkVersion == s.flash.config.version
      else t.work.version == s.checkVersion && t.checkVersion == s.checkVersion
           && forall x: Field :: At(t.work.blocks, x) == At(s.work.blocks, x).(valid := false)
    ensures Receive(s, ReadRequest).log == s.log + [Reloaded]
  {
    forall x: Field
      ensures s.flash.st != 1 ==> At(Receive(s, ReadRequest).work.blocks, x) == At(s.work.blocks, x).(valid := false)
    {
      match x
      case Ficm =>
      case Apn1 =>
      case Apn2 =>
      case Common =>
      case Extend =>
    }
  }

  /** At initialisation nothing is asked for, awaited, accepted or merged; a stored configuration is the
      working copy and its version the one to ask with. */
  lemma StartsCleared(flash: Flash, zeros: seq<nat>)
    ensures var s := Start(flash, zeros);
      && s.ctl.cfgSt == CfgIdle && s.ctl.waitSt == WaitIdle && s.ctl.req == s.ctl.reqCnt == 0
      && s.ctl.period == s.ctl.waittime == s.ctl.delaytime == 0
      && !s.ctl.active && !s.ctl.needUpdata && !s.ctl.cfgAccept && !s.ctl.cfgsuccess && !s.ctl.iccidValid && !s.iccid
      && s.getResp == GetData(0, NoBlocks) && s.checkResp == CheckData(0, []) && s.flash == flash && s.log == []
      && (if flash.st == 1 then s.work == flash.config && s.checkVersion == flash.config.version
          else s.work.version == zeros && NoneValid(s.work.blocks) && s.checkVersion == zeros)
  {
  }

  // ---- When the module asks of itself ----

  /** The module is in idle and has been since `on`, with a request since `since`. */
  ghost predicate Asking(s: State, on: nat, since: nat) {
    && s.ctl.cfgSt == CfgIdle && s.ctl.waitSt == WaitIdle && s.ctl.active && s.ctl.delaytime == on
    && s.ctl.req == 1 && s.ctl.reqCnt == 0 && s.ctl.period == since
  }

  /** Half a minute after switching on, or 15 s when the SIM's number is known, the module may ask. */
  predicate MayAsk(known: bool, on: nat, e: Env) {
    Elapsed(e.t1, on) >= if known then 15_000 else 30_000
  }

  /** The first check goes out with the first call after the pause and 1.5 s after the request, and not
      before. */
  lemma AsksWhenDue(s: State, on: nat, since: nat, e: Env)
    requires Asking(s, on, since) && Undisturbed(e)
    ensures var known := s.iccid || s.ctl.iccidValid;
      var t, due := MainStep(s, e), MayAsk(known, on, e) && Elapsed(e.t1, since) >= 1500;
      && t.iccid == (s.iccid || e.gotIccid) && t.ctl.iccidValid == known && t.flash == s.flash && t.log == s.log
      && if due then t.ctl.cfgSt == CheckReq && t.ctl.waitSt == WaitIdle && t.ctl.active && t.ctl.reqCnt == 1
         else Asking(t, on, since)
  {
  }

  /** Calls in which nothing comes, the SIM's number cannot be got, and it is too early to ask. */
  ghost predicate TooEarly(es: seq<Env>, on: nat, since: nat) {
    forall i {:trigger es[i]} :: 0 <= i < |es| ==>
      Undisturbed(es[i]) && !es[i].gotIccid && (!MayAsk(false, on, es[i]) || Elapsed(es[i].t1, since) < 1500)
  }

  lemma {:induction false} StaysAsking(s: State, on: nat, since: nat, es: seq<Env>)
    requires Asking(s, on, since) && !s.iccid && !s.ctl.iccidValid && TooEarly(es, on, since)
    ensures var t := CallAll(s, es);
      Asking(t, on, since) && !t.iccid && !t.ctl.iccidValid && t.log == s.log && t.flash == s.flash
    decreases |es|
  {
    if es != [] {
      AsksWhenDue(s, on, since, es[0]);
      StaysAsking(MainStep(s, es[0]), on, since, es[1..]);
    }
  }

  lemma SwitchedOn(flash: Flash, zeros: seq<nat>, on: nat, first: Env)
    requires Undisturbed(first) && !first.gotIccid && first.t1 == on
    ensures var s := MainStep(Start(flash, zeros), first);
      Asking(s, on, on) && !s.iccid && !s.ctl.iccidValid && s.log == [Triggered]
  {
    assert Elapsed(on, on) == 0 && [] + [Triggered] == [Triggered];
  }

  /** From initialisation without the SIM's number: switched on, the module asks nothing in any calls of the
      first half minute, and its check goes out with the second call after it. */
  lemma AsksAfterHalfAMinute(flash: Flash, zeros: seq<nat>, on: nat, first: Env, wait: seq<Env>, due: Env, next: Env)
    requires Undisturbed(first) && !first.gotIccid && first.t1 == on && TooEarly(wait, on, on)
    requires Undisturbed(due) && Undisturbed(next) && Elapsed(due.t1, on) >= 30_000
    ensures var w := CallAll(MainStep(Start(flash, zeros), first), wait);
      && w.log == [Triggered] && w.ctl.cfgSt == CfgIdle
      && MainStep(w, due).ctl.cfgSt == CheckReq
      && MainStep(MainStep(w, due), next).log == [Triggered, Asked(Check)]
  {
    var s := MainStep(Start(flash, zeros), first);
    SwitchedOn(flash, zeros, on, first);
    StaysAsking(s, on, on, wait);
    var w := CallAll(s, wait);
    AsksWhenDue(w, on, on, due);
    CheckIsAsked(MainStep(w, due), next);
    assert [Triggered] + [Asked(Check)] == [Triggered, Asked(Check)];
  }

  lemma CheckIsAsked(s: State, e: Env)
    requires s.ctl.cfgSt == CheckReq && s.ctl.waitSt == WaitIdle && s.ctl.active && Undisturbed(e)
    ensures MainStep(s, e).log == s.log + [Asked(Check)]
  {
  }

  /** A request from elsewhere, and a connection request that was answered, ask for a check 1.5 s later. */
  lemma RequestAsks(s: State, now: nat)
    requires s.ctl.cfgSt == CfgIdle && s.ctl.waitSt == WaitIdle && s.ctl.active
    ensures Asking(Step(s, SetCfgReq(1, now)), s.ctl.delaytime, now)
    ensures Asking(Step(s, SendCb(SentConnResp, TxSuccess, now)), s.ctl.delaytime, now)
    ensures forall res: TxResult :: res != TxSuccess ==> Step(s, SendCb(SentConnResp, res, now)) == s
    ensures forall res: TxResult :: Step(s, SendCb(SentReadResp, res, now)) == s
  {
  }

  /** Without a request a call in idle does nothing; a request that has been asked for once is dropped. */
  lemma IdleWithoutRequest(s: State, e: Env)
    requires s.ctl.cfgSt == CfgIdle && s.ctl.waitSt == WaitIdle && s.ctl.active && Undisturbed(e)
    requires s.ctl.req != 1 || s.ctl.reqCnt > 0
    ensures var t := MainStep(s, e);
      && t.ctl.cfgSt == CfgIdle && t.ctl.waitSt == WaitIdle && t.log == s.log && t.flash == s.flash && t.work == s.work
      && (Elapsed(e.t1, s.ctl.delaytime) >= 30_000 ==> t.ctl.req == 0 && t.ctl.reqCnt == 0)
  {
  }

  /** With the ignition off the module is in idle and starts anew when it is switched on again. */
  lemma SwitchedOnAgain(s: State, off: Env, on: Env)
    requires !off.kl15 && Undisturbed(on) && s.ctl.waitSt == WaitIdle && Elapsed(on.t1, on.t1) == 0
    ensures var t := MainStep(s, off); t.ctl.cfgSt == CfgIdle && !t.ctl.active && t.log == s.log && t.flash == s.flash
    ensures Asking(MainStep(MainStep(s, off), on), on.t1, on.t1)
    ensures MainStep(MainStep(s, off), on).log == s.log + [Triggered]
  {
  }

  // ---- Runs that lose what was fetched ----

  function Call(t: nat, msg: Msg): Env {
    Env(true, true, msg, true, t, t)
  }

  lemma {:induction false} RunAppend(s: State, es: seq<Event>, fs: seq<Event>)
    ensures Run(s, es + fs) == Run(Run(s, es), fs)
    decreases |es|
  {
    if es == [] {
      assert es + fs == fs;
    } else {
      assert (es + fs)[0] == es[0] && (es + fs)[1..] == es[1..] + fs;
      RunAppend(Step(s, es[0]), es[1..], fs);
    }
  }

  lemma RunOfTwo(s: State, a: Event, b: Event)
    ensures Run(s, [a, b]) == Step(Step(s, a), b)
  {
    assert [a, b][1..] == [b] && [b][1..] == [];
    assert Run(s, [a, b]) == Run(Step(s, a), [b]);
  }

  /** Switched on, the module asks for its configuration of itself half a minute later. */
  function SwitchOn(start: nat): seq<Event> {
    [Main(Call(start, NoMsg)), Main(Call(start + 30_000, NoMsg))]
  }

  lemma SwitchOnAsks(flash: Flash, zeros: seq<nat>, start: nat)
    requires start + 60_000 < CLOCK_MODULUS
    ensures var s := Run(Start(flash, zeros), SwitchOn(start));
      && s.ctl.cfgSt == CheckReq && s.ctl.waitSt == WaitIdle && s.ctl.active && s.flash == flash
  {
    RunOfTwo(Start(flash, zeros), Main(Call(start, NoMsg)), Main(Call(start + 30_000, NoMsg)));
    var s1 := MainStep(Start(flash, zeros), Call(start, NoMsg));
    assert s1.ctl.active && s1.ctl.req == 1 && s1.ctl.reqCnt == 0 && s1.ctl.cfgSt == CfgIdle
      && s1.ctl.delaytime == start && s1.ctl.period == start && s1.ctl.waitSt == WaitIdle && s1.flash == flash;
  }

  /** A request and its answer on the next call. */
  function AskAndAnswer(t: nat, answer: Msg): seq<Event> {
    [Main(Call(t, NoMsg)), Main(Call(t + 1, answer))]
  }

  lemma CheckFetched(s: State, t: nat, version: seq<nat>)
    requires s.ctl.cfgSt == CheckReq && s.ctl.waitSt == WaitIdle && s.ctl.active
    ensures var m := Run(s, AskAndAnswer(t, CheckAnswer(1, Some(version))));
      && m.ctl.cfgSt == GetReq && m.ctl.waitSt == WaitIdle && m.ctl.active
      && m.checkResp.version == version && m.flash == s.flash
  {
    var a, b := Call(t, NoMsg), Call(t + 1, CheckAnswer(1, Some(version)));
    RunOfTwo(s, Main(a), Main(b));
    CheckTells(s, a, [], b);
  }

  lemma BlocksFetched(s: State, t: nat, blocks: Blocks)
    requires s.ctl.cfgSt == GetReq && s.ctl.waitSt == WaitIdle && s.ctl.active
    ensures var m := Run(s, AskAndAnswer(t, GetAnswer(1, blocks)));
      && m.ctl.cfgSt == CfgEnd && m.ctl.waitSt == WaitIdle && m.getResp.result == 1
      && m.flash == s.flash
      && MergedConfig(m) == Config(s.checkResp.version, Merge(blocks, s.flash.config.blocks))
  {
    var a, b := Call(t, NoMsg), Call(t + 1, GetAnswer(1, blocks));
    RunOfTwo(s, Main(a), Main(b));
    GetBrings(s, a, [], b);
  }

  /** The check and its answer, then the get and its answer. */
  function Fetch(t: nat, version: seq<nat>, blocks: Blocks): seq<Event> {
    AskAndAnswer(t, CheckAnswer(1, Some(version))) + AskAndAnswer(t + 2, GetAnswer(1, blocks))
  }

  lemma FetchBrings(s: State, t: nat, version: seq<nat>, blocks: Blocks)
    requires s.ctl.cfgSt == CheckReq && s.ctl.waitSt == WaitIdle && s.ctl.active
    ensures var m := Run(s, Fetch(t, version, blocks));
      && m.ctl.cfgSt == CfgEnd && m.ctl.waitSt == WaitIdle && m.getResp.result == 1
      && m.flash == s.flash
      && MergedConfig(m) == Config(version, Merge(blocks, s.flash.config.blocks))
  {
    CheckFetched(s, t, version);
    BlocksFetched(Run(s, AskAndAnswer(t, CheckAnswer(1, Some(version)))), t + 2, blocks);
    RunAppend(s, AskAndAnswer(t, CheckAnswer(1, Some(version))), AskAndAnswer(t + 2, GetAnswer(1, blocks)));
  }

  /** A read request comes before the end has been acknowledged. */
  function ReadThenAcknowledge(t: nat): seq<Event> {
    [Main(Call(t, NoMsg)), Main(Call(t + 1, ReadRequest))] + [SendCb(SentEnd, TxSuccess, t + 2)]
  }

  lemma ReadLoses(s: State, t: nat)
    requires AtMerge(s, Call(t, NoMsg)) && s.flash.st == 1
    ensures Run(s, ReadThenAcknowledge(t)).flash == s.flash
  {
    var e, r := Call(t, NoMsg), Call(t + 1, ReadRequest);
    RunAppend(s, [Main(e), Main(r)], [SendCb(SentEnd, TxSuccess, t + 2)]);
    RunOfTwo(s, Main(e), Main(r));
    ReadBeforeCallbackKeepsMergeIff(s, e, r, t + 2);
    var b := MainStep(MainStep(s, e), r);
    assert [SendCb(SentEnd, TxSuccess, t + 2)][1..] == [];
    assert Run(b, [SendCb(SentEnd, TxSuccess, t + 2)]) == CallbackStep(b, SentEnd, TxSuccess, t + 2);
  }

  /** From initialisation with a stored configuration: a new version with new blocks is fetched, a
      read request comes, the end is acknowledged, and flash holds what it held. */
  lemma NewConfigurationIsLost(flash: Flash, zeros: seq<nat>, start: nat, version: seq<nat>, blocks: Blocks)
    requires flash.st == 1 && start + 60_000 < CLOCK_MODULUS
    ensures var fetched := SwitchOn(start) + Fetch(start + 30_001, version, blocks);
      && Run(Start(flash, zeros), fetched + [Main(Call(start + 30_005, NoMsg))]).work.version == version
      && Overlaid(blocks, flash.config.blocks,
                  Run(Start(flash, zeros), fetched + [Main(Call(start + 30_005, NoMsg))]).work.blocks)
      && Run(Start(flash, zeros), fetched + ReadThenAcknowledge(start + 30_005)).flash == flash
  {
    MergeOverlays(blocks, flash.config.blocks);
    var s0 := Start(flash, zeros);
    var fetched := SwitchOn(start) + Fetch(start + 30_001, version, blocks);
    SwitchOnAsks(flash, zeros, start);
    RunAppend(s0, SwitchOn(start), Fetch(start + 30_001, version, blocks));
    FetchBrings(Run(s0, SwitchOn(start)), start + 30_001, version, blocks);
    RunAppend(s0, fetched, ReadThenAcknowledge(start + 30_005));
    ReadLoses(Run(s0, fetched), start + 30_005);
    MergedNow(s0, fetched, start + 30_005);
  }

  lemma MergedNow(s0: State, es: seq<Event>, t: nat)
    requires AtMerge(Run(s0, es), Call(t, NoMsg))
    ensures Run(s0, es + [Main(Call(t, NoMsg))]).work == MergedConfig(Run(s0, es))
  {
    RunAppend(s0, es, [Main(Call(t, NoMsg))]);
    AfterMerge(Run(s0, es), Call(t, NoMsg));
    assert [Main(Call(t, NoMsg))][1..] == [];
  }

  /** An address query comes before the end has been acknowledged. */
  function AskThenAcknowledge(t: nat): seq<Event> {
    [Main(Call(t, NoMsg)), AskAddress] + [SendCb(SentEnd, TxSuccess, t + 2)]
  }

  lemma AskLoses(s: State, t: nat)
    requires AtMerge(s, Call(t, NoMsg))
    ensures Run(s, AskThenAcknowledge(t)).flash.config.blocks.apn1 == s.flash.config.blocks.apn1
  {
    var e := Call(t, NoMsg);
    RunAppend(s, [Main(e), AskAddress], [SendCb(SentEnd, TxSuccess, t + 2)]);
    RunOfTwo(s, Main(e), AskAddress);
    AskBeforeCallbackKeepsMergeIff(s, e, t + 2);
    var b := Step(MainStep(s, e), AskAddress);
    assert [SendCb(SentEnd, TxSuccess, t + 2)][1..] == [];
    assert Run(b, [SendCb(SentEnd, TxSuccess, t + 2)]) == CallbackStep(b, SentEnd, TxSuccess, t + 2);
  }

  /** From initialisation: whatever APN1 block was fetched, after an address query and the
      acknowledgement flash holds the old one. */
  lemma NewAddressIsLost(flash: Flash, zeros: seq<nat>, start: nat, version: seq<nat>, blocks: Blocks)
    requires start + 60_000 < CLOCK_MODULUS
    ensures var fetched := SwitchOn(start) + Fetch(start + 30_001, version, blocks);
      && Run(Start(flash, zeros), fetched + [Main(Call(start + 30_005, NoMsg))]).work.version == version
      && Overlaid(blocks, flash.config.blocks,
                  Run(Start(flash, zeros), fetched + [Main(Call(start + 30_005, NoMsg))]).work.blocks)
      && Run(Start(flash, zeros), fetched + AskThenAcknowledge(start + 30_005)).flash.config.blocks.apn1
           == flash.config.blocks.apn1
  {
    MergeOverlays(blocks, flash.config.blocks);
    var s0 := Start(flash, zeros);
    var fetched := SwitchOn(start) + Fetch(start + 30_001, version, blocks);
    SwitchOnAsks(flash, zeros, start);
    RunAppend(s0, SwitchOn(start), Fetch(start + 30_001, version, blocks));
    FetchBrings(Run(s0, SwitchOn(start)), start + 30_001, version, blocks);
    RunAppend(s0, fetched, AskThenAcknowledge(start + 30_005));
    AskLoses(Run(s0, fetched), start + 30_005);
    MergedNow(s0, fetched, start + 30_005);
  }

  // ---- Waits end ----

  lemma ReceiveEndsWaitIff(s: State, msg: Msg)
    requires s.ctl.waitSt != WaitIdle
    ensures Receive(s, msg).ctl.waitSt == WaitIdle <==>
      || msg.ConnRequest?
      || (msg.CheckAnswer? && s.ctl.waitSt == CheckWait)
      || (msg.GetAnswer? && s.ctl.waitSt == GetWait)
    ensures Receive(s, msg).ctl.waitSt != WaitIdle ==> Receive(s, msg).ctl == s.ctl
    ensures Receive(s, msg).ctl.cfgSt == if msg.ConnRequest? then CfgIdle else s.ctl.cfgSt
  {
  }

  lemma ActAsksNothing(s: State, now: nat)
    requires s.ctl.waitSt == WaitIdle && s.ctl.cfgSt in {CfgIdle, CheckResp, GetResp}
    ensures Act(s, now).ctl.waitSt == WaitIdle
  {
  }

  /** With the ignition on, a call ends the wait exactly when the socket is closed, the awaited
      answer or a new connection request comes, or more than five seconds have passed; no new
      request is sent in that call. */
  lemma WaitEndsIff(s: State, e: Env)
    requires s.ctl.waitSt != WaitIdle && Matches(s.ctl.waitSt, s.ctl.cfgSt) && e.kl15
    ensures MainStep(s, e).ctl.waitSt == WaitIdle <==>
      || !e.open
      || e.msg.ConnRequest?
      || (e.msg.CheckAnswer? && s.ctl.waitSt == CheckWait)
      || (e.msg.GetAnswer? && s.ctl.waitSt == GetWait)
      || Elapsed(e.t0, s.ctl.waittime) > PP_RMTCFG_WAIT_TIMEOUT
    ensures MainStep(s, e).ctl.waitSt != WaitIdle ==> MainStep(s, e).ctl == s.ctl
  {
    if e.open {
      var r := Receive(s, e.msg);
      ReceiveEndsWaitIff(s, e.msg);
      if r.ctl.waitSt == WaitIdle {
        ActAsksNothing(Activate(r, e), e.t1);
      }
    }
  }

  function ClockOf(e: Event): Reading {
    if e.Main? then Reading(e.env.t0, e.env.t1) else NoReading
  }

  function WaitLeft(c: Ctl, now: nat): nat {
    if c.waitSt == WaitIdle then 0
    else if now <= c.waittime + PP_RMTCFG_WAIT_TIMEOUT then c.waittime + PP_RMTCFG_WAIT_TIMEOUT + 2 - now
    else 1
  }

  const WAIT: nat := PP_RMTCFG_WAIT_TIMEOUT + 3

  /** The calls of the main function that are needed at most to come back to idle. */
  function CallsLeft(c: Ctl, now: nat): nat {
    match c.cfgSt
    case CfgIdle => 0
    case CfgEnd => WaitLeft(c, now) + if c.waitSt == EndWait then 0 else WAIT
    case GetResp => WAIT + 1 + WaitLeft(c, now)
    case GetReq => 2 * WAIT + 1
    case CheckResp => 2 * WAIT + 2 + WaitLeft(c, now)
    case CheckReq => 3 * WAIT + 2
  }

  ghost predicate Timed(c: Ctl, now: nat) {
    && Matches(c.waitSt, c.cfgSt)
    && (c.waitSt != WaitIdle ==> c.waittime <= now)
    && (c.cfgSt != CfgIdle ==> c.active)
  }

  lemma ReceiveGetsNoFarther(s: State, msg: Msg, now: nat)
    requires Timed(s.ctl, now)
    ensures CallsLeft(Receive(s, msg).ctl, now) <= CallsLeft(s.ctl, now)
    ensures Timed(Receive(s, msg).ctl, now)
    ensures !msg.ConnRequest? ==> Receive(s, msg).ctl.cfgSt == s.ctl.cfgSt
  {
  }

  lemma AwaitGetsCloser(s: State, t: nat, now: nat)
    requires Timed(s.ctl, now) && s.ctl.waitSt != WaitIdle && s.ctl.cfgSt != CfgIdle && now < t < CLOCK_MODULUS
    ensures CallsLeft(Await(s, t).ctl, t) < CallsLeft(s.ctl, now)
  {
  }

  lemma ActGetsCloser(s: State, t: nat)
    requires Timed(s.ctl, t) && s.ctl.waitSt == WaitIdle && s.ctl.cfgSt != CfgIdle
    ensures CallsLeft(Act(s, t).ctl, t) < CallsLeft(s.ctl, t)
    ensures Timed(Act(s, t).ctl, t)
  {
    match s.ctl.cfgSt
    case CheckReq =>
    case CheckResp =>
    case GetReq =>
    case GetResp =>
    case CfgEnd =>
  }

  /** A connection request in the middle drops the request, so that the call ends in idle. */
  lemma ConnEndsInIdle(s: State, e: Env)
    requires s.ctl.active && e.kl15 && e.open && e.msg.ConnRequest?
    ensures MainStep(s, e).ctl.cfgSt == CfgIdle && MainStep(s, e).ctl.waitSt == WaitIdle && MainStep(s, e).ctl.cfgAccept
  {
  }

  lemma LaterIsNoFarther(c: Ctl, t: nat, later: nat)
    requires t <= later && Timed(c, t)
    ensures CallsLeft(c, later) <= CallsLeft(c, t) && Timed(c, later)
  {
  }

  lemma MainGetsCloser(s: State, e: Env, now: nat)
    requires Timed(s.ctl, now) && s.ctl.cfgSt != CfgIdle && now < e.t0 <= e.t1 < CLOCK_MODULUS
    ensures CallsLeft(MainStep(s, e).ctl, e.t1) < CallsLeft(s.ctl, now)
    ensures Timed(MainStep(s, e).ctl, e.t1)
  {
    if e.kl15 && e.open {
      if e.msg.ConnRequest? {
        ConnEndsInIdle(s, e);
      } else {
        ProceedsCloser(s, e, now);
      }
    }
  }

  lemma ProceedsCloser(s: State, e: Env, now: nat)
    requires Timed(s.ctl, now) && s.ctl.cfgSt != CfgIdle && now < e.t0 <= e.t1 < CLOCK_MODULUS
    requires e.kl15 && e.open && !e.msg.ConnRequest?
    ensures CallsLeft(MainStep(s, e).ctl, e.t1) < CallsLeft(s.ctl, now)
    ensures Timed(MainStep(s, e).ctl, e.t1)
  {
    var r := Receive(s, e.msg);
    ReceiveGetsNoFarther(s, e.msg, now);
    if r.ctl.waitSt != WaitIdle {
      AwaitGetsCloser(r, e.t0, now);
      LaterIsNoFarther(Await(r, e.t0).ctl, e.t0, e.t1);
    } else {
      LaterIsNoFarther(r.ctl, now, e.t1);
      ActGetsCloser(Activate(r, e), e.t1);
    }
  }

  lemma GiveUpGetsNoFarther(s: State, now: nat)
    requires Timed(s.ctl, now)
    ensures CallsLeft(GiveUp(s).ctl, now) == 0 && Timed(GiveUp(s).ctl, now)
  {
  }

  lemma CallbackGetsNoFarther(s: State, sent: Sent, res: TxResult, at: nat, now: nat)
    requires Timed(s.ctl, now)
    ensures CallsLeft(CallbackStep(s, sent, res, at).ctl, now) <= CallsLeft(s.ctl, now)
    ensures Timed(CallbackStep(s, sent, res, at).ctl, now)
  {
    match sent
    case SentConnResp =>
    case SentReadResp =>
    case SentCheck => GiveUpGetsNoFarther(s, now);
    case SentGet => GiveUpGetsNoFarther(s, now);
    case SentEnd => GiveUpGetsNoFarther(if res == TxSuccess && s.ctl.cfgsuccess then Commit(s) else s, now);
  }

  lemma OtherGetsNoFarther(s: State, e: Event, now: nat)
    requires Timed(s.ctl, now) && !e.Main?
    ensures CallsLeft(Step(s, e).ctl, now) <= CallsLeft(s.ctl, now)
    ensures Timed(Step(s, e).ctl, now)
  {
    if e.SendCb? {
      CallbackGetsNoFarther(s, e.sent, e.res, e.now, now);
    }
  }

  /** With an advancing clock the protocol comes back to idle. */
  lemma {:induction false} ReturnsToIdle(s: State, now: nat, es: seq<Event>) returns (k: nat)
    requires Timed(s.ctl, now) && Advancing(es, ClockOf, now) && Calls(es, ClockOf) >= CallsLeft(s.ctl, now)
    ensures k <= |es| && Run(s, es[..k]).ctl.cfgSt == CfgIdle
    decreases |es|
  {
    k := 0;
    if s.ctl.cfgSt != CfgIdle {
      FirstGetsCloser(s, es[0], now);
      k := ReturnsToIdle(Step(s, es[0]), After(es[0], ClockOf, now), es[1..]);
      k := k + 1;
      RunOfFirst(s, es, k);
    }
  }

  lemma FirstGetsCloser(s: State, e: Event, now: nat)
    requires Timed(s.ctl, now) && s.ctl.cfgSt != CfgIdle
    requires e.Main? ==> now < e.env.t0 <= e.env.t1 < CLOCK_MODULUS
    ensures Timed(Step(s, e).ctl, After(e, ClockOf, now))
    ensures CallsLeft(Step(s, e).ctl, After(e, ClockOf, now)) + (if e.Main? then 1 else 0) <= CallsLeft(s.ctl, now)
  {
    if e.Main? {
      MainGetsCloser(s, e.env, now);
    } else {
      OtherGetsNoFarther(s, e, now);
    }
  }

  lemma RunOfFirst(s: State, es: seq<Event>, k: nat)
    requires 0 < k <= |es|
    ensures Run(s, es[..k]) == Run(Step(s, es[0]), es[1..][..k - 1])
  {
    assert es[..k][0] == es[0] && es[..k][1..] == es[1..][..k - 1];
  }

  lemma ActKeepsTimed(s: State, t: nat)
    requires Timed(s.ctl, t) && s.ctl.waitSt == WaitIdle && s.ctl.active
    ensures Timed(Act(s, t).ctl, t)
  {
    match s.ctl.cfgSt
    case CfgIdle =>
    case CheckReq =>
    case CheckResp =>
    case GetReq =>
    case GetResp =>
    case CfgEnd =>
  }

  lemma MainKeepsTimed(s: State, e: Env, now: nat)
    requires Timed(s.ctl, now) && now < e.t0 <= e.t1
    ensures Timed(MainStep(s, e).ctl, e.t1)
  {
    if e.kl15 && e.open {
      var r := Receive(s, e.msg);
      ReceiveGetsNoFarther(s, e.msg, now);
      LaterIsNoFarther(r.ctl, now, e.t1);
      if r.ctl.waitSt != WaitIdle {
        GiveUpGetsNoFarther(r, e.t1);
      } else {
        ActKeepsTimed(Activate(r, e), e.t1);
      }
    }
  }

  /** The timing that the way back to idle depends on holds in every run. */
  lemma {:induction false} RunKeepsTimed(s: State, es: seq<Event>, now: nat)
    requires Timed(s.ctl, now) && Advancing(es, ClockOf, now)
    ensures Timed(Run(s, es).ctl, AfterAll(es, ClockOf, now))
    decreases |es|
  {
    if es != [] {
      if es[0].Main? {
        MainKeepsTimed(s, es[0].env, now);
      } else {
        OtherGetsNoFarther(s, es[0], now);
      }
      RunKeepsTimed(Step(s, es[0]), es[1..], After(es[0], ClockOf, now));
    }
  }

  /** From initialisation with an advancing clock: wherever a run has got to, the protocol is back
      in idle within three waits of calls, whatever comes, fails to come or is lost. */
  lemma EveryCycleEnds(flash: Flash, zeros: seq<nat>, start: nat, past: seq<Event>, future: seq<Event>) returns (k: nat)
    requires Advancing(past, ClockOf, start) && Advancing(future, ClockOf, AfterAll(past, ClockOf, start))
    requires Calls(future, ClockOf) >= 3 * WAIT + 2
    ensures k <= |future| && Run(Run(Start(flash, zeros), past), future[..k]).ctl.cfgSt == CfgIdle
  {
    RunKeepsTimed(Start(flash, zeros), past, start);
    k := ReturnsToIdle(Run(Start(flash, zeros), past), AfterAll(past, ClockOf, start), future);
  }

  // ---- The C file's own form ----

  class ConfigClient {
    var state: Ctl
    var checkResp: CheckData
    var getResp: GetData
    var readResp: Config
    var checkVersion: seq<nat>
    var iccid: bool
    var flash: Flash
    ghost var log: seq<Mark>

    ghost function View(): State
      reads this
    {
      State(state, checkResp, getResp, readResp, checkVersion, iccid, flash, log)
    }

    /** `PP_rmtCfg_init`. */
    constructor (flash: Flash, zeros: seq<nat>)
      ensures View() == Start(flash, zeros)
    {
      state := Ctl(0, 0, CfgIdle, 0, WaitIdle, 0, false, 0, false, false, false, false);
      checkResp := CheckData(0, []);
      getResp := GetData(0, NoBlocks);
      readResp := Config([], NoBlocks);
      checkVersion := zeros;
      iccid := false;
      this.flash := flash;
      new;
      LocalConfig();
      log := [];
    }

    /** `getPP_rmtCfg_localConfig`. */
    method LocalConfig()
      modifies this`readResp, this`checkVersion, this`log
      ensures View() == LoadLocal(old(View()))
    {
      if flash.st == 1 {
        readResp := flash.config;
        checkVersion := flash.config.version;
      } else {
        var b := readResp.blocks;
        b := b.(apn1 := b.apn1.(valid := false));
        b := b.(apn2 := b.apn2.(valid := false));
        b := b.(common := b.common.(valid := false));
        b := b.(extend := b.extend.(valid := false));
        b := b.(ficm := b.ficm.(valid := false));
        readResp := Config(checkVersion, b);
      }
      log := log + [Reloaded];
    }

    /** The end of a wait. */
    method ClearWait()
      modifies this`state, this`log
      ensures View() == Clear(old(View()))
    {
      if state.waitSt != WaitIdle {
        log := log + [Cleared];
        state := state.(waitSt := WaitIdle);
      }
    }

    /** The four assignments of a timeout, of a new connection request and of most failures. */
    method Drop()
      modifies this`state, this`log
      ensures View() == GiveUp(old(View()))
    {
      state := state.(reqCnt := 0, req := 0);
      ClearWait();
      state := state.(cfgSt := CfgIdle);
    }

    /** `PP_rmtCfg_reset`. */
    method ResetState()
      modifies this`state, this`log
      ensures View() == Reset(old(View()))
    {
      Drop();
      state := state.(cfgAccept := false, cfgsuccess := false, needUpdata := false);
      state := state.(period := 0, waittime := 0);
    }

    /** `PP_rmtCfg_do_rcvMsg` with the decoding of the message. */
    method ReceiveMessage(msg: Msg)
      modifies this
      ensures View() == Receive(old(View()), msg)
    {
      match msg
      case NoMsg =>
      case CheckAnswer(need, version) =>
        ReceiveCheck(need, version);
      case GetAnswer(result, blocks) =>
        DecodeGetAnswer(result, blocks);
        if state.waitSt == GetWait {
          log := log + [GetAccepted];
          ClearWait();
        }
      case ConnRequest =>
        Drop();
        state := state.(cfgAccept := true);
      case ReadRequest =>
        LocalConfig();
    }

    method ReceiveCheck(need: int, version: Option<seq<nat>>)
      modifies this`checkResp, this`state, this`log
      ensures View() == Receive(old(View()), CheckAnswer(need, version))
    {
      checkResp := checkResp.(needUpdate := need);
      if version.Some? {
        checkResp := checkResp.(version := version.value);
      }
      if state.waitSt == CheckWait {
        if checkResp.needUpdate == 1 {
          state := state.(needUpdata := true);
        }
        checkResp := checkResp.(needUpdate := 0);
        ClearWait();
      }
    }

    method DecodeGetAnswer(result: int, b: Blocks)
      modifies this`getResp
      ensures getResp == GetData(result, Merge(b, old(getResp).blocks))
      ensures Overlaid(b, old(getResp).blocks, getResp.blocks)
    {
      MergeOverlays(b, getResp.blocks);
      var got := getResp.blocks;
      if b.ficm.valid { got := got.(ficm := b.ficm); }
      if b.apn1.valid { got := got.(apn1 := b.apn1); }
      if b.apn2.valid { got := got.(apn2 := b.apn2); }
      if b.common.valid { got := got.(common := b.common); }
      if b.extend.valid { got := got.(extend := b.extend); }
      getResp := GetData(result, got);
    }

    /** `PP_rmtCfg_do_wait`: whether a wait was under way. */
    method DoWait(now: nat) returns (busy: bool)
      modifies this`state, this`log
      ensures busy == (old(state).waitSt != WaitIdle)
      ensures View() == if busy then Await(old(View()), now) else old(View())
    {
      busy := state.waitSt != WaitIdle;
      if busy && Elapsed(now, state.waittime) > PP_RMTCFG_WAIT_TIMEOUT {
        Drop();
      }
    }

    method Prepare(e: Env)
      modifies this`state, this`iccid, this`log
      ensures View() == Activate(old(View()), e)
    {
      if !state.active {
        state := state.(req := 1, reqCnt := 0, period := e.t1, delaytime := e.t1, active := true);
        log := log + [Triggered];
      }
      if !iccid {
        iccid := e.gotIccid;
      } else {
        state := state.(iccidValid := true);
      }
    }

    /** The IDLE case of `PP_rmtCfg_do_checkConfig`. */
    method LookForRequest(now: nat)
      modifies this`state, this`log
      ensures View() == IdleStep(old(View()), now)
    {
      if (state.iccidValid && Elapsed(now, state.delaytime) >= 15000) || Elapsed(now, state.delaytime) >= 30000 {
        if state.req == 1 && state.reqCnt < PP_RETRANSMIT_TIMES {
          if Elapsed(now, state.period) >= RMTCFG_DELAY_TIME {
            state := state.(cfgSt := CheckReq);
            ClearWait();
            state := state.(reqCnt := state.reqCnt + 1);
          }
        } else {
          state := state.(reqCnt := 0, req := 0);
        }
      }
    }

    method SendRequest(kind: Kind, now: nat)
      modifies this`state, this`log
      ensures View() == Ask(old(View()), kind, now)
    {
      log := log + [Asked(kind)];
      match kind {
        case Check => state := state.(waitSt := CheckWait, cfgSt := CheckResp);
        case Get => state := state.(waitSt := GetWait, cfgSt := GetResp);
        case End => state := state.(waitSt := EndWait, cfgSt := CfgEnd);
      }
      state := state.(waittime := now);
    }

    /** The END case up to the sending: the blocks are read from flash and then overwritten. */
    method MergeResponse()
      modifies this`state, this`getResp, this`readResp, this`log
      ensures View() == MergeStep(old(View()))
      ensures old(getResp).result == 1 ==>
        readResp.version == checkResp.version && Overlaid(old(getResp).blocks, flash.config.blocks, readResp.blocks)
    {
      MergeOverlays(getResp.blocks, flash.config.blocks);
      if getResp.result == 1 {
        var b := flash.config.blocks;
        getResp := getResp.(result := 0);
        if getResp.blocks.ficm.valid { b := b.(ficm := getResp.blocks.ficm); }
        if getResp.blocks.apn1.valid { b := b.(apn1 := getResp.blocks.apn1); }
        if getResp.blocks.apn2.valid { b := b.(apn2 := getResp.blocks.apn2); }
        if getResp.blocks.common.valid { b := b.(common := getResp.blocks.common); }
        if getResp.blocks.extend.valid { b := b.(extend := getResp.blocks.extend); }
        readResp := Config(checkResp.version, b);
        state := state.(cfgsuccess := true);
        log := log + [Merged(readResp)];
      }
    }

    /** The rest of `PP_rmtCfg_do_checkConfig`. */
    method Advance(now: nat)
      modifies this
      ensures View() == Act(old(View()), now)
    {
      match state.cfgSt
      case CfgIdle =>
        LookForRequest(now);
      case CheckReq =>
        checkVersion := flash.config.version;
        SendRequest(Check, now);
      case CheckResp =>
        if state.needUpdata {
          state := state.(needUpdata := false, cfgSt := GetReq);
        } else {
          Drop();
        }
      case GetReq =>
        getResp := GetData(0, NoBlocks);
        SendRequest(Get, now);
      case GetResp =>
        state := state.(cfgSt := CfgEnd);
      case CfgEnd =>
        MergeResponse();
        SendRequest(End, now);
    }

    /** `PP_rmtCfg_mainfunction`. */
    method MainFunction(e: Env)
      modifies this
      ensures View() == Step(old(View()), Main(e))
    {
      if !e.kl15 {
        state := state.(active := false, cfgSt := CfgIdle);
        return;
      }
      if !e.open {
        ResetState();
        return;
      }
      ReceiveMessage(e.msg);
      var busy := DoWait(e.t0);
      if !busy {
        Prepare(e);
        Advance(e.t1);
      }
    }

    method CommitConfig()
      modifies this
      ensures View() == Commit(old(View()))
    {
      state := state.(cfgsuccess := false);
      flash := flash.(st := 1);
      flash := flash.(config := readResp);
      checkVersion := checkResp.version;
      log := log + [Committed(readResp)];
    }

    /** `PP_rmtCfg_send_cb`. */
    method SendCallback(sent: Sent, res: TxResult, now: nat)
      modifies this
      ensures View() == Step(old(View()), SendCb(sent, res, now))
    {
      match sent
      case SentConnResp =>
        if res == TxSuccess {
          state := state.(req := 1, reqCnt := 0, period := now);
          log := log + [Triggered];
        }
      case SentReadResp =>
      case SentCheck =>
        if res == TxFail {
          Drop();
          state := state.(period := now);
        }
      case SentGet =>
        if res == TxFail {
          Drop();
          state := state.(period := now);
        }
      case SentEnd =>
        if res == TxSuccess && state.cfgsuccess {
          CommitConfig();
        }
        Drop();
    }

    /** `PP_rmtCfg_SetCfgReq`. */
    method RequestConfig(req: nat, now: nat)
      modifies this`state, this`log
      ensures View() == Step(old(View()), SetCfgReq(req, now))
    {
      state := state.(req := req, reqCnt := 0, period := now);
      if req == 1 {
        log := log + [Triggered];
      }
    }

    /** `getPP_rmtCfg_tspAddrPort` and `getPP_rmtCfg_certAddrPort`, which reload one block. */
    method LoadAddress()
      modifies this`readResp, this`log
      ensures View() == Step(old(View()), AskAddress)
    {
      readResp := readResp.(blocks := readResp.blocks.(apn1 := flash.config.blocks.apn1));
      log := log + [Reloaded];
    }
  }
}
