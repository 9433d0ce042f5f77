/** The sender of sockproxy.c (`sockproxy_do_send`) and the reports of PP_rmtCtrl.c that it sends:
    what the callbacks do to the pool of transmit records.  Messages of other parts of the program
    pass through the same queue, but touch no record of this pool. */
module Sender {
  import P = SendPool
  import CtrlLog

  /** Milliseconds after which a packet of the timed kind is out of date. */
  const SOCK_TXPAKG_OUTOFTIME: nat := 2000

  /** A report on its way: its record and message id, the tries that failed and the callbacks made. */
  datatype Item = Item(node: nat, mid: nat, fails: nat, calls: nat) {
    function NameOf(): Name {
      Name(node, mid)
    }

    function TicketOf(): P.Ticket {
      P.Ticket(node, mid)
    }
  }

  datatype Name = Name(node: nat, mid: nat)

  /** What a callback told of a message: its id, and whether it was sent. */
  datatype Told = Told(mid: nat, success: bool)

  /** The pool, the reports waiting in the queue, and, for the record, those that have left it, all that
      were accepted, the sends that found no send buffer, and what the callbacks told. */
  datatype State = State(pool: P.Pool, waiting: seq<Item>, done: seq<Item>, lost: seq<Item>, accepted: seq<Name>,
                         dropped: seq<P.Ticket>, told: seq<Told>)

  function Start(): State {
    State(P.Start(), [], [], [], [], [], [])
  }

  /** What `sockproxy_MsgSend` answers: below 0, 0, or above. */
  datatype Res = Failed | Waits | Went

  datatype Event =
    /** A report: whether its encoding worked and whether the queue had a send buffer for it, its
        message id and type, and the clock. */
    | Report(encoded: bool, buffered: bool, mid: nat, huBooking: bool, now: nat)
    | Send(res: Res, now: nat)

  /** What the sender does with the pack it has taken. */
  datatype Act = Keep | Retry | Finish | Drop

  function ActOn(kind: P.PackageType, res: Res, pastDue: bool): Act {
    match kind
    case SigTime => if pastDue then Finish else if res == Waits then Keep else Finish
    case SigTrig => Finish
    case Continue => if res == Failed then Retry else if res == Waits then Keep else Finish
    case Unknown => Drop
  }

  /** Where a ticket is among the outstanding ones; their number when it is not. */
  function IndexOf(out: seq<P.Ticket>, t: P.Ticket): (i: nat)
    ensures i <= |out| && (i < |out| ==> out[i] == t)
    ensures t in out ==> i < |out|
  {
    if out == [] || out[0] == t then 0 else 1 + IndexOf(out[1..], t)
  }

  /** The callback of the first report, which may be a repeated one. */
  function CalledBack(s: State): P.Pool
    requires Formed(s) && s.waiting != []
  {
    P.Step(s.pool, if s.waiting[0].calls == 0 then P.Callback(IndexOf(s.pool.out, s.waiting[0].TicketOf()))
                   else P.CallbackAgain(s.waiting[0].node))
  }

  predicate Formed(s: State) {
    |s.pool.nodes| == P.PP_TXINFORMNODE_NUM && forall i :: 0 <= i < |s.waiting| ==> s.waiting[i].node < |s.pool.nodes|
  }

  function Kind(s: State): P.PackageType
    requires Formed(s) && s.waiting != []
  {
    s.pool.nodes[s.waiting[0].node].pakgtype
  }

  /** The first report is of the timed kind and has become out of date. */
  predicate PastDue(s: State, now: nat)
    requires Formed(s) && s.waiting != []
  {
    CtrlLog.Elapsed(now, s.pool.nodes[s.waiting[0].node].eventtime) >= SOCK_TXPAKG_OUTOFTIME
  }

  function ActNow(s: State, res: Res, now: nat): Act
    requires Formed(s) && s.waiting != []
  {
    ActOn(Kind(s), res, PastDue(s, now))
  }

  function Step(s: State, e: Event): (s': State)
    requires Formed(s)
    ensures Formed(s')
  {
    match e
    case Report(encoded, buffered, mid, huBooking, now) =>
      if !encoded then s
      else
        var node := P.IdleNode(s.pool.nodes);
        var s1 := s.(pool := P.Step(s.pool, P.Report(encoded, mid, huBooking, now)));
        if buffered then
          s1.(waiting := s.waiting + [Item(node, mid, 0, 0)], accepted := s.accepted + [Name(node, mid)])
        else s1.(dropped := s.dropped + [P.Ticket(node, mid)])
    case Send(res, now) =>
      if s.waiting == [] then s
      else
        var item := s.waiting[0];
        (match ActNow(s, res, now)
         case Keep => s
         case Retry =>
           s.(pool := CalledBack(s), told := s.told + [Told(item.mid, false)],
              waiting := [item.(fails := item.fails + 1, calls := item.calls + 1)] + s.waiting[1..])
         case Finish =>
           s.(pool := CalledBack(s), waiting := s.waiting[1..], done := s.done + [item.(calls := item.calls + 1)],
              told := s.told + [Told(item.mid, res == Went && !(Kind(s) == P.SigTime && PastDue(s, now)))])
         case Drop => s.(waiting := s.waiting[1..], lost := s.lost + [item]))
  }

  function Run(s: State, es: seq<Event>): (s': State)
    requires Formed(s)
    ensures Formed(s')
    decreases |es|
  {
    if es == [] then s else Run(Step(s, es[0]), es[1..])
  }

  // ---- What every run keeps ----

  /** The reports that have not been called back: all waiting ones, the first perhaps apart. */
  function Uncalled(waiting: seq<Item>): seq<Item> {
    if waiting != [] && waiting[0].calls > 0 then waiting[1..] else waiting
  }

  function Tickets(items: seq<Item>): (r: seq<P.Ticket>)
    ensures |r| == |items| && forall i :: 0 <= i < |items| ==> r[i] == items[i].TicketOf()
  {
    seq(|items|, i requires 0 <= i < |items| => items[i].TicketOf())
  }

  /** The outstanding sends of the pool are these reports and the sends that found no buffer. */
  ghost predicate Outstanding(s: State) {
    multiset(s.pool.out) == multiset(Tickets(Uncalled(s.waiting))) + multiset(s.dropped)
  }

  lemma OutstandingCount(s: State)
    requires Outstanding(s)
    ensures |s.pool.out| == |Uncalled(s.waiting)| + |s.dropped|
  {
    assert |multiset(s.pool.out)| == |multiset(Tickets(Uncalled(s.waiting)))| + |multiset(s.dropped)|;
  }

  function Names(items: seq<Item>): (r: seq<Name>)
    ensures |r| == |items| && forall i :: 0 <= i < |items| ==> r[i] == items[i].NameOf()
  {
    seq(|items|, i requires 0 <= i < |items| => items[i].NameOf())
  }

  /** Reports leave in the order they were accepted and none is lost; one that has left was called
      back once and once more for each failed try, one that waits as often as its tries failed, and
      only the first that waits may have been tried. */
  ghost predicate Accounted(s: State)
    requires Formed(s)
  {
    && s.accepted == Names(s.done) + Names(s.waiting)
    && s.lost == []
    && (forall i :: 0 <= i < |s.done| ==> s.done[i].calls == s.done[i].fails + 1)
    && (forall i :: 0 <= i < |s.waiting| ==> s.waiting[i].calls == s.waiting[i].fails)
    && (forall i :: 1 <= i < |s.waiting| ==> s.waiting[i].calls == 0)
    && (forall i :: 0 <= i < |s.waiting| ==> s.pool.nodes[s.waiting[i].node].pakgtype != P.Unknown)
  }

  ghost predicate Inv(s: State) {
    Formed(s) && Outstanding(s) && Accounted(s)
  }

  lemma ReportKeepsOutstanding(s: State, e: Event)
    requires Inv(s) && e.Report?
    ensures Outstanding(Step(s, e))
  {
    if e.encoded {
      var item := Item(P.IdleNode(s.pool.nodes), e.mid, 0, 0);
      assert Step(s, e).pool.out == s.pool.out + [item.TicketOf()];
      if e.buffered { TicketsSnoc(s.waiting, item); }
    }
  }

  lemma TicketsSnoc(waiting: seq<Item>, item: Item)
    requires item.calls == 0
    ensures Tickets(Uncalled(waiting + [item])) == Tickets(Uncalled(waiting)) + [item.TicketOf()]
  {
    assert Uncalled(waiting + [item]) == Uncalled(waiting) + [item];
  }

  lemma ReportKeepsAccounted(s: State, e: Event)
    requires Inv(s) && e.Report?
    ensures Accounted(Step(s, e))
  {
    if e.encoded && e.buffered {
      NamesSnoc(s.waiting, Item(P.IdleNode(s.pool.nodes), e.mid, 0, 0));
    }
  }

  lemma ReportKeepsInv(s: State, e: Event)
    requires Inv(s) && e.Report?
    ensures Inv(Step(s, e))
  {
    ReportKeepsOutstanding(s, e);
    ReportKeepsAccounted(s, e);
  }

  /** A callback releases the record of the first report and, the first time, ends its send. */
  lemma CallbackOfFirst(s: State)
    requires Formed(s) && Outstanding(s) && s.waiting != []
    ensures var p, n := CalledBack(s), s.waiting[0].node;
      && p.nodes == s.pool.nodes[n := s.pool.nodes[n].(idleflag := 0)]
      && multiset(p.out) == multiset(s.pool.out)
                            - if s.waiting[0].calls == 0 then multiset{s.waiting[0].TicketOf()} else multiset{}
    ensures s.waiting[0].calls == 0 ==> s.waiting[0].TicketOf() in s.pool.out
  {
    if s.waiting[0].calls == 0 {
      FirstIsOutstanding(s);
      WithoutOne(s.pool.out, IndexOf(s.pool.out, s.waiting[0].TicketOf()));
    }
  }

  lemma FirstIsOutstanding(s: State)
    requires Outstanding(s) && s.waiting != [] && s.waiting[0].calls == 0
    ensures s.waiting[0].TicketOf() in s.pool.out
  {
    assert Tickets(Uncalled(s.waiting))[0] == s.waiting[0].TicketOf();
    assert s.waiting[0].TicketOf() in multiset(s.pool.out);
  }

  lemma WithoutOne(out: seq<P.Ticket>, i: nat)
    requires i < |out|
    ensures multiset(out[..i] + out[i + 1..]) == multiset(out) - multiset{out[i]}
  {
    assert out == out[..i] + [out[i]] + out[i + 1..];
  }

  /** With its first callback the first report is no longer among the outstanding ones. */
  lemma TicketsAfterFirst(s: State)
    requires s.waiting != [] && (forall i :: 1 <= i < |s.waiting| ==> s.waiting[i].calls == 0)
    ensures multiset(Tickets(s.waiting[1..]))
            == multiset(Tickets(Uncalled(s.waiting)))
               - if s.waiting[0].calls == 0 then multiset{s.waiting[0].TicketOf()} else multiset{}
  {
    assert Tickets(s.waiting) == [s.waiting[0].TicketOf()] + Tickets(s.waiting[1..]);
  }

  lemma FirstIsCalled(s: State)
    requires Inv(s) && s.waiting != []
    ensures multiset(CalledBack(s).out) == multiset(Tickets(s.waiting[1..])) + multiset(s.dropped)
  {
    CallbackOfFirst(s);
    TicketsAfterFirst(s);
    var first := if s.waiting[0].calls == 0 then multiset{s.waiting[0].TicketOf()} else multiset{};
    if s.waiting[0].calls == 0 { assert s.waiting[0].TicketOf() in Tickets(Uncalled(s.waiting)); }
    OneLess(multiset(Tickets(Uncalled(s.waiting))), multiset(s.dropped), first);
  }

  lemma OneLess(a: multiset<P.Ticket>, b: multiset<P.Ticket>, x: multiset<P.Ticket>)
    requires x <= a
    ensures a + b - x == a - x + b
  {
  }

  lemma RetryKeepsOutstanding(s: State, e: Event)
    requires Inv(s) && e.Send? && s.waiting != [] && ActNow(s, e.res, e.now) == Retry
    ensures Outstanding(Step(s, e))
  {
    FirstIsCalled(s);
    assert Uncalled(Step(s, e).waiting) == s.waiting[1..];
  }

  /** A callback leaves the kinds of the records alone. */
  lemma CallbackKeepsKinds(s: State)
    requires Formed(s) && s.waiting != []
    ensures |CalledBack(s).nodes| == |s.pool.nodes|
    ensures forall i :: 0 <= i < |s.pool.nodes| ==> CalledBack(s).nodes[i].pakgtype == s.pool.nodes[i].pakgtype
  {
  }

  lemma RetryKeepsAccounted(s: State, e: Event)
    requires Inv(s) && e.Send? && s.waiting != [] && ActNow(s, e.res, e.now) == Retry
    ensures Accounted(Step(s, e))
  {
    CallbackKeepsKinds(s);
    SameNames(s.waiting, Step(s, e).waiting);
  }

  lemma RetryKeepsInv(s: State, e: Event)
    requires Inv(s) && e.Send? && s.waiting != [] && ActNow(s, e.res, e.now) == Retry
    ensures Inv(Step(s, e))
  {
    RetryKeepsOutstanding(s, e);
    RetryKeepsAccounted(s, e);
  }

  lemma SameNames(items: seq<Item>, others: seq<Item>)
    requires |items| == |others| && forall i :: 0 <= i < |items| ==> items[i].NameOf() == others[i].NameOf()
    ensures Names(items) == Names(others)
  {
  }

  lemma NamesCons(items: seq<Item>)
    requires items != []
    ensures Names(items) == [items[0].NameOf()] + Names(items[1..])
  {
  }

  lemma NamesSnoc(items: seq<Item>, item: Item)
    ensures Names(items + [item]) == Names(items) + [item.NameOf()]
  {
  }

  /** A report that leaves goes from the front of the waiting ones to the end of those that have left. */
  lemma NamesMove(done: seq<Item>, waiting: seq<Item>, item: Item)
    requires waiting != [] && item.NameOf() == waiting[0].NameOf()
    ensures Names(done + [item]) + Names(waiting[1..]) == Names(done) + Names(waiting)
  {
    NamesCons(waiting);
    NamesSnoc(done, item);
    Regroup(Names(done), [item.NameOf()], Names(waiting[1..]));
  }

  lemma Regroup(a: seq<Name>, b: seq<Name>, c: seq<Name>)
    ensures (a + b) + c == a + (b + c)
  {
  }

  lemma FinishKeepsOutstanding(s: State, e: Event)
    requires Inv(s) && e.Send? && s.waiting != [] && ActNow(s, e.res, e.now) == Finish
    ensures Outstanding(Step(s, e))
  {
    FirstIsCalled(s);
    FinishStep(s, e);
  }

  lemma FinishStep(s: State, e: Event)
    requires Inv(s) && e.Send? && s.waiting != [] && ActNow(s, e.res, e.now) == Finish
    ensures var t := Step(s, e);
      && t.pool == CalledBack(s) && t.dropped == s.dropped
      && t.waiting == s.waiting[1..] && Uncalled(t.waiting) == s.waiting[1..]
  {
  }

  lemma FinishKeepsAccounted(s: State, e: Event)
    requires Inv(s) && e.Send? && s.waiting != [] && ActNow(s, e.res, e.now) == Finish
    ensures Accounted(Step(s, e))
  {
    CallbackKeepsKinds(s);
    NamesMove(s.done, s.waiting, s.waiting[0].(calls := s.waiting[0].calls + 1));
  }

  lemma FinishKeepsInv(s: State, e: Event)
    requires Inv(s) && e.Send? && s.waiting != [] && ActNow(s, e.res, e.now) == Finish
    ensures Inv(Step(s, e))
  {
    FinishKeepsOutstanding(s, e);
    FinishKeepsAccounted(s, e);
  }

  lemma StepKeepsInv(s: State, e: Event)
    requires Inv(s)
    ensures Inv(Step(s, e))
  {
    if e.Report? {
      ReportKeepsInv(s, e);
    } else if s.waiting != [] {
      match ActNow(s, e.res, e.now)
      case Keep =>
      case Retry => RetryKeepsInv(s, e);
      case Finish => FinishKeepsInv(s, e);
      case Drop =>
    }
  }

  lemma {:induction false} RunKeepsInv(s: State, es: seq<Event>)
    requires Inv(s)
    ensures Inv(Run(s, es))
    decreases |es|
  {
    if es != [] {
      StepKeepsInv(s, es[0]);
      RunKeepsInv(Step(s, es[0]), es[1..]);
    }
  }

  /** From the start, in every run: reports leave in order, none is lost, and each is called back once
      and once more for each failed try of it. */
  lemma EveryRun(es: seq<Event>)
    ensures Accounted(Run(Start(), es)) && Outstanding(Run(Start(), es))
  {
    RunKeepsInv(Start(), es);
  }

  // ---- When the pool is safe ----

  /** What can be checked before the step: a report finds fewer than 100 sends outstanding, counting
      those that found no buffer, and a repeated callback finds the record idle, that is, not taken by
      another report meanwhile. */
  predicate Safe(s: State, e: Event)
    requires Formed(s)
  {
    match e
    case Report(encoded, _, _, _, _) =>
      !encoded || |Uncalled(s.waiting)| + |s.dropped| < P.PP_TXINFORMNODE_NUM
    case Send(res, now) =>
      s.waiting != [] && s.waiting[0].calls > 0 && ActNow(s, res, now) in {Retry, Finish} ==>
        s.pool.nodes[s.waiting[0].node].idleflag == 0
  }

  lemma CallbackSafeIff(s: State)
    requires Inv(s) && P.Sound(s.pool) && s.waiting != []
    ensures P.Sound(CalledBack(s)) <==> s.waiting[0].calls == 0 || s.pool.nodes[s.waiting[0].node].idleflag == 0
  {
    P.StepSafeIff(s.pool, P.Callback(IndexOf(s.pool.out, s.waiting[0].TicketOf())));
    P.StepSafeIff(s.pool, P.CallbackAgain(s.waiting[0].node));
  }

  lemma StepSafeIff(s: State, e: Event)
    requires Inv(s) && P.Sound(s.pool)
    ensures P.Sound(Step(s, e).pool) <==> Safe(s, e)
  {
    match e
    case Report(encoded, _, mid, huBooking, now) =>
      OutstandingCount(s);
      P.StepSafeIff(s.pool, P.Report(encoded, mid, huBooking, now));
    case Send(res, now) =>
      if s.waiting != [] { CallbackSafeIff(s); }
  }

  ghost predicate AllSafe(s: State, es: seq<Event>)
    requires Formed(s)
    decreases |es|
  {
    es == [] || (Safe(s, es[0]) && AllSafe(Step(s, es[0]), es[1..]))
  }

  ghost predicate AlwaysSound(s: State, es: seq<Event>)
    requires Formed(s)
    decreases |es|
  {
    P.Sound(s.pool) && (es == [] || AlwaysSound(Step(s, es[0]), es[1..]))
  }

  /** No record is ever shared exactly when every report finds room and every repeated callback finds
      its record idle. */
  lemma {:induction false} RunSafeIff(s: State, es: seq<Event>)
    requires Inv(s) && P.Sound(s.pool)
    ensures AlwaysSound(s, es) <==> AllSafe(s, es)
    decreases |es|
  {
    if es != [] {
      StepSafeIff(s, es[0]);
      StepKeepsInv(s, es[0]);
      if Safe(s, es[0]) {
        RunSafeIff(Step(s, es[0]), es[1..]);
      } else {
        NotSoundNow(Step(s, es[0]), es[1..]);
      }
    }
  }

  lemma NotSoundNow(s: State, es: seq<Event>)
    requires Formed(s) && !P.Sound(s.pool)
    ensures !AlwaysSound(s, es)
  {
  }

  /** A try of a continuing packet that fails. */
  predicate FailsContinuing(s: State, e: Event)
    requires Formed(s)
  {
    e.Send? && e.res == Failed && s.waiting != [] && Kind(s) == P.Continue
  }

  ghost predicate Smooth(s: State, es: seq<Event>)
    requires Formed(s)
    decreases |es|
  {
    es == [] ||
    (&& !FailsContinuing(s, es[0])
     && (es[0].Report? && es[0].encoded ==> |s.waiting| + |s.dropped| < P.PP_TXINFORMNODE_NUM)
     && Smooth(Step(s, es[0]), es[1..]))
  }

  /** In particular the pool is safe in every run in which no continuing packet fails and, when a report
      is added, fewer than 100 wait or have found no buffer. */
  lemma {:induction false} SmoothRunIsSafe(s: State, es: seq<Event>)
    requires Inv(s) && P.Sound(s.pool) && Smooth(s, es) && (s.waiting != [] ==> s.waiting[0].calls == 0)
    ensures AllSafe(s, es) && AlwaysSound(s, es)
    decreases |es|
  {
    if es != [] {
      SmoothStep(s, es[0]);
      StepSafeIff(s, es[0]);
      StepKeepsInv(s, es[0]);
      SmoothRunIsSafe(Step(s, es[0]), es[1..]);
    }
  }

  lemma SmoothStep(s: State, e: Event)
    requires Inv(s) && (s.waiting != [] ==> s.waiting[0].calls == 0) && !FailsContinuing(s, e)
    requires e.Report? && e.encoded ==> |s.waiting| + |s.dropped| < P.PP_TXINFORMNODE_NUM
    ensures Safe(s, e)
    ensures var t := Step(s, e); t.waiting != [] ==> t.waiting[0].calls == 0
  {
  }

  // ---- What becomes of a report ----

  /** Whether a try lets the report go, by its kind: one of the timed kind unless the sender was busy in
      time, a triggered one in any case, a continuing one when it was sent. */
  predicate LetsGo(kind: P.PackageType, res: Res, late: bool) {
    match kind
    case SigTime => late || res != Waits
    case SigTrig => true
    case Continue => res == Went
    case Unknown => true
  }

  /** What its callback tells in a try: nothing while it waits, success when it was sent, and of the timed
      kind only if in time. */
  function TellsOf(kind: P.PackageType, mid: nat, res: Res, late: bool): seq<Told> {
    if kind == P.SigTime && late then [Told(mid, false)]
    else if res == Waits && kind != P.SigTrig then []
    else [Told(mid, res == Went)]
  }

  /** One try. */
  lemma TryIs(s: State, res: Res, now: nat)
    requires Inv(s) && s.waiting != []
    ensures var t, late := Step(s, Send(res, now)), CtrlLog.Elapsed(now, Made(s)) >= 2000;
      && t.told == s.told + TellsOf(Kind(s), s.waiting[0].mid, res, late)
      && if LetsGo(Kind(s), res, late) then t.waiting == s.waiting[1..]
         else t.waiting[1..] == s.waiting[1..] && t.waiting != [] && t.waiting[0].NameOf() == s.waiting[0].NameOf()
              && Kind(t) == Kind(s) && Made(t) == Made(s)
  {
    CallbackKeepsKinds(s);
    assert s.told + [] == s.told;
  }

  /** A pack of unknown kind leaves the queue without being sent or called back. */
  lemma UnknownIsLost(s: State, res: Res, now: nat)
    requires Formed(s) && s.waiting != [] && Kind(s) == P.Unknown
    ensures var t := Step(s, Send(res, now));
      t.waiting == s.waiting[1..] && t.lost == s.lost + [s.waiting[0]] && t.pool == s.pool && t.told == s.told
  {
  }

  /** When the first report was made. */
  function Made(s: State): nat
    requires Formed(s) && s.waiting != []
  {
    s.pool.nodes[s.waiting[0].node].eventtime
  }

  datatype Try = Try(res: Res, now: nat)

  function Tries(ts: seq<Try>): (r: seq<Event>)
    ensures |r| == |ts| && forall i :: 0 <= i < |ts| ==> r[i] == Send(ts[i].res, ts[i].now)
  {
    seq(|ts|, i requires 0 <= i < |ts| => Send(ts[i].res, ts[i].now))
  }

  function TellsAll(kind: P.PackageType, mid: nat, made: nat, ts: seq<Try>): seq<Told> {
    if ts == [] then []
    else TellsOf(kind, mid, ts[0].res, CtrlLog.Elapsed(ts[0].now, made) >= 2000) + TellsAll(kind, mid, made, ts[1..])
  }

  /** From `s` to `t` the first report has stayed first, and the callbacks have told `more`. */
  ghost predicate GoesOn(s: State, t: State, more: seq<Told>) {
    && Inv(s) && Inv(t) && s.waiting != [] && t.waiting != []
    && t.waiting[0].NameOf() == s.waiting[0].NameOf() && t.waiting[1..] == s.waiting[1..]
    && Kind(t) == Kind(s) && Made(t) == Made(s) && t.told == s.told + more
  }

  lemma GoesOnTwice(s: State, t: State, u: State, a: seq<Told>, b: seq<Told>)
    requires GoesOn(s, t, a) && GoesOn(t, u, b)
    ensures GoesOn(s, u, a + b)
  {
  }

  lemma OneTryGoesOn(s: State, x: Try)
    requires Inv(s) && s.waiting != [] && !LetsGo(Kind(s), x.res, CtrlLog.Elapsed(x.now, Made(s)) >= 2000)
    ensures GoesOn(s, Step(s, Send(x.res, x.now)),
                   TellsOf(Kind(s), s.waiting[0].mid, x.res, CtrlLog.Elapsed(x.now, Made(s)) >= 2000))
  {
    TryIs(s, x.res, x.now);
    StepKeepsInv(s, Send(x.res, x.now));
  }

  ghost predicate NoneLetsGo(kind: P.PackageType, made: nat, ts: seq<Try>) {
    forall i :: 0 <= i < |ts| ==> !LetsGo(kind, ts[i].res, CtrlLog.Elapsed(ts[i].now, made) >= 2000)
  }

  lemma StaysFirst(s: State)
    requires Inv(s) && s.waiting != []
    ensures GoesOn(s, s, [])
  {
    assert s.told + [] == s.told;
  }

  /** Any number of tries that do not let the first report go leave it first, each told as it should be. */
  lemma {:induction false} TriesGoOn(s: State, ts: seq<Try>)
    requires Inv(s) && s.waiting != [] && NoneLetsGo(Kind(s), Made(s), ts)
    ensures GoesOn(s, Run(s, Tries(ts)), TellsAll(Kind(s), s.waiting[0].mid, Made(s), ts))
    decreases |ts|
  {
    if ts == [] {
      StaysFirst(s);
    } else {
      var u := Step(s, Send(ts[0].res, ts[0].now));
      OneTryGoesOn(s, ts[0]);
      TriesGoOn(u, ts[1..]);
      assert Tries(ts)[1..] == Tries(ts[1..]);
      GoesOnTwice(s, u, Run(u, Tries(ts[1..])),
                  TellsOf(Kind(s), s.waiting[0].mid, ts[0].res, CtrlLog.Elapsed(ts[0].now, Made(s)) >= 2000),
                  TellsAll(Kind(u), u.waiting[0].mid, Made(u), ts[1..]));
    }
  }

  /** What becomes of the report that waits longest: after any number of tries that do not let it go, the try
      that does takes it from the queue, and the callbacks have told of each try what it came to. */
  lemma ReportGoes(s: State, ts: seq<Try>, last: Try)
    requires Inv(s) && s.waiting != [] && NoneLetsGo(Kind(s), Made(s), ts)
    requires LetsGo(Kind(s), last.res, CtrlLog.Elapsed(last.now, Made(s)) >= 2000)
    ensures var t := Step(Run(s, Tries(ts)), Send(last.res, last.now));
      && t.waiting == s.waiting[1..]
      && t.told == s.told + TellsAll(Kind(s), s.waiting[0].mid, Made(s), ts)
                   + TellsOf(Kind(s), s.waiting[0].mid, last.res, CtrlLog.Elapsed(last.now, Made(s)) >= 2000)
  {
    TriesGoOn(s, ts);
    TryIs(Run(s, Tries(ts)), last.res, last.now);
  }

  /** A report joins the end of the queue with its id and the time it was made, the head unit's booking answer
      as one of the timed kind and any other as a continuing one. */
  lemma ReportJoins(s: State, mid: nat, huBooking: bool, now: nat)
    requires Inv(s)
    ensures var t := Step(s, Report(true, true, mid, huBooking, now));
      && |t.waiting| == |s.waiting| + 1 && t.waiting[..|s.waiting|] == s.waiting && t.told == s.told
      && var item := t.waiting[|s.waiting|];
         var record := t.pool.nodes[item.node];
         && item.mid == mid && record.mid == mid && record.eventtime == now && record.aid == 110
         && record.pakgtype == if huBooking then P.SigTime else P.Continue
  {
  }

  // ---- Sends that found no buffer ----

  /** In a sound pool a record is busy exactly when a waiting report that was not called back holds it,
      or a send that found no buffer. */
  lemma BusyIff(s: State, i: nat)
    requires Inv(s) && P.Sound(s.pool) && i < P.PP_TXINFORMNODE_NUM
    ensures s.pool.nodes[i].idleflag != 0 <==>
      P.Holds(Tickets(Uncalled(s.waiting)), i) || P.Holds(s.dropped, i)
  {
    HoldsInEither(s.pool.out, Tickets(Uncalled(s.waiting)), s.dropped, i);
    if P.Holds(s.pool.out, i) {
      var t :| 0 <= t < |s.pool.out| && s.pool.out[t].node == i;
    }
  }

  lemma HoldsInEither(all: seq<P.Ticket>, a: seq<P.Ticket>, b: seq<P.Ticket>, i: nat)
    requires multiset(all) == multiset(a) + multiset(b)
    ensures P.Holds(all, i) <==> P.Holds(a, i) || P.Holds(b, i)
  {
    if P.Holds(all, i) {
      var t :| 0 <= t < |all| && all[t].node == i;
      assert all[t] in multiset(a) + multiset(b);
      assert all[t] in a || all[t] in b;
    }
    if P.Holds(a, i) {
      var t :| 0 <= t < |a| && a[t].node == i;
      assert a[t] in multiset(all);
    }
    if P.Holds(b, i) {
      var t :| 0 <= t < |b| && b[t].node == i;
      assert b[t] in multiset(all);
    }
  }

  lemma {:induction false} DroppedStay(s: State, es: seq<Event>)
    requires Formed(s)
    ensures s.dropped <= Run(s, es).dropped
    decreases |es|
  {
    if es != [] {
      DroppedStay(Step(s, es[0]), es[1..]);
    }
  }

  lemma {:induction false} SafeRunEndsSound(s: State, es: seq<Event>)
    requires Inv(s) && P.Sound(s.pool) && AllSafe(s, es)
    ensures Inv(Run(s, es)) && P.Sound(Run(s, es).pool)
    decreases |es|
  {
    if es != [] {
      StepSafeIff(s, es[0]);
      StepKeepsInv(s, es[0]);
      SafeRunEndsSound(Step(s, es[0]), es[1..]);
    }
  }

  /** The record of a send that found no buffer is never used again: it stays busy over every run in
      which no record is shared. */
  lemma DroppedRecordStaysBusy(s: State, es: seq<Event>, d: nat)
    requires Inv(s) && P.Sound(s.pool) && AllSafe(s, es) && d < |s.dropped|
    ensures s.dropped[d].node < P.PP_TXINFORMNODE_NUM
    ensures Run(s, es).pool.nodes[s.dropped[d].node].idleflag != 0
  {
    DroppedStay(s, es);
    SafeRunEndsSound(s, es);
    DroppedIsInTable(s, d);
    var t := Run(s, es);
    assert t.dropped[d] == s.dropped[d] && P.Holds(t.dropped, s.dropped[d].node);
    BusyIff(t, s.dropped[d].node);
  }

  lemma DroppedIsInTable(s: State, d: nat)
    requires Inv(s) && P.Sound(s.pool) && d < |s.dropped|
    ensures s.dropped[d].node < P.PP_TXINFORMNODE_NUM
  {
    assert s.dropped[d] in multiset(s.pool.out);
    var t :| 0 <= t < |s.pool.out| && s.pool.out[t] == s.dropped[d];
  }

  /** Reports that find no buffer. */
  function Drops(n: nat, mid: nat, now: nat): seq<Event> {
    if n == 0 then [] else [Report(true, false, mid, false, now)] + Drops(n - 1, mid, now)
  }

  lemma {:induction false} DropMany(s: State, n: nat, mid: nat, now: nat)
    requires Inv(s) && P.Sound(s.pool) && s.waiting == [] && |s.dropped| + n <= P.PP_TXINFORMNODE_NUM
    ensures var t := Run(s, Drops(n, mid, now));
      Inv(t) && P.Sound(t.pool) && t.waiting == [] && |t.dropped| == |s.dropped| + n
    decreases n
  {
    if n > 0 {
      var e := Report(true, false, mid, false, now);
      StepSafeIff(s, e);
      StepKeepsInv(s, e);
      DropMany(Step(s, e), n - 1, mid, now);
      assert Drops(n, mid, now)[1..] == Drops(n - 1, mid, now);
    }
  }

  /** A run from the start: after a hundred reports that find no buffer nothing waits and no record is
      shared, and then the next report shares one. */
  lemma DropsUseUpThePool(mid: nat, now: nat, e: Event)
    requires e.Report? && e.encoded
    ensures var t := Run(Start(), Drops(P.PP_TXINFORMNODE_NUM, mid, now));
      t.waiting == [] && P.Sound(t.pool) && !P.Sound(Step(t, e).pool)
  {
    DropMany(Start(), P.PP_TXINFORMNODE_NUM, mid, now);
    StepSafeIff(Run(Start(), Drops(P.PP_TXINFORMNODE_NUM, mid, now)), e);
  }

  // ---- A run that shares a record ----

  lemma RunOfTwo(s: State, a: Event, b: Event)
    requires Formed(s)
    ensures Run(s, [a, b]) == Step(Step(s, a), b)
  {
    assert [a, b][1..] == [b] && [b][1..] == [];
    assert Run(s, [a, b]) == Run(Step(s, a), [b]);
  }

  lemma CallbackOfOnly(s: State)
    requires Formed(s) && s.waiting != []
    requires s.waiting[0].calls == 0 ==> s.pool.out == [s.waiting[0].TicketOf()]
    ensures CalledBack(s).out == (if s.waiting[0].calls == 0 then [] else s.pool.out)
    ensures CalledBack(s).nodes[s.waiting[0].node].idleflag == 0
  {
  }

  lemma RetriedFirst(s: State, now: nat)
    requires Inv(s) && s.waiting != [] && s.waiting[0].node == 0 && s.pool.nodes[0].pakgtype == P.Continue
    requires s.waiting[0].calls == 0 ==> s.pool.out == [s.waiting[0].TicketOf()]
    ensures var u := Step(s, Send(Failed, now));
      && u.waiting == [s.waiting[0].(fails := s.waiting[0].fails + 1, calls := s.waiting[0].calls + 1)] + s.waiting[1..]
      && u.pool.out == (if s.waiting[0].calls == 0 then [] else s.pool.out)
      && u.pool.nodes[0].idleflag == 0
  {
    CallbackOfOnly(s);
  }

  /** A try fails and another report comes, with record 0 idle afterwards. */
  lemma FailThenReport(s: State, other: nat, now: nat)
    requires Inv(s) && s.waiting != [] && s.waiting[0].node == 0 && s.pool.nodes[0].pakgtype == P.Continue
    requires s.waiting[0].calls == 0 ==> s.pool.out == [s.waiting[0].TicketOf()]
    ensures var t := Step(Step(s, Send(Failed, now)), Report(true, true, other, false, now));
      && t.waiting == [s.waiting[0].(fails := s.waiting[0].fails + 1, calls := s.waiting[0].calls + 1)] + s.waiting[1..]
                      + [Item(0, other, 0, 0)]
      && t.pool.out == (if s.waiting[0].calls == 0 then [] else s.pool.out) + [P.Ticket(0, other)]
      && t.pool.nodes[0].pakgtype == P.Continue
  {
    RetriedFirst(s, now);
    var u := Step(s, Send(Failed, now));
    P.ReportTakesFirst(u.pool, other, now);
    assert P.IdleNode(u.pool.nodes) == 0;
  }

  /** A report has come to the cleared table. */
  lemma FirstReport(a: nat, now: nat)
    ensures var s := Step(Start(), Report(true, true, a, false, now));
      && Inv(s) && s.waiting == [Item(0, a, 0, 0)] && s.pool.out == [P.Ticket(0, a)]
      && s.pool.nodes[0].pakgtype == P.Continue
  {
    P.ReportTakesFirst(Start().pool, a, now);
    StepKeepsInv(Start(), Report(true, true, a, false, now));
    assert P.IdleNode(Start().pool.nodes) == 0;
  }

  /** A failed try and another report. */
  function FailAndReport(other: nat, now: nat): seq<Event> {
    [Send(Failed, now), Report(true, true, other, false, now)]
  }

  lemma FailAndReportRun(s: State, other: nat, now: nat)
    requires Inv(s) && s.waiting != [] && s.waiting[0].node == 0 && s.pool.nodes[0].pakgtype == P.Continue
    requires s.waiting[0].calls == 0 ==> s.pool.out == [s.waiting[0].TicketOf()]
    ensures var t := Run(s, FailAndReport(other, now));
      && Inv(t) && t.waiting != [] && t.waiting[0].node == 0 && t.waiting[0].calls == s.waiting[0].calls + 1
      && t.pool.out == (if s.waiting[0].calls == 0 then [] else s.pool.out) + [P.Ticket(0, other)]
      && t.pool.nodes[0].pakgtype == P.Continue
  {
    FailThenReport(s, other, now);
    RunOfTwo(s, Send(Failed, now), Report(true, true, other, false, now));
    RunKeepsInv(s, FailAndReport(other, now));
  }

  /** From the start: a report fails, the next one takes its record, the first fails again, and the
      third takes the record of the second: two outstanding sends share it. */
  lemma TwoFailuresShareARecord(a: nat, b: nat, c: nat, now: nat)
    ensures var s := Step(Start(), Report(true, true, a, false, now));
      var t := Run(Run(s, FailAndReport(b, now)), FailAndReport(c, now));
      t.pool.out == [P.Ticket(0, b), P.Ticket(0, c)] && !P.Sound(t.pool)
  {
    FirstFailure(a, b, now);
    SecondFailure(Run(Step(Start(), Report(true, true, a, false, now)), FailAndReport(b, now)), b, c, now);
  }

  /** The first report has failed once, and the second holds record 0. */
  ghost predicate FailedOnce(s: State, b: nat) {
    && Inv(s) && s.waiting != [] && s.waiting[0].node == 0 && s.waiting[0].calls == 1
    && s.pool.nodes[0].pakgtype == P.Continue && s.pool.out == [P.Ticket(0, b)]
  }

  lemma FirstFailure(a: nat, b: nat, now: nat)
    ensures FailedOnce(Run(Step(Start(), Report(true, true, a, false, now)), FailAndReport(b, now)), b)
  {
    FirstReport(a, now);
    FailAndReportRun(Step(Start(), Report(true, true, a, false, now)), b, now);
  }

  lemma SecondFailure(s: State, b: nat, c: nat, now: nat)
    requires FailedOnce(s, b)
    ensures var t := Run(s, FailAndReport(c, now));
      t.pool.out == [P.Ticket(0, b), P.Ticket(0, c)] && !P.Sound(t.pool)
  {
    FailAndReportRun(s, c, now);
    SharedIsUnsound(Run(s, FailAndReport(c, now)).pool, b, c);
  }

  lemma SharedIsUnsound(p: P.Pool, b: nat, c: nat)
    requires p.out == [P.Ticket(0, b), P.Ticket(0, c)]
    ensures !P.Sound(p)
  {
    assert p.out[0].node == p.out[1].node;
  }

  // ---- The C file's own form ----

  class Sender {
    const pool: P.SendPool
    var waiting: seq<Item>
    ghost var done: seq<Item>
    ghost var lost: seq<Item>
    ghost var accepted: seq<Name>
    ghost var dropped: seq<P.Ticket>
    ghost var told: seq<Told>

    ghost function View(): State
      reads this, pool, pool.nodes
    {
      State(pool.View(), waiting, done, lost, accepted, dropped, told)
    }

    constructor ()
      ensures View() == Start()
    {
      pool := new P.SendPool();
      waiting, done, lost, accepted, dropped, told := [], [], [], [], [], [];
    }

    /** The callback for the pack taken. */
    method CallBack(success: bool)
      requires Formed(View()) && Outstanding(View()) && waiting != []
      modifies pool.nodes, pool`out
      ensures pool.View() == CalledBack(old(View()))
    {
      CallbackOfFirst(View());
      ghost var ticket := waiting[0].TicketOf();
      ghost var index := if waiting[0].calls == 0 then IndexOf(pool.out, ticket) else |pool.out|;
      var _ := pool.SendCallback(index, waiting[0].node, success);
    }

    /** `sockproxy_do_send`, for a pack with a record of this pool; `res` is what sending it answers. */
    method DoSend(res: Res, now: nat)
      requires Formed(View()) && Outstanding(View())
      modifies this`waiting, this`done, this`lost, this`told, pool.nodes, pool`out
      ensures View() == Step(old(View()), Send(res, now))
    {
      if waiting == [] {
        return;
      }
      var rpt := waiting[0];
      match pool.nodes[rpt.node].pakgtype
      case SigTime =>
        if CtrlLog.Elapsed(now, pool.nodes[rpt.node].eventtime) < SOCK_TXPAKG_OUTOFTIME {
          if res == Failed {
            PutSend(false);
          } else if res == Waits {
            return;
          } else {
            PutSend(true);
          }
        } else {
          PutSend(false);
        }
      case SigTrig =>
        PutSend(res == Went);
      case Continue =>
        if res == Failed {
          CallBack(false);
          told := told + [Told(rpt.mid, false)];
          waiting := [rpt.(fails := rpt.fails + 1, calls := rpt.calls + 1)] + waiting[1..];
        } else if res == Waits {
          return;
        } else {
          PutSend(true);
        }
      case Unknown =>
        waiting := waiting[1..];
        lost := lost + [rpt];
    }

    /** The pack goes to the sent ring and its callback runs. */
    method PutSend(success: bool)
      requires Formed(View()) && Outstanding(View()) && waiting != []
      modifies this`waiting, this`done, this`told, pool.nodes, pool`out
      ensures View() == old(View()).(pool := CalledBack(old(View())), waiting := old(waiting)[1..],
                                     done := old(done) + [old(waiting)[0].(calls := old(waiting)[0].calls + 1)],
                                     told := old(told) + [Told(old(waiting)[0].mid, success)])
    {
      CallBack(success);
      told := told + [Told(waiting[0].mid, success)];
      done := done + [waiting[0].(calls := waiting[0].calls + 1)];
      waiting := waiting[1..];
    }
  }
}
