/** The pool of 100 transmit records of PP_rmtCtrl.c: a record is taken for every report that is
    sent and released by the send callback. */
module SendPool {

  const PP_TXINFORMNODE_NUM: nat := 100
  const PP_AID_RMTCTRL: nat := 110
  const PP_MID_RMTCTRL_HUBOOKINGRESP: nat := 4

  datatype PackageType = Unknown | Continue | SigTrig | SigTime

  datatype TxInform = TxInform(idleflag: nat, aid: nat, mid: nat, pakgtype: PackageType, eventtime: nat)

  const Cleared: TxInform := TxInform(0, 0, 0, Unknown, 0)

  /** A send whose callback has not run: the record it was given and the message id it sent. */
  datatype Ticket = Ticket(node: nat, mid: nat)

  /** The table and, ghostly, the sends still outstanding. */
  datatype Pool = Pool(nodes: seq<TxInform>, out: seq<Ticket>)

  /** The first record that is not in use; 0 when all are. */
  function IdleNode(nodes: seq<TxInform>): (i: nat)
    requires |nodes| > 0
    ensures i < |nodes|
  {
    if exists i :: 0 <= i < |nodes| && nodes[i].idleflag == 0 then
      FirstIdle(nodes, 0)
    else 0
  }

  function FirstIdle(nodes: seq<TxInform>, from: nat): (i: nat)
    requires exists i :: from <= i < |nodes| && nodes[i].idleflag == 0
    ensures from <= i < |nodes| && nodes[i].idleflag == 0
    ensures forall k :: from <= k < i ==> nodes[k].idleflag != 0
    decreases |nodes| - from
  {
    if nodes[from].idleflag == 0 then from else FirstIdle(nodes, from + 1)
  }

  datatype Event =
    /** A report: whether its encoding worked, its message id and type, and the clock. */
    | Report(encoded: bool, mid: nat, huBooking: bool, now: nat)
    /** The callback of outstanding send number `ticket`. */
    | Callback(ticket: nat)
    /** A callback for a record whose send has already been called back. */
    | CallbackAgain(node: nat)

  /** A failed encoding returns before a record is taken. */
  function Step(p: Pool, e: Event): (p': Pool)
    requires |p.nodes| == PP_TXINFORMNODE_NUM
    ensures |p'.nodes| == PP_TXINFORMNODE_NUM
  {
    match e
    case Report(encoded, mid, huBooking, now) =>
      if !encoded then p
      else
        var i := IdleNode(p.nodes);
        var kind := if huBooking then SigTime else Continue;
        Pool(p.nodes[i := TxInform(1, PP_AID_RMTCTRL, mid, kind, now)], p.out + [Ticket(i, mid)])
    case Callback(t) =>
      if t < |p.out| && p.out[t].node < |p.nodes| then
        Pool(p.nodes[p.out[t].node := p.nodes[p.out[t].node].(idleflag := 0)], p.out[..t] + p.out[t + 1..])
      else p
    case CallbackAgain(n) =>
      if n < |p.nodes| then p.(nodes := p.nodes[n := p.nodes[n].(idleflag := 0)]) else p
  }

  /** No record is held by two outstanding sends, a record is in use exactly when some outstanding
      send holds it, and it still carries that send's message id. */
  ghost predicate Sound(p: Pool) {
    && |p.nodes| == PP_TXINFORMNODE_NUM
    && (forall t :: 0 <= t < |p.out| ==> p.out[t].node < |p.nodes|)
    && (forall t :: 0 <= t < |p.out| ==>
          p.nodes[p.out[t].node].idleflag == 1 && p.nodes[p.out[t].node].mid == p.out[t].mid)
    && (forall t, u :: 0 <= t < u < |p.out| ==> p.out[t].node != p.out[u].node)
    && (forall i :: 0 <= i < |p.nodes| && p.nodes[i].idleflag != 0 ==> Holds(p.out, i))
  }

  ghost predicate Holds(out: seq<Ticket>, i: nat) {
    exists t :: 0 <= t < |out| && out[t].node == i
  }

  function NodesOf(out: seq<Ticket>): (r: seq<nat>)
    ensures |r| == |out| && forall t :: 0 <= t < |out| ==> r[t] == out[t].node
  {
    seq(|out|, t requires 0 <= t < |out| => out[t].node)
  }

  /** Numbers below `n` without repetition are at most `n` many. */
  lemma {:induction false} AtMost(s: seq<nat>, n: nat)
    requires forall i :: 0 <= i < |s| ==> s[i] < n
    requires forall i, j :: 0 <= i < j < |s| ==> s[i] != s[j]
    ensures |s| <= n
  {
    if s != [] {
      assert s[0] < n;
      if n - 1 in s {
        var k :| 0 <= k < |s| && s[k] == n - 1;
        AtMost(s[..k] + s[k + 1..], n - 1);
      } else {
        AtMost(s, n - 1);
      }
    }
  }

  /** A sequence that contains all numbers below `n` has at least `n` elements. */
  lemma {:induction false} AtLeast(s: seq<nat>, n: nat)
    requires forall i: nat :: i < n ==> i in s
    ensures |s| >= n
  {
    if n > 0 {
      var last: nat := n - 1;
      assert last in s;
      var k :| 0 <= k < |s| && s[k] == last;
      var rest := s[..k] + s[k + 1..];
      forall i: nat | i < n - 1
        ensures i in rest
      {
        assert i in s;
        var j :| 0 <= j < |s| && s[j] == i;
        assert rest[if j < k then j else j - 1] == i;
      }
      AtLeast(rest, n - 1);
    }
  }

  lemma RoomMeansIdle(p: Pool)
    requires Sound(p)
    ensures |p.out| <= PP_TXINFORMNODE_NUM
    ensures |p.out| < PP_TXINFORMNODE_NUM <==> p.nodes[IdleNode(p.nodes)].idleflag == 0
  {
    AtMost(NodesOf(p.out), PP_TXINFORMNODE_NUM);
    if forall i :: 0 <= i < |p.nodes| ==> p.nodes[i].idleflag != 0 {
      forall i: nat | i < PP_TXINFORMNODE_NUM
        ensures i in NodesOf(p.out)
      {
        assert p.nodes[i].idleflag != 0 && Holds(p.out, i);
        var t :| 0 <= t < |p.out| && p.out[t].node == i;
        assert NodesOf(p.out)[t] == i;
      }
      AtLeast(NodesOf(p.out), PP_TXINFORMNODE_NUM);
    } else {
      var i :| 0 <= i < |p.nodes| && p.nodes[i].idleflag == 0;
      var all := NodesOf(p.out) + [i];
      AtMost(all, PP_TXINFORMNODE_NUM);
    }
  }

  /** A report keeps the pool sound exactly when its encoding fails or fewer than 100 sends are
      outstanding; with 100 outstanding, record 0 gets a second holder. */
  lemma ReportSafeIff(p: Pool, e: Event)
    requires Sound(p) && e.Report?
    ensures Sound(Step(p, e)) <==> !e.encoded || |p.out| < PP_TXINFORMNODE_NUM
    ensures e.encoded && |p.out| == PP_TXINFORMNODE_NUM ==> Step(p, e).out == p.out + [Ticket(0, e.mid)]
  {
    RoomMeansIdle(p);
    if e.encoded {
      var p' := Step(p, e);
      var i := IdleNode(p.nodes);
      if |p.out| < PP_TXINFORMNODE_NUM {
        forall k | 0 <= k < |p'.nodes| && p'.nodes[k].idleflag != 0
          ensures Holds(p'.out, k)
        {
          if k == i {
            assert p'.out[|p.out|].node == k;
          } else {
            var t :| 0 <= t < |p.out| && p.out[t].node == k;
            assert p'.out[t].node == k;
          }
        }
        assert Sound(p');
      } else {
        if Sound(p') { RoomMeansIdle(p'); }
      }
    }
  }

  function Without(out: seq<Ticket>, t: nat): (r: seq<Ticket>)
    requires t < |out|
    ensures |r| == |out| - 1
    ensures forall u :: 0 <= u < |r| ==> r[u] == out[if u < t then u else u + 1]
  {
    out[..t] + out[t + 1..]
  }

  lemma OthersStillHeld(out: seq<Ticket>, t: nat, k: nat)
    requires t < |out| && Holds(out, k) && out[t].node != k
    ensures Holds(Without(out, t), k)
  {
    var u :| 0 <= u < |out| && out[u].node == k;
    assert Without(out, t)[if u < t then u else u - 1].node == k;
  }

  lemma CallbackIsSafe(p: Pool, t: nat)
    requires Sound(p) && t < |p.out|
    ensures Sound(Step(p, Callback(t)))
  {
    var n := p.out[t].node;
    var nodes', out' := p.nodes[n := p.nodes[n].(idleflag := 0)], Without(p.out, t);
    assert Step(p, Callback(t)) == Pool(nodes', out');
    assert forall u :: 0 <= u < |out'| ==> out'[u].node != n;
    forall k | 0 <= k < |nodes'| && nodes'[k].idleflag != 0
      ensures Holds(out', k)
    {
      OthersStillHeld(p.out, t, k);
    }
  }

  /** What a caller can check before the step: a report finds room, a repeated callback finds its
      record idle.  The callback of an outstanding send is always harmless. */
  predicate Harmless(p: Pool, e: Event) {
    match e
    case Report(encoded, _, _, _) => !encoded || |p.out| < PP_TXINFORMNODE_NUM
    case Callback(_) => true
    case CallbackAgain(n) => n >= |p.nodes| || p.nodes[n].idleflag == 0
  }

  /** A repeated callback keeps the pool sound exactly when its record is idle; otherwise it frees
      the record of another send. */
  lemma CallbackAgainSafeIff(p: Pool, n: nat)
    requires Sound(p)
    ensures Sound(Step(p, CallbackAgain(n))) <==> Harmless(p, CallbackAgain(n))
  {
    var p' := Step(p, CallbackAgain(n));
    if n < |p.nodes| {
      if p.nodes[n].idleflag == 0 {
        assert p'.nodes == p.nodes;
      } else {
        assert Holds(p.out, n);
        var t :| 0 <= t < |p.out| && p.out[t].node == n;
        assert p'.nodes[p'.out[t].node].idleflag == 0;
      }
    }
  }

  lemma StepSafeIff(p: Pool, e: Event)
    requires Sound(p)
    ensures Sound(Step(p, e)) <==> Harmless(p, e)
  {
    match e
    case Report(_, _, _, _) => ReportSafeIff(p, e);
    case Callback(t) => if t < |p.out| { CallbackIsSafe(p, t); }
    case CallbackAgain(n) => CallbackAgainSafeIff(p, n);
  }

  function Run(p: Pool, es: seq<Event>): (p': Pool)
    requires |p.nodes| == PP_TXINFORMNODE_NUM
    ensures |p'.nodes| == PP_TXINFORMNODE_NUM
  {
    if es == [] then p else Step(Run(p, es[..|es| - 1]), es[|es| - 1])
  }

  /** Each event was harmless when it came. */
  ghost predicate AllHarmless(p: Pool, es: seq<Event>)
    requires |p.nodes| == PP_TXINFORMNODE_NUM
  {
    forall k {:trigger es[k]} :: 0 <= k < |es| ==> Harmless(Run(p, es[..k]), es[k])
  }

  ghost predicate AlwaysSound(p: Pool, es: seq<Event>)
    requires |p.nodes| == PP_TXINFORMNODE_NUM
  {
    forall k {:trigger es[..k]} :: 0 <= k <= |es| ==> Sound(Run(p, es[..k]))
  }

  lemma RunOfPrefix(p: Pool, es: seq<Event>, k: nat)
    requires |p.nodes| == PP_TXINFORMNODE_NUM && k < |es|
    ensures Run(p, es[..k + 1]) == Step(Run(p, es[..k]), es[k])
  {
    assert es[..k + 1][..k] == es[..k];
  }

  lemma {:induction false} SoundUpTo(p: Pool, es: seq<Event>, n: nat)
    requires Sound(p) && AllHarmless(p, es) && n <= |es|
    ensures Sound(Run(p, es[..n]))
  {
    if n > 0 {
      SoundUpTo(p, es, n - 1);
      RunOfPrefix(p, es, n - 1);
      StepSafeIff(Run(p, es[..n - 1]), es[n - 1]);
    }
  }

  /** A run keeps the pool sound throughout exactly when every encoded report found fewer than 100
      sends outstanding and every repeated callback found its record idle. */
  lemma RunSoundIff(p: Pool, es: seq<Event>)
    requires Sound(p)
    ensures AlwaysSound(p, es) <==> AllHarmless(p, es)
  {
    if AllHarmless(p, es) {
      forall n | 0 <= n <= |es|
        ensures Sound(Run(p, es[..n]))
      {
        SoundUpTo(p, es, n);
      }
    }
    if AlwaysSound(p, es) {
      forall k | 0 <= k < |es|
        ensures Harmless(Run(p, es[..k]), es[k])
      {
        assert Sound(Run(p, es[..k])) && Sound(Run(p, es[..k + 1]));
        RunOfPrefix(p, es, k);
        StepSafeIff(Run(p, es[..k]), es[k]);
      }
    }
  }

  lemma ReportTakesFirst(p: Pool, mid: nat, now: nat)
    requires |p.nodes| == PP_TXINFORMNODE_NUM && p.nodes[0].idleflag == 0
    ensures Step(p, Report(true, mid, false, now)).out == p.out + [Ticket(0, mid)]
  {
    assert IdleNode(p.nodes) == 0;
  }

  /** The sender calls back a second time when a packet of the continuing kind could not be sent
      and is tried again (sockproxy.c:1120-1149).  A run from the cleared table in which that frees
      the record of another send, and the next report then shares it although only two sends are
      outstanding. */
  lemma SecondCallbackBreaksSharing(mid: nat, other: nat, now: nat)
    ensures var calledBack := Step(Step(Start(), Report(true, mid, false, now)), Callback(0));
      var freed := Step(Step(calledBack, Report(true, mid, false, now)), CallbackAgain(0));
      var p := Step(freed, Report(true, other, false, now));
      Sound(Start()) && |p.out| == 2 && p.out[0].node == p.out[1].node
  {
    ReportTakesFirst(Start(), mid, now);
    var calledBack := Step(Step(Start(), Report(true, mid, false, now)), Callback(0));
    assert calledBack.out == [] && calledBack.nodes[0].idleflag == 0;
    ReportTakesFirst(calledBack, mid, now);
    var freed := Step(Step(calledBack, Report(true, mid, false, now)), CallbackAgain(0));
    ReportTakesFirst(freed, other, now);
  }

  /** The table as `PP_rmtCtrl_init` leaves it. */
  function Start(): Pool {
    Pool(seq(PP_TXINFORMNODE_NUM, _ => Cleared), [])
  }

  class SendPool {
    var nodes: array<TxInform>
    ghost var out: seq<Ticket>

    ghost function View(): Pool
      reads this, nodes
    {
      Pool(nodes[..], out)
    }

    /** `PP_rmtCtrl_init` clears the table. */
    constructor ()
      ensures fresh(nodes) && View() == Start()
    {
      nodes := new TxInform[PP_TXINFORMNODE_NUM](_ => Cleared);
      out := [];
      new;
      assert nodes[..] == Start().nodes;
    }

    /** `PP_rmtCtrl_getIdleNode`: marks and returns the first idle record; when all are busy the
        table is unchanged and the answer is 0. */
    method GetIdleNode() returns (res: nat)
      requires nodes.Length == PP_TXINFORMNODE_NUM
      modifies nodes
      ensures res == IdleNode(old(nodes[..]))
      ensures (forall k :: 0 <= k < nodes.Length ==> old(nodes[k].idleflag) != 0) ==>
        res == 0 && nodes[..] == old(nodes[..])
      ensures (exists k :: 0 <= k < nodes.Length && old(nodes[k].idleflag) == 0) ==>
        nodes[..] == old(nodes[..])[res := old(nodes[..])[res].(idleflag := 1)]
    {
      res := 0;
      var i := 0;
      while i < PP_TXINFORMNODE_NUM
        invariant 0 <= i <= PP_TXINFORMNODE_NUM && res == 0 && nodes[..] == old(nodes[..])
        invariant forall k :: 0 <= k < i ==> nodes[k].idleflag != 0
      {
        if nodes[i].idleflag == 0 {
          ghost var was := nodes[..];
          assert was[i].idleflag == 0;
          nodes[i] := nodes[i].(idleflag := 1);
          res := i;
          break;
        }
        i := i + 1;
      }
    }

    /** The tail of `PP_rmtCtrl_StInformTsp`: nothing is taken when encoding fails. */
    method Inform(encoded: bool, mid: nat, huBooking: bool, now: nat) returns (ret: int)
      requires nodes.Length == PP_TXINFORMNODE_NUM
      modifies nodes, this`out
      ensures View() == Step(old(View()), Report(encoded, mid, huBooking, now))
      ensures ret == if encoded then 0 else -1
    {
      if !encoded {
        return -1;
      }
      ghost var was := nodes[..];
      var i := GetIdleNode();
      nodes[i] := TxInform(1, PP_AID_RMTCTRL, mid, if huBooking then SigTime else Continue, now);
      assert nodes[..] == was[i := nodes[i]];
      out := out + [Ticket(i, mid)];
      ret := 0;
    }

    /** `PP_rmtCtrl_send_cb` for the record `node`.  `ticket` is the outstanding send it is for, or
        the number of such sends when it repeats an earlier one.  The head unit's booking is
        acknowledged exactly when the record carries it and the send has succeeded. */
    method SendCallback(ghost ticket: nat, node: nat, success: bool) returns (huAck: bool)
      requires nodes.Length == PP_TXINFORMNODE_NUM && node < PP_TXINFORMNODE_NUM
      requires ticket <= |out| && (ticket < |out| ==> out[ticket].node == node)
      modifies nodes, this`out
      ensures View() == Step(old(View()), if ticket < |old(out)| then Callback(ticket) else CallbackAgain(node))
      ensures huAck <==> success && old(nodes[node].mid) == PP_MID_RMTCTRL_HUBOOKINGRESP
      ensures old(Sound(View())) && ticket < |old(out)| ==>
        Sound(View()) && (huAck <==> success && old(out)[ticket].mid == PP_MID_RMTCTRL_HUBOOKINGRESP)
    {
      ghost var was, before := nodes[..], View();
      if Sound(before) && ticket < |out| { CallbackIsSafe(before, ticket); }
      huAck := nodes[node].mid == PP_MID_RMTCTRL_HUBOOKINGRESP && success;
      nodes[node] := nodes[node].(idleflag := 0);
      assert nodes[..] == was[node := was[node].(idleflag := 0)];
      if ticket < |out| {
        out := out[..ticket] + out[ticket + 1..];
      }
    }
  }
}
