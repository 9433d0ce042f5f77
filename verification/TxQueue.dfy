/** The transmit queue of sockproxy_txdata.c: a fixed stock of send buffers that move between
    three intrusive rings (free, waiting, sent but not acknowledged) and the hands of the sender. */
module TxQueue {
  import opened IntrusiveList

  const SP_SENDBUFLNG: nat := 1456

  /** What a buffer carries: the bytes and the callback parameter. */
  datatype Message = Message(data: seq<bv8>, para: int)

  ghost function Messages(q: seq<Node>, msg: map<Node, Message>): (r: seq<Message>)
    requires forall n | n in q :: n in msg
    ensures |r| == |q| && forall i :: 0 <= i < |q| ==> r[i] == msg[q[i]]
  {
    seq(|q|, i requires 0 <= i < |q| => msg[q[i]])
  }

  /** Where the buffers are, in ring order; `held` is what the sender has taken out, `lost` what it
      took out and never gave back. */
  datatype Places = Places(free: seq<Node>, waiting: seq<Node>, unacked: seq<Node>, held: Node?, lost: set<Node>) {
    /** The buffers whose message has not left yet, in the order they will leave. */
    function Pending(): seq<Node> {
      (if held == null then [] else [held]) + waiting
    }

    /** The buffers that are in no ring. */
    function Out(): set<Node> {
      if held == null then lost else lost + {held}
    }

    /** The next buffer to use is a free one or else the one sent longest ago. */
    function Stock(): seq<Node> {
      free + unacked
    }

    function WithoutNext(): Places
      requires Stock() != []
    {
      if free != [] then this.(free := free[1..]) else this.(unacked := unacked[1..])
    }
  }

  /** A message that has left the queue, sent or lost. */
  datatype Departure = Departure(msg: Message, sent: bool)

  function Letters(ds: seq<Departure>): (r: seq<Message>)
    ensures |r| == |ds| && forall i :: 0 <= i < |ds| ==> r[i] == ds[i].msg
  {
    seq(|ds|, i requires 0 <= i < |ds| => ds[i].msg)
  }

  /** The messages the queue has taken and let go, in order, and the contents of the buffers. */
  datatype Traffic = Traffic(msg: map<Node, Message>, accepted: seq<Message>, left: seq<Departure>)

  /** What was accepted is what has left, then what the sender holds, then what waits. */
  ghost predicate Fifo(p: Places, t: Traffic) {
    && (forall n | n in p.Pending() :: n in t.msg)
    && t.accepted == Letters(t.left) + Messages(p.Pending(), t.msg)
  }

  lemma FifoAccept(p: Places, p': Places, t: Traffic, n: Node, m: Message)
    requires Fifo(p, t) && n !in p.Pending()
    requires p'.held == p.held && p'.waiting == p.waiting + [n]
    ensures Fifo(p', Traffic(t.msg[n := m], t.accepted + [m], t.left))
  {
    var msg' := t.msg[n := m];
    assert p'.Pending() == p.Pending() + [n];
    assert Messages(p'.Pending(), msg') == Messages(p.Pending(), t.msg) + [m];
  }

  /** The message held leaves, sent or lost. */
  lemma FifoLeave(p: Places, p': Places, t: Traffic, n: Node, sent: bool)
    requires Fifo(p, t) && p.held == n
    requires p'.held == null && p'.waiting == p.waiting
    ensures n in t.msg && Fifo(p', t.(left := t.left + [Departure(t.msg[n], sent)]))
  {
    assert p.Pending() == [n] + p'.Pending();
    assert n in p.Pending();
    assert Messages(p.Pending(), t.msg) == [t.msg[n]] + Messages(p'.Pending(), t.msg);
    assert Letters(t.left + [Departure(t.msg[n], sent)]) == Letters(t.left) + [t.msg[n]];
  }

  lemma FifoSame(p: Places, p': Places, t: Traffic)
    requires Fifo(p, t) && p.Pending() == p'.Pending()
    ensures Fifo(p', t)
  {
  }

  // ---- Heap steps: `a`, `b` and `c` are the sentinels of three disjoint rings ----

  ghost predicate Rings(a: Node, qa: seq<Node>, b: Node, qb: seq<Node>, c: Node, qc: seq<Node>)
    reads Nodes([a] + qa), Nodes([b] + qb), Nodes([c] + qc)
  {
    && Ring([a] + qa) && Ring([b] + qb) && Ring([c] + qc)
    && Nodes([a] + qa) !! Nodes([b] + qb)
    && Nodes([a] + qa) !! Nodes([c] + qc)
    && Nodes([b] + qb) !! Nodes([c] + qc)
  }

  lemma FirstOut(a: Node, q: seq<Node>)
    requires q != [] && Distinct([a] + q)
    ensures q[0] !in Nodes([a] + q[1..])
    ensures Nodes([a] + q) == Nodes([a] + q[1..]) + {q[0]}
  {
    assert [a] + q == [a] + ([q[0]] + q[1..]);
    forall n | n in [a] + q[1..]
      ensures n != q[0] && n in [a] + q
    {
      var i :| 0 <= i < |[a] + q[1..]| && ([a] + q[1..])[i] == n;
      assert ([a] + q)[1] == q[0] && ([a] + q)[if i == 0 then 0 else i + 1] == n;
    }
  }

  lemma OneIn(b: Node, q: seq<Node>, n: Node)
    ensures Nodes([b] + (q + [n])) == Nodes([b] + q) + {n}
    ensures Nodes([b] + ([n] + q)) == Nodes([b] + q) + {n}
  {
  }

  method TakeFirst(a: Node, ghost qa: seq<Node>, ghost b: Node, ghost qb: seq<Node>, ghost c: Node, ghost qc: seq<Node>)
    returns (node: Node?)
    requires Rings(a, qa, b, qb, c, qc)
    modifies Nodes([a] + qa)
    ensures qa == [] ==> node == null && Rings(a, qa, b, qb, c, qc)
    ensures qa != [] ==> node == qa[0] && Rings(a, qa[1..], b, qb, c, qc)
    ensures qa != [] ==> node !in Nodes([a] + qa[1..]) + Nodes([b] + qb) + Nodes([c] + qc)
    ensures qa != [] ==> Nodes([a] + qa) == Nodes([a] + qa[1..]) + {node}
  {
    if qa != [] { FirstOut(a, qa); }
    node := ListGetFirst(a, qa);
  }

  method PutLast(a: Node, node: Node, ghost qa: seq<Node>,
                 ghost b: Node, ghost qb: seq<Node>, ghost c: Node, ghost qc: seq<Node>)
    requires Rings(a, qa, b, qb, c, qc)
    requires node !in Nodes([a] + qa) + Nodes([b] + qb) + Nodes([c] + qc)
    modifies Nodes([a] + qa), node
    ensures Rings(a, qa + [node], b, qb, c, qc)
    ensures Nodes([a] + (qa + [node])) == Nodes([a] + qa) + {node}
  {
    OneIn(a, qa, node);
    ListAddTail(a, node, qa);
  }

  method PutFirst(a: Node, node: Node, ghost qa: seq<Node>,
                  ghost b: Node, ghost qb: seq<Node>, ghost c: Node, ghost qc: seq<Node>)
    requires Rings(a, qa, b, qb, c, qc)
    requires node !in Nodes([a] + qa) + Nodes([b] + qb) + Nodes([c] + qc)
    modifies Nodes([a] + qa), node
    ensures Rings(a, [node] + qa, b, qb, c, qc)
    ensures Nodes([a] + ([node] + qa)) == Nodes([a] + qa) + {node}
  {
    OneIn(a, qa, node);
    ListAddHead(a, node, qa);
  }

  lemma StockOf(a: Node, b: Node, c: Node, links: seq<Node>)
    requires Distinct([a, b, c] + links)
    ensures a != b && a != c && b != c
    ensures forall i :: 0 <= i < |links| ==> links[i] !in {a, b, c} && links[i] !in links[..i]
    ensures Nodes([a] + links) + Nodes([b]) + Nodes([c]) == Nodes([a, b, c] + links)
  {
    var s := [a, b, c] + links;
    assert s[0] == a && s[1] == b && s[2] == c;
    assert forall i :: 0 <= i < |links| ==> s[i + 3] == links[i];
  }

  method InitRings(a: Node, b: Node, c: Node)
    requires a != b && a != c && b != c
    modifies a, b, c
    ensures Rings(a, [], b, [], c, [])
  {
    assert [a] + [] == [a] && [b] + [] == [b] && [c] + [] == [c];
    ListInit(c);
    ListInit(b);
    ListInit(a);
  }

  /** `SP_data_clearqueue`: all buffers are free. */
  method ClearQueue(free: Node, realtm: Node, trans: Node, links: seq<Node>)
    requires Distinct([free, realtm, trans] + links)
    modifies free, realtm, trans, Nodes(links)
    ensures Rings(free, links, realtm, [], trans, [])
    ensures Nodes([free] + links) + Nodes([realtm] + []) + Nodes([trans] + []) == Nodes([free, realtm, trans] + links)
  {
    StockOf(free, realtm, trans, links);
    InitRings(free, realtm, trans);
    assert [realtm] + [] == [realtm] && [trans] + [] == [trans];
    for i := 0 to |links|
      invariant Rings(free, links[..i], realtm, [], trans, [])
    {
      PutLast(free, links[i], links[..i], realtm, [], trans, []);
      assert links[..i] + [links[i]] == links[..i + 1];
    }
    assert links[..|links|] == links;
  }

  class TxQueue {
    const free: Node
    const realtm: Node
    const trans: Node
    var msg: map<Node, Message>

    ghost const stock: set<Node>
    ghost var at: Places
    ghost var accepted: seq<Message>
    ghost var left: seq<Departure>

    ghost function Log(): Traffic
      reads this
    {
      Traffic(msg, accepted, left)
    }

    ghost function InRings(p: Places): set<Node> {
      Nodes([free] + p.free) + Nodes([realtm] + p.waiting) + Nodes([trans] + p.unacked)
    }

    /** No buffer is in two places, and none is unaccounted for but `extra`. */
    ghost predicate Placed(p: Places, extra: set<Node>)
      reads this, Nodes([free] + p.free), Nodes([realtm] + p.waiting), Nodes([trans] + p.unacked)
    {
      && Rings(free, p.free, realtm, p.waiting, trans, p.unacked)
      && p.held !in p.lost
      && p.Out() !! InRings(p)
      && extra !! InRings(p) && extra !! p.Out()
      && InRings(p) + p.Out() + extra == stock
    }

    /** Buffers are accounted for and messages keep their order. */
    ghost predicate Valid()
      reads this, stock
    {
      InRings(at) <= stock && Placed(at, {}) && Fifo(at, Log())
    }

    constructor (free: Node, realtm: Node, trans: Node, links: seq<Node>)
      requires Distinct([free, realtm, trans] + links)
      modifies free, realtm, trans, links
      ensures Valid() && stock == Nodes([free, realtm, trans] + links)
      ensures at == Places(links, [], [], null, {}) && accepted == [] && left == []
    {
      this.free, this.realtm, this.trans := free, realtm, trans;
      stock := Nodes([free, realtm, trans] + links);
      msg := map n | n in links :: Message([], 0);
      at := Places(links, [], [], null, {});
      accepted, left := [], [];
      new;
      ClearQueue(free, realtm, trans, links);
    }

    /** `SP_data_write`: takes a free buffer, or else the one sent longest ago; with neither, or
        with too long a message, nothing changes (and the callback will never run). */
    method Write(data: seq<bv8>, para: int)
      requires Valid()
      modifies this, stock
      ensures Valid() && left == old(left)
      ensures |data| > SP_SENDBUFLNG || (old(at.free) == [] && old(at.unacked) == []) ==>
        at == old(at) && accepted == old(accepted) && msg == old(msg)
      ensures |data| <= SP_SENDBUFLNG && old(at.free) != [] ==>
        && at == old(at).(free := old(at.free)[1..], waiting := old(at.waiting) + [old(at.free)[0]])
        && msg == old(msg)[old(at.free)[0] := Message(data, para)]
        && accepted == old(accepted) + [Message(data, para)]
      ensures |data| <= SP_SENDBUFLNG && old(at.free) == [] && old(at.unacked) != [] ==>
        && at == old(at).(unacked := old(at.unacked)[1..], waiting := old(at.waiting) + [old(at.unacked)[0]])
        && msg == old(msg)[old(at.unacked)[0] := Message(data, para)]
        && accepted == old(accepted) + [Message(data, para)]
    {
      if |data| <= SP_SENDBUFLNG {
        var node, at' := TakeBuffer();
        if node != null {
          Enqueue(node, at', Message(data, para));
        }
      }
    }

    /** The search for a buffer in `SP_data_write`. */
    method TakeBuffer() returns (node: Node?, ghost at': Places)
      requires Valid()
      modifies stock
      ensures node == null ==> at.Stock() == [] && at' == at && Valid()
      ensures node != null ==>
        at.Stock() != [] && node == at.Stock()[0] && at' == at.WithoutNext() && Placed(at', {node})
    {
      at' := at;
      node := TakeFirst(free, at.free, realtm, at.waiting, trans, at.unacked);
      if node != null {
        at' := at.(free := at.free[1..]);
      } else {
        node := TakeFirst(trans, at.unacked, free, at.free, realtm, at.waiting);
        if node != null {
          at' := at.(unacked := at.unacked[1..]);
        }
      }
    }

    /** The rest of `SP_data_write`: the buffer is filled and waits. */
    method Enqueue(node: Node, ghost at': Places, m: Message)
      requires Placed(at', {node}) && Fifo(at, Log()) && at'.Pending() == at.Pending() && at'.held == at.held
      modifies this, stock
      ensures Valid() && left == old(left)
      ensures at == at'.(waiting := at'.waiting + [node])
      ensures accepted == old(accepted) + [m] && msg == old(msg)[node := m]
    {
      PutLast(realtm, node, at'.waiting, free, at'.free, trans, at'.unacked);
      FifoAccept(at', at'.(waiting := at'.waiting + [node]), Log(), node, m);
      at := at'.(waiting := at'.waiting + [node]);
      msg := msg[node := m];
      accepted := accepted + [m];
    }

    /** What the sender still holds when it comes for the next message is lost: it does not give
        back a pack of unknown kind. */
    ghost method Lose()
      requires Valid()
      modifies this`at, this`left
      ensures Valid() && unchanged(this`msg, this`accepted)
      ensures old(at.held) == null ==> at == old(at) && left == old(left)
      ensures old(at.held) != null ==>
        && at == old(at).(held := null, lost := old(at.lost) + {old(at.held)})
        && old(at.held) in msg && left == old(left) + [Departure(msg[old(at.held)], false)]
    {
      if at.held != null {
        var at' := at.(held := null, lost := at.lost + {at.held});
        FifoLeave(at, at', Log(), at.held, false);
        left := left + [Departure(msg[at.held], false)];
        at := at';
      }
    }

    /** `SP_data_get_pack`: the sender takes the message waiting longest. */
    method GetPack() returns (node: Node?)
      requires Valid()
      modifies this, stock
      ensures Valid() && msg == old(msg) && accepted == old(accepted)
      ensures node == if old(at.waiting) == [] then null else old(at.waiting)[0]
      ensures at == old(at).(waiting := if node == null then [] else old(at.waiting)[1..], held := node,
                             lost := if old(at.held) == null then old(at.lost) else old(at.lost) + {old(at.held)})
      ensures old(at.held) == null ==> left == old(left)
      ensures old(at.held) != null ==> old(at.held) in msg && left == old(left) + [Departure(msg[old(at.held)], false)]
    {
      Lose();
      node := TakeWaiting();
    }

    method TakeWaiting() returns (node: Node?)
      requires Valid() && at.held == null
      modifies this`at, stock
      ensures Valid() && node == if old(at.waiting) == [] then null else old(at.waiting)[0]
      ensures at == old(at).(waiting := if node == null then [] else old(at.waiting)[1..], held := node)
    {
      node := TakeFirst(realtm, at.waiting, free, at.free, trans, at.unacked);
      if node != null {
        ghost var at' := at.(waiting := at.waiting[1..], held := node);
        FifoSame(at, at', Log());
        at := at';
      }
    }

    /** `SP_data_put_back`: a message that could not be sent goes back to the front. */
    method PutBack(pack: Node)
      requires Valid() && at.held == pack
      modifies this, stock
      ensures Valid() && Log() == old(Log())
      ensures at == old(at).(waiting := [pack] + old(at.waiting), held := null)
    {
      ghost var at' := at.(waiting := [pack] + at.waiting, held := null);
      PutFirst(realtm, pack, at.waiting, free, at.free, trans, at.unacked);
      FifoSame(at, at', Log());
      at := at';
    }

    /** `SP_data_put_send`: the message has left; its buffer waits for the acknowledgement. */
    method PutSend(pack: Node)
      requires Valid() && at.held == pack
      modifies this, stock
      ensures Valid() && msg == old(msg) && accepted == old(accepted)
      ensures at == old(at).(unacked := old(at.unacked) + [pack], held := null)
      ensures pack in msg && left == old(left) + [Departure(msg[pack], true)]
    {
      ghost var at' := at.(unacked := at.unacked + [pack], held := null);
      PutLast(trans, pack, at.unacked, free, at.free, realtm, at.waiting);
      FifoLeave(at, at', Log(), pack, true);
      at := at';
      left := left + [Departure(msg[pack], true)];
    }

    /** `SP_data_ack_pack`: the buffer sent longest ago becomes free again. */
    method AckPack()
      requires Valid()
      modifies this, stock
      ensures Valid() && Log() == old(Log())
      ensures old(at.unacked) == [] ==> at == old(at)
      ensures old(at.unacked) != [] ==>
        at == old(at.(unacked := at.unacked[1..], free := at.free + [at.unacked[0]]))
    {
      var node := TakeFirst(trans, at.unacked, free, at.free, realtm, at.waiting);
      if node != null {
        PutLast(free, node, at.free, realtm, at.waiting, trans, at.unacked[1..]);
        ghost var at' := at.(unacked := at.unacked[1..], free := at.free + [node]);
        FifoSame(at, at', Log());
        at := at';
      }
    }
  }
}
