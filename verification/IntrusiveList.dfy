/** The intrusive circular doubly linked list of include/list.h.

    A ring is described by the sequence of its nodes in `next` order, element 0 being the node an
    operation is applied to (in C the argument `list`, usually a sentinel).  That sequence is
    ghost: the code only sees `prev` and `next`. */
module IntrusiveList {

  class Node {
    var prev: Node?
    var next: Node?

    constructor () {}
  }

  function Succ(i: nat, n: nat): nat
    requires i < n
  {
    if i + 1 == n then 0 else i + 1
  }

  function Pred(i: nat, n: nat): nat
    requires i < n
  {
    if i == 0 then n - 1 else i - 1
  }

  ghost predicate Distinct<T>(s: seq<T>) {
    forall i, j :: 0 <= i < j < |s| ==> s[i] != s[j]
  }

  ghost function Nodes(s: seq<Node>): set<Node> {
    set n | n in s
  }

  /** The links of the nodes of `s` form exactly one cycle, and it visits `s` in order. */
  ghost predicate Ring(s: seq<Node>)
    reads Nodes(s)
  {
    && |s| > 0
    && Distinct(s)
    && (forall i: nat {:trigger s[i].next} :: i < |s| ==> s[i].next == s[Succ(i, |s|)])
    && (forall i: nat {:trigger s[i].prev} :: i < |s| ==> s[i].prev == s[Pred(i, |s|)])
  }

  /** Next and prev are mutual inverses on a ring, and neither leaves it. */
  lemma LinksAreInverse(s: seq<Node>, n: Node)
    requires Ring(s) && n in s
    ensures n.next != null && n.next in s && n.next.prev == n
    ensures n.prev != null && n.prev in s && n.prev.next == n
  {
    var i: nat :| i < |s| && s[i] == n;
    assert s[Succ(i, |s|)].prev == s[Pred(Succ(i, |s|), |s|)];
    assert s[Pred(i, |s|)].next == s[Succ(Pred(i, |s|), |s|)];
  }

  /** The heap determines the sequence: there is only one ring through a given node. */
  lemma {:induction false} RingIsDetermined(s: seq<Node>, t: seq<Node>)
    requires Ring(s) && Ring(t) && s[0] == t[0]
    ensures s == t
  {
    var m := if |s| <= |t| then |s| else |t|;
    AgreeUpTo(s, t, m);
    assert s[m - 1] == s[..m][m - 1] == t[..m][m - 1] == t[m - 1];
    assert s[m - 1].next == s[Succ(m - 1, |s|)] && t[m - 1].next == t[Succ(m - 1, |t|)];
  }

  lemma {:induction false} AgreeUpTo(s: seq<Node>, t: seq<Node>, m: nat)
    requires Ring(s) && Ring(t) && s[0] == t[0]
    requires 0 < m <= |s| && m <= |t|
    ensures s[..m] == t[..m]
  {
    if m > 1 {
      AgreeUpTo(s, t, m - 1);
      assert s[m - 2] == s[..m - 1][m - 2] == t[..m - 1][m - 2] == t[m - 2];
      assert s[m - 2].next == s[m - 1] && t[m - 2].next == t[m - 1];
      assert s[..m] == s[..m - 1] + [s[m - 1]] && t[..m] == t[..m - 1] + [t[m - 1]];
    }
  }

  /** Starting a ring at another of its nodes. */
  function Rotate<T>(s: seq<T>, k: nat): (r: seq<T>)
    requires k <= |s|
    ensures |r| == |s|
    ensures forall i: nat :: i < |s| ==> r[i] == s[if i < |s| - k then i + k else i + k - |s|]
  {
    s[k..] + s[..k]
  }

  lemma RotateIsRing(s: seq<Node>, k: nat)
    requires Ring(s) && k < |s|
    ensures Ring(Rotate(s, k))
  {
  }

  method ListInit(list: Node)
    modifies list
    ensures Ring([list])
  {
    list.prev := list;
    list.next := list;
  }

  /** `list_insert_before`: the new node becomes the last one before `list`. */
  method InsertBefore(list: Node, node: Node, ghost s: seq<Node>)
    requires Ring(s) && s[0] == list && node !in s
    modifies node, list`prev, list.prev`next
    ensures Ring(s + [node])
  {
    node.prev := list.prev;
    node.next := list;
    list.prev.next := node;
    list.prev := node;
  }

  /** `list_insert_after`: the new node becomes the first one after `list`. */
  method InsertAfter(list: Node, node: Node, ghost s: seq<Node>)
    requires Ring(s) && s[0] == list && node !in s
    modifies node, list`next, list.next`prev
    ensures Ring([list, node] + s[1..])
  {
    ghost var t := [list, node] + s[1..];
    assert t[0] == s[0] && forall i: nat :: 2 <= i < |t| ==> t[i] == s[i - 1];
    node.next := list.next;
    node.prev := list;
    list.next.prev := node;
    list.next := node;
  }

  /** `list_delete`: the two neighbours are joined; the links of `node` itself are kept, and a
      ring of one node is left as it is. */
  method Delete(node: Node, ghost s: seq<Node>)
    requires Ring(s) && s[0] == node
    modifies node.prev`next, node.next`prev
    ensures |s| > 1 ==> Ring(s[1..])
    ensures |s| == 1 ==> Ring(s)
    ensures node.prev == old(node.prev) && node.next == old(node.next)
  {
    node.prev.next := node.next;
    node.next.prev := node.prev;
  }

  /** The same call seen from the sentinel `s[0]`, with `node` the member at position `k`. */
  method DeleteAt(node: Node, ghost s: seq<Node>, ghost k: nat)
    requires Ring(s) && 0 < k < |s| && s[k] == node
    modifies node.prev`next, node.next`prev
    ensures Ring(s[..k] + s[k + 1..])
    ensures node.prev == old(node.prev) && node.next == old(node.next)
  {
    RotateIsRing(s, k);
    Delete(node, Rotate(s, k));
    assert Rotate(s, k)[1..] == s[k + 1..] + s[..k];
    RotateIsRing(s[k + 1..] + s[..k], |s| - k - 1);
    assert Rotate(s[k + 1..] + s[..k], |s| - k - 1) == s[..k] + s[k + 1..];
  }

  /** Deleting a node and inserting it again before its old successor undoes every write: all
      links of the ring are what they were. */
  method DeleteThenReinsert(node: Node, ghost s: seq<Node>)
    requires Ring(s) && s[0] == node && |s| > 1
    modifies Nodes(s)
    ensures forall n :: n in s ==> n.prev == old(n.prev) && n.next == old(n.next)
  {
    var next := node.next;
    Delete(node, s);
    assert next == s[1];
    InsertBefore(next, node, s[1..]);
    assert Rotate(s[1..] + [node], |s| - 1) == s;
    RotateIsRing(s[1..] + [node], |s| - 1);
  }

  predicate ListEmpty(list: Node)
    reads list
  {
    list.next == list || list.prev == list
  }

  /** Either half of the test alone already decides emptiness. */
  lemma EmptyIffAlone(s: seq<Node>)
    requires Ring(s)
    ensures s[0].next == s[0] <==> |s| == 1
    ensures s[0].prev == s[0] <==> |s| == 1
    ensures ListEmpty(s[0]) <==> |s| == 1
  {
    assert s[0].next == s[Succ(0, |s|)] && s[0].prev == s[Pred(0, |s|)];
  }

  method ListCount(list: Node, ghost s: seq<Node>) returns (cnt: nat)
    requires Ring(s) && s[0] == list
    ensures cnt == |s| - 1
  {
    cnt := 0;
    var node := list.next;
    while node != list
      invariant cnt < |s| && node == s[Succ(cnt, |s|)]
      decreases |s| - cnt
    {
      cnt := cnt + 1;
      node := node.next;
    }
  }

  // ---- The operations a sentinel offers; `q` is the sequence of its members ----

  method ListAddHead(list: Node, node: Node, ghost q: seq<Node>)
    requires Ring([list] + q) && node != list && node !in q
    modifies Nodes([node, list] + q)
    ensures Ring([list] + ([node] + q))
  {
    LinksAreInverse([list] + q, list);
    InsertAfter(list, node, [list] + q);
    assert [list, node] + ([list] + q)[1..] == [list] + ([node] + q);
  }

  method ListAddTail(list: Node, node: Node, ghost q: seq<Node>)
    requires Ring([list] + q) && node != list && node !in q
    modifies Nodes([node, list] + q)
    ensures Ring([list] + (q + [node]))
  {
    LinksAreInverse([list] + q, list);
    InsertBefore(list, node, [list] + q);
    assert ([list] + q) + [node] == [list] + (q + [node]);
  }

  method ListRemove(list: Node, node: Node, ghost q: seq<Node>, ghost k: nat)
    requires Ring([list] + q) && k < |q| && q[k] == node
    modifies Nodes([list] + q)
    ensures Ring([list] + (q[..k] + q[k + 1..]))
    ensures node.prev == old(node.prev) && node.next == old(node.next)
  {
    ghost var s := [list] + q;
    LinksAreInverse(s, s[k + 1]);
    WithoutMember(list, q, k);
    DeleteAt(node, s, k + 1);
  }

  lemma WithoutMember<T>(x: T, q: seq<T>, k: nat)
    requires k < |q|
    ensures ([x] + q)[..k + 1] + ([x] + q)[k + 2..] == [x] + (q[..k] + q[k + 1..])
  {
  }

  method ListGetFirst(list: Node, ghost q: seq<Node>) returns (ret: Node?)
    requires Ring([list] + q)
    modifies Nodes([list] + q)
    ensures q == [] ==> ret == null && Ring([list] + q)
    ensures q != [] ==> ret == q[0] && Ring([list] + q[1..])
  {
    ghost var s := [list] + q;
    EmptyIffAlone(s);
    ret := null;
    if !ListEmpty(list) {
      assert s[0].next == s[Succ(0, |s|)];
      ret := list.next;
      ListRemove(list, ret, q, 0);
      assert q[..0] + q[1..] == q[1..];
    } else {
      assert s == [list];
    }
  }

  method ListGetLast(list: Node, ghost q: seq<Node>) returns (ret: Node?)
    requires Ring([list] + q)
    modifies Nodes([list] + q)
    ensures q == [] ==> ret == null && Ring([list] + q)
    ensures q != [] ==> ret == q[|q| - 1] && Ring([list] + q[..|q| - 1])
  {
    ghost var s := [list] + q;
    EmptyIffAlone(s);
    ret := null;
    if !ListEmpty(list) {
      assert s[0].prev == s[Pred(0, |s|)];
      ret := list.prev;
      ListRemove(list, ret, q, |q| - 1);
      assert q[..|q| - 1] + q[|q|..] == q[..|q| - 1];
    } else {
      assert s == [list];
    }
  }

  // ---- Any sequence of operations on one list, against a deque of nodes ----

  datatype Op =
    | Init
    | AddHead(node: Node)
    | AddTail(node: Node)
    | Remove(node: Node)
    | GetFirst
    | GetLast

  ghost function IndexOf<T>(q: seq<T>, x: T): (k: nat)
    requires x in q
    ensures k < |q| && q[k] == x
  {
    if q[0] == x then 0 else 1 + IndexOf(q[1..], x)
  }

  /** What C asks of its callers: add only nodes that are in no place of the ring, delete only
      members. */
  ghost predicate Allowed(list: Node, q: seq<Node>, op: Op) {
    match op
    case Init => true
    case AddHead(n) => n != list && n !in q
    case AddTail(n) => n != list && n !in q
    case Remove(n) => n in q
    case GetFirst => true
    case GetLast => true
  }

  ghost function Deque(q: seq<Node>, op: Op): seq<Node>
    requires op.Remove? ==> op.node in q
  {
    match op
    case Init => []
    case AddHead(n) => [n] + q
    case AddTail(n) => q + [n]
    case Remove(n) => var k := IndexOf(q, n); q[..k] + q[k + 1..]
    case GetFirst => if q == [] then q else q[1..]
    case GetLast => if q == [] then q else q[..|q| - 1]
  }

  ghost predicate AllAllowed(list: Node, q: seq<Node>, ops: seq<Op>)
    decreases |ops|
  {
    ops == [] || (Allowed(list, q, ops[0]) && AllAllowed(list, Deque(q, ops[0]), ops[1..]))
  }

  ghost function DequeRun(list: Node, q: seq<Node>, ops: seq<Op>): seq<Node>
    requires AllAllowed(list, q, ops)
    decreases |ops|
  {
    if ops == [] then q else DequeRun(list, Deque(q, ops[0]), ops[1..])
  }

  /** The nodes the operations hand in. */
  ghost function Operand(op: Op): set<Node> {
    if op.AddHead? || op.AddTail? then {op.node} else {}
  }

  ghost function Operands(ops: seq<Op>): set<Node> {
    if ops == [] then {} else Operand(ops[0]) + Operands(ops[1..])
  }

  /** The node an operation hands out, if any. */
  ghost function Handed(q: seq<Node>, op: Op): Node? {
    if q == [] then null
    else if op.GetFirst? then q[0]
    else if op.GetLast? then q[|q| - 1]
    else null
  }

  ghost function HandedRun(list: Node, q: seq<Node>, ops: seq<Op>): seq<Node?>
    requires AllAllowed(list, q, ops)
    decreases |ops|
  {
    if ops == [] then [] else [Handed(q, ops[0])] + HandedRun(list, Deque(q, ops[0]), ops[1..])
  }

  /** One operation on the heap does to the ring what `Deque` does to the member sequence, and
      the node it hands out is the one the deque gives up. */
  method Perform(list: Node, op: Op, ghost q: seq<Node>) returns (ret: Node?)
    requires Ring([list] + q) && Allowed(list, q, op)
    modifies Nodes([list] + q), Operand(op)
    ensures Ring([list] + Deque(q, op))
    ensures ret == Handed(q, op)
  {
    ret := null;
    match op
    case Init =>
      ListInit(list);
      assert [list] + [] == [list];
    case AddHead(n) => ListAddHead(list, n, q);
    case AddTail(n) => ListAddTail(list, n, q);
    case Remove(n) => ListRemove(list, n, q, IndexOf(q, n));
    case GetFirst => ret := ListGetFirst(list, q);
    case GetLast => ret := ListGetLast(list, q);
  }

  /** Every allowed sequence of operations keeps the ring, refines the deque and hands out the
      deque's nodes; nothing outside the ring and the nodes handed in is written. */
  method PerformAll(list: Node, ops: seq<Op>, ghost q: seq<Node>) returns (rets: seq<Node?>)
    requires Ring([list] + q) && AllAllowed(list, q, ops)
    modifies Nodes([list] + q), Operands(ops)
    ensures Ring([list] + DequeRun(list, q, ops))
    ensures rets == HandedRun(list, q, ops)
    decreases |ops|
  {
    rets := [];
    if ops != [] {
      DequeNodes(q, ops[0]);
      var ret := Perform(list, ops[0], q);
      var rest := PerformAll(list, ops[1..], Deque(q, ops[0]));
      rets := [ret] + rest;
    }
  }

  lemma DequeNodes(q: seq<Node>, op: Op)
    requires op.Remove? ==> op.node in q
    ensures forall n :: n in Deque(q, op) ==> n in q || n in Operand(op)
  {
  }
}
