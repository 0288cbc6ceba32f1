/** Lists of slots, threaded through the slots themselves: each list has a head node of its own, each slot one
    node, and a slot is on one list at most. */
module SlotRings {
  import opened Sequences
  import opened Lists

  /** The nodes of the slots on a list. */
  ghost function Picked(nodes: seq<Node>, l: seq<nat>): (s: seq<Node>)
    requires forall k :: 0 <= k < |l| ==> l[k] < |nodes|
    ensures |s| == |l| && (forall k :: 0 <= k < |l| ==> s[k] == nodes[l[k]]) && forall n :: n in s ==> n in nodes
  {
    seq(|l|, k requires 0 <= k < |l| => nodes[l[k]])
  }

  /** The slots of one list, each once. */
  ghost predicate ListOk(l: seq<nat>, n: nat) {
    Distinct(l) && forall k :: 0 <= k < |l| ==> l[k] < n
  }

  ghost predicate ListsOk(lists: seq<seq<nat>>, n: nat) {
    && (forall c {:trigger ListOk(lists[c], n)} :: 0 <= c < |lists| ==> ListOk(lists[c], n))
    && (forall b, c, x {:trigger x in lists[b], x in lists[c]} ::
          0 <= b < |lists| && 0 <= c < |lists| && x in lists[b] && x in lists[c] ==> b == c)
  }

  ghost predicate NodesOk(heads: seq<Node>, nodes: seq<Node>) {
    && Distinct(heads) && Distinct(nodes)
    && forall h :: h in heads ==> h !in nodes
  }

  /** The node is the head of list `b` or that of a slot on it. */
  ghost predicate OnList(heads: seq<Node>, nodes: seq<Node>, l: seq<nat>, b: nat, n: Node)
    requires b < |heads| && ListOk(l, |nodes|)
  {
    n == heads[b] || n in Picked(nodes, l)
  }

  /** The head of list `b` is followed by exactly the nodes of the slots in `l`, around and back. */
  ghost predicate Threads(heads: seq<Node>, nodes: seq<Node>, l: seq<nat>, b: nat)
    reads heads, nodes
  {
    b < |heads| && ListOk(l, |nodes|) && Ring(heads[b], Picked(nodes, l))
  }

  lemma PickedAppend(nodes: seq<Node>, l: seq<nat>, i: nat)
    requires ListOk(l, |nodes|) && i < |nodes|
    ensures Picked(nodes, l + [i]) == Picked(nodes, l) + [nodes[i]]
  {}

  /** The node of a slot that is not on the list. */
  lemma NotOnList(heads: seq<Node>, nodes: seq<Node>, l: seq<nat>, b: nat, i: nat)
    requires NodesOk(heads, nodes) && b < |heads| && ListOk(l, |nodes|) && i < |nodes| && i !in l
    ensures !OnList(heads, nodes, l, b, nodes[i])
  {
    assert heads[b] in heads;
    assert forall k :: 0 <= k < |l| ==> l[k] in l;
  }

  /** No node is on two lists. */
  lemma OnOneList(heads: seq<Node>, nodes: seq<Node>, lists: seq<seq<nat>>, b: nat, c: nat, n: Node)
    requires NodesOk(heads, nodes) && |lists| == |heads| && ListsOk(lists, |nodes|)
    requires b < |heads| && c < |heads| && b != c && OnList(heads, nodes, lists[c], c, n)
    ensures !OnList(heads, nodes, lists[b], b, n)
  {
    assert ListOk(lists[b], |nodes|) && ListOk(lists[c], |nodes|);
    if n == heads[c] {
      assert heads[c] in heads;
      forall k | 0 <= k < |lists[b]| ensures n != nodes[lists[b][k]] {
        assert lists[b][k] in lists[b];
      }
    } else {
      var k :| 0 <= k < |lists[c]| && Picked(nodes, lists[c])[k] == n;
      assert lists[c][k] in lists[c];
      NotOnList(heads, nodes, lists[b], b, lists[c][k]);
    }
  }

  lemma LinkedLists(lists: seq<seq<nat>>, n: nat, c: nat, i: nat)
    requires ListsOk(lists, n) && c < |lists| && i < n && forall b :: 0 <= b < |lists| ==> i !in lists[b]
    ensures ListsOk(lists[c := lists[c] + [i]], n)
  {
    assert ListOk(lists[c], n);
    assert ListOk(lists[c] + [i], n);
    var r := lists[c := lists[c] + [i]];
    forall b | 0 <= b < |r| ensures ListOk(r[b], n) {
      assert b != c ==> ListOk(lists[b], n);
    }
  }

  lemma UnlinkedLists(lists: seq<seq<nat>>, n: nat, c: nat, k: nat)
    requires ListsOk(lists, n) && c < |lists| && k < |lists[c]|
    ensures ListsOk(lists[c := Without(lists[c], k)], n)
  {
    var l, r := lists[c], Without(lists[c], k);
    assert ListOk(l, n);
    assert ListOk(r, n);
    assert forall j :: 0 <= j < |r| ==> r[j] in l;
  }

  lemma PickedWithout(nodes: seq<Node>, l: seq<nat>, k: nat)
    requires ListOk(l, |nodes|) && k < |l| && ListOk(Without(l, k), |nodes|)
    ensures Picked(nodes, Without(l, k)) == Without(Picked(nodes, l), k)
  {}

  method Nodes(n: nat) returns (s: seq<Node>)
    ensures |s| == n && Distinct(s) && fresh(s)
  {
    s := [];
    while |s| < n
      invariant |s| <= n && Distinct(s) && fresh(s)
    {
      var node := new Node();
      s := s + [node];
    }
  }

  class Rings {
    /** The head in each slot that owns a list, and the node in each slot that may be on one. */
    const heads: seq<Node>
    const nodes: seq<Node>

    /** Which slots are on each list, and which heads are initialised. */
    ghost var lists: seq<seq<nat>>
    ghost var ready: set<nat>

    ghost predicate Shaped()
      reads this
    {
      && NodesOk(heads, nodes) && |lists| == |heads| && ListsOk(lists, |nodes|)
      && forall c :: 0 <= c < |lists| && c !in ready ==> lists[c] == []
    }

    /** Every initialised head has the nodes of its slots around it. */
    ghost predicate Valid()
      reads this, heads, nodes
    {
      Shaped() && forall c {:trigger Threads(heads, nodes, lists[c], c)} ::
        0 <= c < |heads| && c in ready ==> Threads(heads, nodes, lists[c], c)
    }

    /** Zeroed slots: no head is initialised, and no slot is on a list. */
    constructor (owners: nat, slots: nat)
      ensures Valid() && |heads| == owners && |nodes| == slots
      ensures ready == {} && forall c :: 0 <= c < |lists| ==> lists[c] == []
      ensures fresh(heads) && fresh(nodes)
    {
      var hs := Nodes(owners);
      var ns := Nodes(slots);
      heads, nodes := hs, ns;
      lists, ready := seq(owners, _ => []), {};
    }

    /** Make the head of a slot an empty list. */
    method Init(c: nat)
      requires Valid() && c < |heads| && lists[c] == []
      modifies this`ready, heads
      ensures Valid() && ready == old(ready) + {c}
    {
      Lists.Init(heads[c]);
      ready := ready + {c};
      forall b | 0 <= b < |heads| && b in ready ensures Threads(heads, nodes, lists[b], b) {
        OtherHeadStays(heads, nodes, lists, b, c);
        assert b != c ==> old(Threads(heads, nodes, lists[b], b));
      }
    }

    /** Zero the head in a slot. If its list is not empty, the nodes on it still point there. */
    method Wipe(c: nat)
      requires Valid() && c < |heads|
      modifies this`ready, heads
      ensures ready == old(ready) - {c}
      ensures lists[c] == [] ==> Valid()
    {
      heads[c].next := null;
      heads[c].prev := null;
      ready := ready - {c};
      forall b | 0 <= b < |heads| && b in ready ensures Threads(heads, nodes, lists[b], b) {
        OtherHeadStays(heads, nodes, lists, b, c);
        assert old(Threads(heads, nodes, lists[b], b));
      }
    }

    /** Put a slot at the end of a list. */
    method Link(c: nat, i: nat)
      requires Valid() && c < |heads| && c in ready && i < |nodes| && forall b :: 0 <= b < |lists| ==> i !in lists[b]
      modifies this`lists, heads, nodes
      ensures Valid() && lists == old(lists)[c := old(lists)[c] + [i]]
    {
      ghost var l, before := lists[c], lists;
      assert Threads(heads, nodes, l, c);
      ghost var s := Picked(nodes, l);
      RingInverse(heads[c], s, heads[c]);
      NotOnList(heads, nodes, l, c, i);
      ghost var last := heads[c].prev;
      AddTail(nodes[i], heads[c], s);
      LinkedLists(lists, |nodes|, c, i);
      PickedAppend(nodes, l, i);
      lists := lists[c := l + [i]];
      forall b | 0 <= b < |heads| && b in ready && b != c ensures Threads(heads, nodes, lists[b], b) {
        NotOnList(heads, nodes, lists[b], b, i);
        OnOneList(heads, nodes, before, b, c, heads[c]);
        OnOneList(heads, nodes, before, b, c, last);
        assert old(Threads(heads, nodes, lists[b], b));
      }
    }

    /** Take a slot off the list it is on, wherever it stands there. */
    method Unlink(i: nat, ghost c: nat, ghost k: nat)
      requires Valid() && c < |heads| && k < |lists[c]| && lists[c][k] == i
      modifies this`lists, heads, nodes
      ensures Valid() && lists == old(lists)[c := Without(old(lists)[c], k)]
    {
      ghost var l := lists[c];
      Detach(i, c, k);
      UnlinkedLists(lists, |nodes|, c, k);
      PickedWithout(nodes, l, k);
      lists := lists[c := Without(l, k)];
    }

    /** The pointers of `Unlink`. */
    method Detach(i: nat, ghost c: nat, ghost k: nat)
      requires Valid() && c < |heads| && k < |lists[c]| && lists[c][k] == i
      modifies heads, nodes
      ensures ListOk(lists[c], |nodes|) && Ring(heads[c], Without(Picked(nodes, lists[c]), k))
      ensures forall b :: 0 <= b < |heads| && b in ready && b != c ==> Threads(heads, nodes, lists[b], b)
    {
      assert Threads(heads, nodes, lists[c], c);
      ghost var s := Picked(nodes, lists[c]);
      assert s[k] == nodes[i];
      RingInverse(heads[c], s, nodes[i]);
      ghost var prev, next := nodes[i].prev, nodes[i].next;
      forall b | 0 <= b < |heads| && b in ready && b != c
        ensures Spared(b, prev) && Spared(b, next) && Spared(b, nodes[i])
      {
        OnOneList(heads, nodes, lists, b, c, nodes[i]);
        OnOneList(heads, nodes, lists, b, c, prev);
        OnOneList(heads, nodes, lists, b, c, next);
      }
      Delete(nodes[i], heads[c], s, k);
      forall b | 0 <= b < |heads| && b in ready && b != c ensures Threads(heads, nodes, lists[b], b) {
        assert Spared(b, prev) && Spared(b, next) && Spared(b, nodes[i]);
        assert old(Threads(heads, nodes, lists[b], b));
      }
    }

    ghost predicate Spared(b: nat, n: Node)
      reads this
      requires Shaped() && b < |heads|
    {
      assert ListOk(lists[b], |nodes|);
      !OnList(heads, nodes, lists[b], b, n)
    }

    /** The slot a node lies in. */
    method SlotOf(n: Node) returns (i: nat)
      requires n in nodes
      ensures i < |nodes| && nodes[i] == n
    {
      i := 0;
      while nodes[i] != n
        invariant i < |nodes| && n in nodes[i..]
        decreases |nodes| - i
      {
        i := i + 1;
      }
    }

    /** The first slot of a list that is not empty. */
    method First(c: nat) returns (r: nat)
      requires Valid() && c < |heads| && lists[c] != []
      ensures r == lists[c][0]
    {
      assert Threads(heads, nodes, lists[c], c);
      ghost var s := Picked(nodes, lists[c]);
      assert heads[c].next == s[0];
      r := SlotOf(heads[c].next);
    }

    method Empty(c: nat) returns (r: bool)
      requires Valid() && c < |heads| && c in ready
      ensures r <==> lists[c] == []
    {
      assert Threads(heads, nodes, lists[c], c);
      r := Lists.Empty(heads[c], Picked(nodes, lists[c]));
    }
  }

  lemma OtherHeadStays(heads: seq<Node>, nodes: seq<Node>, lists: seq<seq<nat>>, b: nat, c: nat)
    requires NodesOk(heads, nodes) && |lists| == |heads| && ListsOk(lists, |nodes|) && b < |heads| && c < |heads|
    ensures ListOk(lists[b], |nodes|) && (b != c ==> !OnList(heads, nodes, lists[b], b, heads[c]))
  {
    if b != c {
      assert ListOk(lists[c], |nodes|);
      OnOneList(heads, nodes, lists, b, c, heads[c]);
    }
  }
}
