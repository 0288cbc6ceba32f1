/** Circular doubly linked lists threaded through the nodes of other structures. A list is a head node and
    a ring of entries; each operation is proved against the sequence of entries it stands for. */
module Lists {
  import opened Sequences

  class Node {
    var next: Node?
    var prev: Node?
    constructor () {}
  }

  ghost function After(head: Node, s: seq<Node>, i: int): (n: Node)
    requires -1 <= i < |s|
  {
    if i + 1 < |s| then s[i + 1] else head
  }

  ghost function Before(head: Node, s: seq<Node>, i: int): (n: Node)
    requires 0 <= i <= |s|
  {
    if i > 0 then s[i - 1] else head
  }

  /** `head` followed by exactly the entries `s`, with next and prev inverse to each other all around. */
  ghost predicate Ring(head: Node, s: seq<Node>)
    reads head, s
  {
    && head !in s && Distinct(s)
    && head.next == After(head, s, -1)
    && head.prev == Before(head, s, |s|)
    && (forall i {:trigger s[i].next} :: 0 <= i < |s| ==> s[i].next == After(head, s, i))
    && (forall i {:trigger s[i].prev} :: 0 <= i < |s| ==> s[i].prev == Before(head, s, i))
  }

  /** Next and prev undo each other at every node of a ring. */
  lemma RingInverse(head: Node, s: seq<Node>, n: Node)
    requires Ring(head, s) && (n == head || n in s)
    ensures n.next != null && (n.next == head || n.next in s) && n.next.prev == n
    ensures n.prev != null && (n.prev == head || n.prev in s) && n.prev.next == n
  {
    if n in s {
      var i :| 0 <= i < |s| && s[i] == n;
      assert s[i].next == After(head, s, i) && s[i].prev == Before(head, s, i);
      if i + 1 < |s| { assert s[i + 1].prev == Before(head, s, i + 1); }
      if i > 0 { assert s[i - 1].next == After(head, s, i - 1); }
    } else if s != [] {
      assert s[0].prev == Before(head, s, 0);
      assert s[|s| - 1].next == After(head, s, |s| - 1);
    }
  }

  method Init(list: Node)
    modifies list
    ensures Ring(list, [])
  {
    list.next := list;
    list.prev := list;
  }

  method Empty(head: Node, ghost s: seq<Node>) returns (r: bool)
    requires Ring(head, s)
    ensures r <==> s == []
  {
    r := head.next == head;
  }

  method Singular(head: Node, ghost s: seq<Node>) returns (r: bool)
    requires Ring(head, s)
    ensures r <==> |s| == 1
  {
    var empty := Empty(head, s);
    r := !empty && head.next == head.prev;
  }

  /** Link a new entry between two neighbours, which may be one and the same node. */
  method LinkBetween(new_: Node, prev: Node, next: Node)
    requires new_ != prev && new_ != next
    modifies new_, prev, next
    ensures new_.prev == prev && prev.next == new_ && new_.next == next && next.prev == new_
    ensures prev != next ==> prev.prev == old(prev.prev) && next.next == old(next.next)
  {
    next.prev := new_;
    new_.next := next;
    new_.prev := prev;
    prev.next := new_;
  }

  method Add(new_: Node, head: Node, ghost s: seq<Node>)
    requires Ring(head, s) && new_ != head && new_ !in s
    modifies new_, head, head.next
    ensures Ring(head, [new_] + s)
  {
    LinkBetween(new_, head, head.next);
  }

  method AddTail(new_: Node, head: Node, ghost s: seq<Node>)
    requires Ring(head, s) && new_ != head && new_ !in s
    modifies new_, head, head.prev
    ensures Ring(head, s + [new_])
  {
    LinkBetween(new_, head.prev, head);
  }

  /** Join the neighbours of an entry. The entry's own pointers stay as they were. */
  method Unlink(entry: Node, ghost head: Node, ghost s: seq<Node>, ghost i: nat)
    requires Ring(head, s) && i < |s| && s[i] == entry
    modifies entry.prev, entry.next
    ensures Ring(head, Without(s, i))
    ensures entry.next == old(entry.next) && entry.prev == old(entry.prev)
  {
    assert s[i].next == After(head, s, i) && s[i].prev == Before(head, s, i);
    var prev, next := entry.prev, entry.next;
    next.prev := prev;
    prev.next := next;
    BypassedRing(head, s, i);
  }

  /** The pointers when the neighbours of entry `i` are joined. */
  ghost predicate Bypassed(head: Node, s: seq<Node>, i: nat)
    reads head, s
  {
    && i < |s|
    && head.next == (if i == 0 then After(head, s, 0) else s[0])
    && head.prev == (if i == |s| - 1 then Before(head, s, i) else s[|s| - 1])
    && (forall j {:trigger s[j].next} :: 0 <= j < |s| && j != i ==>
          s[j].next == After(head, s, if j == i - 1 then i else j))
    && (forall j {:trigger s[j].prev} :: 0 <= j < |s| && j != i ==>
          s[j].prev == Before(head, s, if j == i + 1 then i else j))
  }

  lemma BypassedRing(head: Node, s: seq<Node>, i: nat)
    requires head !in s && Distinct(s) && Bypassed(head, s, i)
    ensures Ring(head, Without(s, i))
  {
    ghost var r := Without(s, i);
    WithoutFacts(s, i);
    forall j | 0 <= j < |r| ensures r[j].next == After(head, r, j) && r[j].prev == Before(head, r, j) {
      BypassedAt(head, s, i, j);
    }
  }

  lemma NeighboursWithout(head: Node, s: seq<Node>, i: nat, j: nat, k: nat)
    requires i < |s| && j < |s| - 1 && k == if j < i then j else j + 1
    ensures Without(s, i)[j] == s[k]
    ensures After(head, Without(s, i), j) == After(head, s, if k == i - 1 then i else k)
    ensures Before(head, Without(s, i), j) == Before(head, s, if k == i + 1 then i else k)
  {}

  lemma BypassedAt(head: Node, s: seq<Node>, i: nat, j: nat)
    requires Bypassed(head, s, i) && j < |s| - 1
    ensures var r := Without(s, i); r[j].next == After(head, r, j) && r[j].prev == Before(head, r, j)
  {
    var k := if j < i then j else j + 1;
    NeighboursWithout(head, s, i, j, k);
    var next, prev := s[k].next, s[k].prev;
    assert next == After(head, s, if k == i - 1 then i else k);
    assert prev == Before(head, s, if k == i + 1 then i else k);
  }

  method Delete(entry: Node, ghost head: Node, ghost s: seq<Node>, ghost i: nat)
    requires Ring(head, s) && i < |s| && s[i] == entry
    modifies entry, entry.prev, entry.next
    ensures Ring(head, Without(s, i)) && entry.next == null && entry.prev == null
  {
    Unlink(entry, head, s, i);
    entry.next := null;
    entry.prev := null;
  }

  /** Move an entry to the end of another list, or to the end of its own. */
  method MoveTail(entry: Node, head: Node, ghost from: Node, ghost s: seq<Node>, ghost i: nat, ghost t: seq<Node>)
    requires Ring(from, s) && i < |s| && s[i] == entry && Ring(head, t)
    requires (from == head && s == t) || Apart(from, s, head, t)
    modifies entry, entry.prev, entry.next, head, head.prev
    ensures from == head ==> Ring(head, Without(s, i) + [entry])
    ensures from != head ==> Ring(from, Without(s, i)) && Ring(head, t + [entry])
  {
    assert s[i].next == After(from, s, i) && s[i].prev == Before(from, s, i);
    Unlink(entry, from, s, i);
    AddTail(entry, head, if from == head then Without(s, i) else t);
  }

  ghost predicate Apart(a: Node, s: seq<Node>, b: Node, t: seq<Node>) {
    && a != b && a !in t && b !in s
    && forall i, j :: 0 <= i < |s| && 0 <= j < |t| ==> s[i] != t[j]
  }

  /** Move the first `k` entries of `head` to `list`; `entry` is the last of them, or the head for none.
      An empty `head` leaves `list` alone. */
  method CutPosition(list: Node, head: Node, entry: Node, ghost s: seq<Node>, ghost k: nat)
    requires Ring(head, s) && list != head && list !in s
    requires k <= |s| && entry == Before(head, s, k)
    modifies list, head, head.next, entry, entry.next
    ensures s == [] ==> Ring(head, []) && list.next == old(list.next) && list.prev == old(list.prev)
    ensures s != [] ==> Ring(list, s[..k]) && Ring(head, s[k..]) && Apart(list, s[..k], head, s[k..])
  {
    var empty := Empty(head, s);
    if empty {
      return;
    }
    var singular := Singular(head, s);
    if singular && head.next != entry && head != entry {
      return;
    }
    if entry == head {
      Init(list);
    } else {
      Cut(list, head, entry, s, k);
    }
  }

  /** The pointers after a cut behind entry `k - 1`. */
  ghost predicate CutLinks(list: Node, head: Node, s: seq<Node>, k: nat)
    reads list, head, s
  {
    && 0 < k <= |s|
    && list.next == s[0] && list.prev == s[k - 1]
    && head.next == After(head, s, k - 1) && head.prev == (if k == |s| then head else s[|s| - 1])
    && (forall i {:trigger s[i].next} :: 0 <= i < |s| ==> s[i].next == if i == k - 1 then list else After(head, s, i))
    && (forall i {:trigger s[i].prev} :: 0 <= i < |s| ==>
          s[i].prev == if i == 0 then list else if i == k then head else s[i - 1])
  }

  lemma CutRings(list: Node, head: Node, s: seq<Node>, k: nat)
    requires CutLinks(list, head, s, k) && head !in s && Distinct(s) && list !in s
    ensures Ring(list, s[..k]) && Ring(head, s[k..])
  {
    ghost var a, b := s[..k], s[k..];
    forall j | 0 <= j < |b| ensures b[j].next == After(head, b, j) && b[j].prev == Before(head, b, j) {
      assert b[j] == s[k + j];
    }
    forall j | 0 <= j < |a| ensures a[j].next == After(list, a, j) && a[j].prev == Before(list, a, j) {
      assert a[j] == s[j];
    }
  }

  method Cut(list: Node, head: Node, entry: Node, ghost s: seq<Node>, ghost k: nat)
    requires Ring(head, s) && list != head && list !in s
    requires 0 < k <= |s| && entry == s[k - 1]
    modifies list, head, head.next, entry, entry.next
    ensures Ring(list, s[..k]) && Ring(head, s[k..])
  {
    assert s[k - 1].next == After(head, s, k - 1);
    var newFirst := entry.next;
    list.next := head.next;
    list.next.prev := list;
    list.prev := entry;
    entry.next := list;
    head.next := newFirst;
    newFirst.prev := head;
    CutRings(list, head, s, k);
  }

  /** Put the entries of `list` in front of those of `head`. The node `list` itself is left pointing into them. */
  method Splice(list: Node, head: Node, ghost l: seq<Node>, ghost s: seq<Node>)
    requires Ring(list, l) && Ring(head, s) && Apart(list, l, head, s)
    modifies list.next, list.prev, head, head.next
    ensures Ring(head, l + s)
  {
    var empty := Empty(list, l);
    if empty {
      assert l + s == s;
      return;
    }
    var next := head.next;
    var first, last := list.next, list.prev;
    first.prev := head;
    head.next := first;
    last.next := next;
    next.prev := last;
    ghost var r := l + s;
    forall j | 0 <= j < |r| ensures r[j].next == After(head, r, j) && r[j].prev == Before(head, r, j) {
      if j < |l| {
        assert j < |l| - 1 ==> l[j].next == After(list, l, j);
        assert j > 0 ==> l[j].prev == Before(list, l, j);
      } else {
        var i := j - |l|;
        assert s[i].next == After(head, s, i);
        assert i > 0 ==> s[i].prev == Before(head, s, i);
      }
    }
  }

  /** Cutting a list anywhere and splicing the piece back at the front restores it. */
  method CutAndSplice(list: Node, head: Node, entry: Node, ghost s: seq<Node>, ghost k: nat)
    requires Ring(head, s) && list != head && list !in s && s != []
    requires k <= |s| && entry == Before(head, s, k)
    modifies list, head, s
    ensures Ring(head, s)
  {
    CutPosition(list, head, entry, s, k);
    Splice(list, head, s[..k], s[k..]);
    assert s[..k] + s[k..] == s;
  }

  /** Walk a list with the next entry fetched beforehand, deleting the current one where asked to: every
      original entry is visited, once and in order, and exactly the deleted ones are gone. */
  method ForEachSafe(head: Node, ghost s: seq<Node>, doomed: set<Node>) returns (visited: seq<Node>)
    requires Ring(head, s)
    modifies head, s
    ensures visited == s
    ensures Ring(head, Dropped(s, doomed))
  {
    visited := [];
    ghost var k, d, ring := 0, 0, s;
    var pos: Node := head.next;
    var n: Node := pos.next;
    while pos != head
      invariant Walked(ring, d, s, k, doomed) && visited == s[..k]
      invariant Ring(head, ring) && Standing(pos, n, head, ring, d)
      decreases |ring| - d
    {
      WalkOn(ring, d, s, k, doomed);
      Neighbours(head, ring, d, s);
      visited := visited + [pos];
      ghost var ring', d' := Left(ring, d, doomed), if pos in doomed then d else d + 1;
      pos, n := Round(pos, n, head, ring, d, doomed);
      ring, d, k := ring', d', k + 1;
    }
    WalkedAll(ring, d, s, k, doomed);
  }

  /** The ring after the first `k` entries were visited, of which `d` are left. */
  ghost predicate Walked(ring: seq<Node>, d: nat, s: seq<Node>, k: nat, doomed: set<Node>)
  {
    && k <= |s| && d <= |ring|
    && ring[..d] == Dropped(s[..k], doomed) && ring[d..] == s[k..]
    && forall x :: x in ring ==> x in s
  }

  lemma WalkOn(ring: seq<Node>, d: nat, s: seq<Node>, k: nat, doomed: set<Node>)
    requires Walked(ring, d, s, k, doomed) && d < |ring|
    ensures k < |s| && s[k] == ring[d] && s[..k + 1] == s[..k] + [s[k]]
    ensures Walked(Left(ring, d, doomed), if ring[d] in doomed then d else d + 1, s, k + 1, doomed)
  {
    assert ring[d] == ring[d..][0];
    assert s[..k + 1][..k] == s[..k];
    assert ring[d + 1..] == ring[d..][1..] == s[k + 1..];
    var r := Without(ring, d);
    assert r[..d] == ring[..d] && r[d..] == ring[d + 1..];
    assert ring[..d + 1] == ring[..d] + [s[k]];
  }

  lemma Neighbours(head: Node, ring: seq<Node>, d: nat, s: seq<Node>)
    requires Ring(head, ring) && d < |ring| && forall x :: x in ring ==> x in s
    ensures ring[d] in s && (ring[d].next == head || ring[d].next in s) && (ring[d].prev == head || ring[d].prev in s)
  {
    RingInverse(head, ring, ring[d]);
  }

  lemma WalkedAll(ring: seq<Node>, d: nat, s: seq<Node>, k: nat, doomed: set<Node>)
    requires Walked(ring, d, s, k, doomed) && d == |ring|
    ensures k == |s| && s[..k] == s && ring == Dropped(s, doomed)
  {
    assert |ring[d..]| == 0;
    assert s[..k] == s && ring[..d] == ring;
  }

  ghost function Left(ring: seq<Node>, d: nat, doomed: set<Node>): (r: seq<Node>)
    requires d < |ring|
  {
    if ring[d] in doomed then Without(ring, d) else ring
  }

  /** One round of the loop: the current entry is deleted if it is doomed, and the walk moves on. */
  method Round(
    pos: Node, n: Node, head: Node, ghost ring: seq<Node>, ghost d: nat, doomed: set<Node>) returns (pos': Node,
    n': Node)
    requires d < |ring| && ring[d] == pos && Ring(head, ring) && n == After(head, ring, d)
    modifies pos, pos.prev, pos.next
    ensures Ring(head, Left(ring, d, doomed))
    ensures var d' := if pos in doomed then d else d + 1; Standing(pos', n', head, Left(ring, d, doomed), d')
  {
    if pos in doomed {
      Delete(pos, head, ring, d);
      ghost var r := Without(ring, d);
      assert d < |r| ==> r[d].next == After(head, r, d);
    } else {
      assert d + 1 < |ring| ==> ring[d + 1].next == After(head, ring, d + 1);
    }
    pos' := n;
    n' := pos'.next;
  }

  ghost predicate Standing(pos: Node, n: Node, head: Node, ring: seq<Node>, d: nat) {
    d <= |ring| && pos == After(head, ring, d - 1) && (d < |ring| ==> n == After(head, ring, d))
  }
}
