/** The linked nodes of the command menu, as values. Nodes live in a store under the ids that stand for their
    addresses; 0 is the null pointer. */
module CliLinks {
  import opened Sequences
  import opened CliTree
  import CliAbbrev

  datatype Command = Command(name: string, mode: nat, uniqueLen: nat, next: nat, children: nat, parent: nat)

  type Nodes = map<nat, Command>

  ghost function First(s: seq<nat>): (n: nat) { if s == [] then 0 else s[0] }

  ghost function NextIn(s: seq<nat>, i: int): (n: nat)
    requires -1 <= i < |s|
  {
    if i + 1 < |s| then s[i + 1] else 0
  }

  ghost predicate Chained(nodes: Nodes, s: seq<nat>) {
    && (forall i :: 0 <= i < |s| ==> s[i] in nodes)
    && (forall i {:trigger NextIn(s, i)} :: 0 <= i < |s| ==> nodes[s[i]].next == NextIn(s, i))
  }

  ghost predicate Headed(nodes: Nodes, root: nat, t: Tree, k: nat)
    requires k in t.kids
  {
    && (k == 0 ==> root == First(t.kids[0]))
    && (k != 0 ==> k in nodes && nodes[k].children == First(t.kids[k]))
  }

  ghost predicate Parents(nodes: Nodes, t: Tree) {
    t.up.Keys == nodes.Keys && forall n {:trigger nodes[n]} :: n in nodes ==> nodes[n].parent == t.up[n]
  }

  ghost predicate Lists(nodes: Nodes, root: nat, t: Tree) {
    && (forall k {:trigger Headed(nodes, root, t, k)} :: k in t.kids ==> Headed(nodes, root, t, k))
    && (forall k {:trigger Chained(nodes, t.kids[k])} :: k in t.kids ==> Chained(nodes, t.kids[k]))
  }

  /** The pointers of the nodes spell out the tree. */
  ghost predicate Represents(nodes: Nodes, root: nat, t: Tree) {
    TreeOk(t) && Parents(nodes, t) && Lists(nodes, root, t)
  }

  /** The cursor heads a list of siblings, that of `at`; it is null only in an empty menu. */
  ghost predicate Cursor(t: Tree, current: nat, at: nat) {
    at in t.kids && current == First(t.kids[at]) && (t.kids[at] == [] ==> at == 0)
  }

  /** Everything but the links of a command. */
  ghost predicate SameCommand(a: Command, b: Command) {
    a.name == b.name && a.mode == b.mode && a.uniqueLen == b.uniqueLen && a.parent == b.parent
  }

  ghost predicate Survive(before: Nodes, after: Nodes, gone: set<nat>) {
    && after.Keys == before.Keys - gone
    && forall n {:trigger after[n]} :: n in after ==> SameCommand(before[n], after[n])
  }

  // Taking a childless command out of its list.

  ghost predicate Reached(nodes: Nodes, k: nat, l: seq<nat>, j: nat) {
    j < |l| && (if j > 0 then l[j - 1] in nodes else k != 0 ==> k in nodes)
  }

  /** The store when the pointer to entry `j` of list `l`, the children of `k`, points behind it. */
  ghost function Bypassed(nodes: Nodes, k: nat, l: seq<nat>, j: nat): (r: Nodes)
    requires Reached(nodes, k, l, j)
  {
    if j > 0 then nodes[l[j - 1] := nodes[l[j - 1]].(next := NextIn(l, j))]
    else if k != 0 then nodes[k := nodes[k].(children := NextIn(l, j))]
    else nodes
  }

  ghost function NewRoot(root: nat, k: nat, l: seq<nat>, j: nat): (r: nat)
    requires j < |l|
  {
    if j == 0 && k == 0 then NextIn(l, j) else root
  }

  lemma {:induction false} LeafClosed(t: Tree, n: nat)
    requires TreeOk(t) && n in t.up && n in t.kids && t.kids[n] == []
    ensures Closed(t, {n})
  {
    assert NodeOk(t, n);
    forall m | m in t.up ensures t.up[m] != n {
      assert NodeOk(t, m);
    }
  }

  lemma {:induction false} LeafPrunedList(t: Tree, k: nat, j: nat, q: nat)
    requires TreeOk(t) && k in t.kids && j < |t.kids[k]| && q in t.kids
    ensures Dropped(t.kids[q], {t.kids[k][j]}) == if q == k then Without(t.kids[k], j) else t.kids[q]
  {
    var n := t.kids[k][j];
    assert ListOk(t, k) && ListOk(t, q) && n in t.kids[k];
    if q == k {
      DropOne(t.kids[k], j);
    } else {
      DroppedNone(t.kids[q], {n});
    }
  }

  /** A list none of whose links changed. */
  lemma {:induction false} ChainKept(nodes: Nodes, after: Nodes, l: seq<nat>)
    requires Chained(nodes, l)
    requires forall x :: x in l ==> x in after && after[x].next == nodes[x].next
    ensures Chained(after, l)
  {
    forall i | 0 <= i < |l| ensures l[i] in after && after[l[i]].next == NextIn(l, i) {
      assert l[i] in l;
    }
  }

  /** A list one of whose links bypasses entry `j`. */
  lemma {:induction false} ChainBypassed(nodes: Nodes, after: Nodes, l: seq<nat>, j: nat)
    requires Chained(nodes, l) && j < |l|
    requires forall i :: 0 <= i < |l| && i != j ==>
      l[i] in after && after[l[i]].next == if i == j - 1 then NextIn(l, j) else nodes[l[i]].next
    ensures Chained(after, Without(l, j))
  {
    var r := Without(l, j);
    forall i | 0 <= i < |r| ensures r[i] in after && after[r[i]].next == NextIn(r, i) {
      var b := if i < j then i else i + 1;
      assert r[i] == l[b] && nodes[l[b]].next == NextIn(l, b) && nodes[l[j]].next == NextIn(l, j);
    }
  }

  lemma {:induction false} BypassedNode(nodes: Nodes, k: nat, l: seq<nat>, j: nat, x: nat)
    requires Reached(nodes, k, l, j) && x in nodes
    ensures Bypassed(nodes, k, l, j).Keys == nodes.Keys
    ensures
      var y := Bypassed(nodes, k, l, j)[x];
      && SameCommand(nodes[x], y)
      && y.next == (if j > 0 && x == l[j - 1] then NextIn(l, j) else nodes[x].next)
      && y.children == (if j == 0 && x == k != 0 then NextIn(l, j) else nodes[x].children)
  {}

  lemma {:induction false} BypassedList(nodes: Nodes, root: nat, t: Tree, k: nat, j: nat, q: nat)
    requires Represents(nodes, root, t) && k in t.kids && q in t.kids && j < |t.kids[k]| && q != t.kids[k][j]
    requires Reached(nodes, k, t.kids[k], j)
    ensures
      var l := if q == k then Without(t.kids[k], j) else t.kids[q];
      Chained(Bypassed(nodes, k, t.kids[k], j) - {t.kids[k][j]}, l)
  {
    var l, n := t.kids[k], t.kids[k][j];
    var after := Bypassed(nodes, k, l, j) - {n};
    assert ListOk(t, k) && ListOk(t, q) && Chained(nodes, t.kids[q]) && n in l;
    assert j > 0 ==> l[j - 1] in l;
    if q == k {
      forall i | 0 <= i < |l| && i != j
        ensures l[i] in after && after[l[i]].next == if i == j - 1 then NextIn(l, j) else nodes[l[i]].next
      {
        BypassedNode(nodes, k, l, j, l[i]);
      }
      ChainBypassed(nodes, after, l, j);
    } else {
      forall x | x in t.kids[q] ensures x in after && after[x].next == nodes[x].next {
        BypassedNode(nodes, k, l, j, x);
      }
      ChainKept(nodes, after, t.kids[q]);
    }
  }

  lemma {:induction false} BypassedHead(nodes: Nodes, root: nat, t: Tree, k: nat, j: nat, q: nat)
    requires Represents(nodes, root, t) && k in t.kids && q in t.kids && j < |t.kids[k]| && q != t.kids[k][j]
    requires Reached(nodes, k, t.kids[k], j)
    ensures
      var l := if q == k then Without(t.kids[k], j) else t.kids[q];
      && (q == 0 ==> NewRoot(root, k, t.kids[k], j) == First(l))
      && (q != 0 ==> q in nodes && Bypassed(nodes, k, t.kids[k], j)[q].children == First(l))
  {
    assert Headed(nodes, root, t, q);
    if q != 0 {
      BypassedNode(nodes, k, t.kids[k], j, q);
    }
  }

  lemma {:induction false} BypassedKids(nodes: Nodes, root: nat, t: Tree, k: nat, j: nat, q: nat)
    requires Represents(nodes, root, t) && k in t.kids && j < |t.kids[k]| && Reached(nodes, k, t.kids[k], j)
    requires q in Pruned(t, {t.kids[k][j]}).kids
    ensures
      var n := t.kids[k][j]; var r, after := Pruned(t, {n}), Bypassed(nodes, k, t.kids[k], j) - {n};
      Headed(after, NewRoot(root, k, t.kids[k], j), r, q) && Chained(after, r.kids[q])
  {
    LeafPrunedList(t, k, j, q);
    BypassedList(nodes, root, t, k, j, q);
    BypassedHead(nodes, root, t, k, j, q);
  }

  lemma {:induction false} BypassedSurvive(nodes: Nodes, k: nat, l: seq<nat>, j: nat)
    requires Reached(nodes, k, l, j)
    ensures Survive(nodes, Bypassed(nodes, k, l, j) - {l[j]}, {l[j]})
  {
    forall x | x in nodes ensures SameCommand(nodes[x], Bypassed(nodes, k, l, j)[x]) {
      BypassedNode(nodes, k, l, j, x);
    }
  }

  lemma {:induction false} BypassedLists(nodes: Nodes, root: nat, t: Tree, k: nat, j: nat, n: nat)
    requires Represents(nodes, root, t) && k in t.kids && Reached(nodes, k, t.kids[k], j) && n == t.kids[k][j]
    ensures Lists(Bypassed(nodes, k, t.kids[k], j) - {n}, NewRoot(root, k, t.kids[k], j), Pruned(t, {n}))
  {
    forall q | q in Pruned(t, {n}).kids
      ensures
        && Headed(Bypassed(nodes, k, t.kids[k], j) - {n}, NewRoot(root, k, t.kids[k], j), Pruned(t, {n}), q)
        && Chained(Bypassed(nodes, k, t.kids[k], j) - {n}, Pruned(t, {n}).kids[q])
    {
      BypassedKids(nodes, root, t, k, j, q);
    }
  }

  lemma {:induction false} BypassedRepresents(nodes: Nodes, root: nat, t: Tree, k: nat, j: nat, n: nat)
    requires Represents(nodes, root, t) && k in t.kids && Reached(nodes, k, t.kids[k], j) && n == t.kids[k][j]
    requires n in t.up && n in t.kids && t.kids[n] == []
    ensures Represents(Bypassed(nodes, k, t.kids[k], j) - {n}, NewRoot(root, k, t.kids[k], j), Pruned(t, {n}))
  {
    LeafPruned(t, n);
    BypassedParents(nodes, t, k, j, n);
    BypassedLists(nodes, root, t, k, j, n);
  }

  lemma {:induction false} LeafPruned(t: Tree, n: nat)
    requires TreeOk(t) && n in t.up && n in t.kids && t.kids[n] == []
    ensures TreeOk(Pruned(t, {n}))
  {
    LeafClosed(t, n);
    PrunedOk(t, {n});
  }

  lemma {:induction false} BypassedParents(nodes: Nodes, t: Tree, k: nat, j: nat, n: nat)
    requires Parents(nodes, t) && k in t.kids && Reached(nodes, k, t.kids[k], j) && n == t.kids[k][j]
    ensures Parents(Bypassed(nodes, k, t.kids[k], j) - {n}, Pruned(t, {n}))
  {
    BypassedSurvive(nodes, k, t.kids[k], j);
  }

  /** What the list `l` of the children of `parent` looks like to a walk along it. */
  ghost predicate Walkable(nodes: Nodes, root: nat, parent: nat, l: seq<nat>) {
    && Chained(nodes, l) && Distinct(l) && parent !in l && 0 !in l
    && (parent == 0 ==> root == First(l))
    && (parent != 0 ==> parent in nodes && nodes[parent].children == First(l) && root !in l
                        && nodes[parent].parent != parent
                        && (nodes[parent].parent != 0 ==> nodes[parent].parent in nodes))
  }

  lemma {:induction false} ListWalkable(nodes: Nodes, root: nat, t: Tree, k: nat)
    requires Represents(nodes, root, t) && k in t.kids
    ensures Walkable(nodes, root, k, t.kids[k])
  {
    var l := t.kids[k];
    assert ListOk(t, k) && ListOk(t, 0) && Headed(nodes, root, t, k) && Headed(nodes, root, t, 0);
    assert forall c :: c in l ==> NodeOk(t, c);
    if k != 0 {
      assert NodeOk(t, k);
      assert root == 0 || root in t.kids[0];
    }
  }

  /** Where the cursor goes when the command it stands on is taken out. */
  ghost function NewCurrent(nodes: Nodes, root: nat, current: nat, k: nat, l: seq<nat>, j: nat): (r: nat)
    requires j < |l| && (k != 0 ==> k in nodes && (nodes[k].parent != 0 ==> nodes[k].parent in nodes))
  {
    if current != l[j] then current
    else if k != 0 && nodes[k].parent != 0 then nodes[nodes[k].parent].children
    else NewRoot(root, k, l, j)
  }

  lemma {:induction false} CursorStays(t: Tree, current: nat, at: nat, k: nat, j: nat, n: nat)
    requires TreeOk(t) && Cursor(t, current, at) && k in t.kids && j < |t.kids[k]| && n == t.kids[k][j]
    requires n in t.kids && t.kids[n] == [] && n != 0 && current != n
    ensures Cursor(Pruned(t, {n}), current, at)
  {
    LeafPrunedList(t, k, j, at);
  }

  lemma {:induction false} CursorUp(nodes: Nodes, root: nat, t: Tree, k: nat, j: nat, g: nat)
    requires Represents(nodes, root, t) && k in t.up && k in t.kids && j < |t.kids[k]| && g == t.up[k]
    ensures Cursor(Pruned(t, {t.kids[k][j]}), if g == 0 then root else if g in nodes then nodes[g].children else 0, g)
  {
    var n := t.kids[k][j];
    assert ListOk(t, k) && n in t.kids[k] && NodeOk(t, n) && NodeOk(t, k) && k in t.kids[g];
    assert Headed(nodes, root, t, g);
    LeafPrunedList(t, k, j, g);
  }

  lemma {:induction false} CursorAtRoot(t: Tree)
    requires TreeOk(t) && t.kids[0] != []
    ensures Cursor(Pruned(t, {t.kids[0][0]}), NextIn(t.kids[0], 0), 0)
  {
    assert ListOk(t, 0) && t.kids[0][0] in t.kids[0] && NodeOk(t, t.kids[0][0]);
    LeafPrunedList(t, 0, 0, 0);
  }

  lemma {:induction false} CursorMoves(nodes: Nodes, root: nat, t: Tree, k: nat, l: seq<nat>) returns (at': nat)
    requires Represents(nodes, root, t) && k in t.kids && l == t.kids[k] && l != []
    requires k != 0 ==> k in nodes && (nodes[k].parent != 0 ==> nodes[k].parent in nodes)
    ensures Cursor(Pruned(t, {l[0]}), NewCurrent(nodes, root, l[0], k, l, 0), at')
  {
    if k == 0 {
      at' := 0;
      CursorAtRoot(t);
    } else {
      at' := nodes[k].parent;
      CursorUp(nodes, root, t, k, 0, at');
    }
  }

  lemma {:induction false} CursorHeads(t: Tree, current: nat, at: nat, k: nat)
    requires TreeOk(t) && Cursor(t, current, at) && k in t.kids && current in t.kids[k]
    ensures current == t.kids[k][0]
  {
    assert ListOk(t, at) && ListOk(t, k) && ListOk(t, 0);
    assert NodeOk(t, current);
  }

  /** Every length is longer than what the name shares with a sibling's. */
  ghost predicate LongAmong(nodes: Nodes, s: seq<nat>) {
    forall x, y {:trigger CliAbbrev.Common(nodes[x].name, nodes[y].name)} ::
      x in s && y in s && x in nodes && y in nodes && x != y ==>
      nodes[x].uniqueLen > CliAbbrev.Common(nodes[x].name, nodes[y].name)
  }

  ghost predicate Lengths(nodes: Nodes, t: Tree) {
    forall k :: k in t.kids ==> LongAmong(nodes, t.kids[k])
  }

  lemma {:induction false} LengthsStay(before: Nodes, after: Nodes, t: Tree, gone: set<nat>)
    requires Lengths(before, t) && Survive(before, after, gone)
    ensures Lengths(after, Pruned(t, gone))
  {
    var r := Pruned(t, gone);
    forall k | k in r.kids ensures LongAmong(after, r.kids[k]) {
      DroppedFacts(t.kids[k], gone);
      assert LongAmong(before, t.kids[k]);
    }
  }

  ghost predicate MenuOk(nodes: Nodes, root: nat, current: nat, nextId: nat, t: Tree, at: nat) {
    && Represents(nodes, root, t) && Cursor(t, current, at) && Lengths(nodes, t)
    && nextId > 0 && forall n :: n in nodes ==> n < nextId
  }

  /** A menu whose command `n`, entry `j` of list `l`, was bypassed and freed. */
  lemma {:induction false} LeafGone(
    nodes: Nodes, root: nat, current: nat, nextId: nat, t: Tree, at: nat, k: nat, l: seq<nat>, j: nat, n: nat)
    returns (at': nat)
    requires MenuOk(nodes, root, current, nextId, t, at)
    requires k in t.kids && l == t.kids[k] && j < |l| && l[j] == n && n in t.up && n in t.kids && t.kids[n] == []
    requires Walkable(nodes, root, k, l) && (current in l ==> current == l[0])
    ensures Reached(nodes, k, l, j)
    ensures
      var after := Bypassed(nodes, k, l, j) - {n};
      && MenuOk(after, NewRoot(root, k, l, j), NewCurrent(nodes, root, current, k, l, j), nextId, Pruned(t, {n}), at')
      && Survive(nodes, after, {n})
  {
    assert j > 0 ==> l[j - 1] in nodes;
    BypassedRepresents(nodes, root, t, k, j, n);
    BypassedSurvive(nodes, k, l, j);
    LengthsStay(nodes, Bypassed(nodes, k, l, j) - {n}, t, {n});
    at' := CursorAfter(nodes, root, current, t, at, k, l, j, n);
  }

  /** Command `n` is entry `j` of list `l`. */
  ghost predicate Located(nodes: Nodes, root: nat, current: nat, n: nat, l: seq<nat>, j: nat) {
    && n in nodes && j < |l| && l[j] == n && Walkable(nodes, root, nodes[n].parent, l)
    && (current in l ==> current == l[0]) && Reached(nodes, nodes[n].parent, l, j)
  }

  /** Where a childless command is found, and that taking it out there works. */
  lemma {:induction false} TakeOut(nodes: Nodes, root: nat, current: nat, nextId: nat, t: Tree, at: nat, n: nat)
    returns (l: seq<nat>, j: nat, at': nat)
    requires MenuOk(nodes, root, current, nextId, t, at) && n in nodes && n in t.kids && t.kids[n] == []
    ensures Located(nodes, root, current, n, l, j)
    ensures
      var k := nodes[n].parent; var after := Bypassed(nodes, k, l, j) - {n};
      && MenuOk(after, NewRoot(root, k, l, j), NewCurrent(nodes, root, current, k, l, j), nextId, Pruned(t, {n}), at')
      && Survive(nodes, after, {n})
  {
    assert NodeOk(t, n);
    var k := t.up[n];
    l := t.kids[k];
    j :| 0 <= j < |l| && l[j] == n;
    ListWalkable(nodes, root, t, k);
    if current in l {
      CursorHeads(t, current, at, k);
    }
    at' := LeafGone(nodes, root, current, nextId, t, at, k, l, j, n);
  }

  lemma {:induction false} CursorAfter(
    nodes: Nodes, root: nat, current: nat, t: Tree, at: nat, k: nat, l: seq<nat>, j: nat, n: nat)
    returns (at': nat)
    requires Represents(nodes, root, t) && Cursor(t, current, at)
    requires k in t.kids && l == t.kids[k] && j < |l| && l[j] == n && n in t.up && n in t.kids && t.kids[n] == []
    requires Walkable(nodes, root, k, l) && (current in l ==> current == l[0])
    ensures Cursor(Pruned(t, {n}), NewCurrent(nodes, root, current, k, l, j), at')
  {
    if current == n {
      assert ListOk(t, k) && j == 0;
      at' := CursorMoves(nodes, root, t, k, l);
    } else {
      at' := at;
      assert NodeOk(t, n);
      CursorStays(t, current, at, k, j, n);
    }
  }

  // Deleting a command with everything below it.

  lemma {:induction false} SurviveTwice(a: Nodes, b: Nodes, c: Nodes, gone: set<nat>, more: set<nat>)
    requires Survive(a, b, gone) && Survive(b, c, more)
    ensures Survive(a, c, gone + more)
  {
    forall n | n in c ensures SameCommand(a[n], c[n]) {
      assert SameCommand(a[n], b[n]);
    }
  }

  /** The menu while the children of `cmd` are deleted one after the other: `i` of them are gone. */
  ghost predicate Deleting(before: Nodes, t: Tree, cmd: nat, i: nat, nodes: Nodes, now: Tree) {
    && TreeOk(t) && cmd in t.up && cmd in t.kids && i <= |t.kids[cmd]|
    && now == Pruned(t, DoomedKids(t, cmd, i)) && Survive(before, nodes, DoomedKids(t, cmd, i))
  }

  lemma {:induction false} DeletingStarts(nodes: Nodes, root: nat, t: Tree, cmd: nat)
    requires Represents(nodes, root, t) && cmd in nodes
    ensures cmd in t.kids && Deleting(nodes, t, cmd, 0, nodes, t) && nodes[cmd].children == First(t.kids[cmd])
  {
    assert NodeOk(t, cmd);
    PrunedNone(t);
    assert Headed(nodes, root, t, cmd);
  }

  lemma {:induction false} NoNull(t: Tree, k: nat, i: nat)
    requires TreeOk(t) && k in t.kids && i < |t.kids[k]|
    ensures t.kids[k][i] != 0
  {
    assert ListOk(t, k) && t.kids[k][i] in t.kids[k] && NodeOk(t, t.kids[k][i]);
  }

  /** The next child to go, and the one behind it. */
  lemma {:induction false} DeletingNext(before: Nodes, t: Tree, cmd: nat, i: nat, nodes: Nodes, root: nat, now: Tree)
    requires Deleting(before, t, cmd, i, nodes, now) && Represents(nodes, root, now) && i < |t.kids[cmd]|
    ensures
      var c := t.kids[cmd][i];
      && cmd < c && c in nodes && nodes[c].next == NextIn(t.kids[cmd], i)
      && Doomed(now, c) == Doomed(t, c)
  {
    var s := t.kids[cmd];
    assert ListOk(t, cmd) && s[i] in s && NodeOk(t, s[i]);
    NextChild(t, cmd, i);
    ParentStays(t, cmd, i);
    KidsLeft(t, cmd, i);
    assert now.kids[cmd] == s[i..] && s[i..][0] == s[i];
    assert Chained(nodes, now.kids[cmd]);
    assert nodes[s[i..][0]].next == NextIn(s[i..], 0);
  }

  lemma {:induction false} DeletingStep(
    before: Nodes, t: Tree, cmd: nat, i: nat, nodes: Nodes, now: Tree, after: Nodes, c: nat)
    requires Deleting(before, t, cmd, i, nodes, now) && i < |t.kids[cmd]| && c == t.kids[cmd][i]
    requires Survive(nodes, after, Doomed(t, c))
    ensures Deleting(before, t, cmd, i + 1, after, Pruned(now, Doomed(t, c)))
  {
    PrunedTwice(t, DoomedKids(t, cmd, i), Doomed(t, c));
    SurviveTwice(before, nodes, after, DoomedKids(t, cmd, i), Doomed(t, c));
  }

  lemma {:induction false} DeletingEnds(before: Nodes, t: Tree, cmd: nat, nodes: Nodes, root: nat, now: Tree)
    requires cmd in t.kids && Deleting(before, t, cmd, |t.kids[cmd]|, nodes, now) && Represents(nodes, root, now)
    requires Parents(before, t)
    ensures cmd in nodes && cmd in now.kids && now.kids[cmd] == []
  {
    ParentStays(t, cmd, |t.kids[cmd]|);
    KidsLeft(t, cmd, |t.kids[cmd]|);
    assert t.kids[cmd][|t.kids[cmd]|..] == [];
  }

  lemma {:induction false} DeletingDone(before: Nodes, t: Tree, cmd: nat, nodes: Nodes, now: Tree, after: Nodes)
    requires cmd in t.kids && Deleting(before, t, cmd, |t.kids[cmd]|, nodes, now) && Survive(nodes, after, {cmd})
    ensures Pruned(now, {cmd}) == Pruned(t, Doomed(t, cmd)) && Survive(before, after, Doomed(t, cmd))
  {
    var gone := DoomedKids(t, cmd, |t.kids[cmd]|);
    PrunedTwice(t, gone, {cmd});
    SurviveTwice(before, nodes, after, gone, {cmd});
    forall n ensures n in Doomed(t, cmd) <==> n in gone + {cmd} {
      DoomedSplits(t, cmd, n);
    }
    assert Doomed(t, cmd) == gone + {cmd};
  }

  // Rebuilding the shortest lengths.

  ghost function Names(nodes: Nodes, s: seq<nat>): (names: seq<string>)
    ensures |names| == |s|
  {
    if s == [] then []
    else
      var last := s[|s| - 1];
      Names(nodes, s[..|s| - 1]) + [if last in nodes then nodes[last].name else ""]
  }

  lemma {:induction false} NamesAt(nodes: Nodes, s: seq<nat>, i: nat)
    requires i < |s| && s[i] in nodes
    ensures Names(nodes, s)[i] == nodes[s[i]].name
  {
    if i < |s| - 1 {
      NamesAt(nodes, s[..|s| - 1], i);
    }
  }

  /** Only lengths differ. */
  ghost predicate Relabelled(a: Nodes, b: Nodes) {
    && b.Keys == a.Keys
    && forall n {:trigger b[n]} :: n in b ==> b[n] == a[n].(uniqueLen := b[n].uniqueLen)
  }

  lemma {:induction false} SameNames(a: Nodes, b: Nodes, s: seq<nat>)
    requires Relabelled(a, b)
    ensures Names(a, s) == Names(b, s)
  {
    if s != [] {
      SameNames(a, b, s[..|s| - 1]);
      var last := s[|s| - 1];
      assert last in b ==> b[last].name == a[last].name;
    }
  }

  lemma {:induction false} RelabelledChain(a: Nodes, b: Nodes, s: seq<nat>)
    requires Relabelled(a, b) && Chained(a, s)
    ensures Chained(b, s)
  {
    forall i | 0 <= i < |s| ensures b[s[i]].next == NextIn(s, i) {
      assert a[s[i]].next == NextIn(s, i);
    }
  }

  lemma {:induction false} RelabelledLists(a: Nodes, b: Nodes, root: nat, t: Tree)
    requires Relabelled(a, b) && Lists(a, root, t)
    ensures Lists(b, root, t)
  {
    forall k | k in t.kids ensures Headed(b, root, t, k) && Chained(b, t.kids[k]) {
      assert Headed(a, root, t, k) && Chained(a, t.kids[k]);
      RelabelledChain(a, b, t.kids[k]);
    }
  }

  lemma {:induction false} RelabelledRepresents(a: Nodes, b: Nodes, root: nat, t: Tree)
    requires Relabelled(a, b) && Represents(a, root, t)
    ensures Represents(b, root, t)
  {
    RelabelledLists(a, b, root, t);
    forall n | n in b ensures b[n].parent == t.up[n] {
      assert a[n].parent == t.up[n];
    }
  }

  ghost predicate FreshAt(nodes: Nodes, s: seq<nat>, i: nat)
    requires i < |s|
  {
    s[i] in nodes && nodes[s[i]].uniqueLen == CliAbbrev.UniqueLen(Names(nodes, s), i, |s|)
  }

  /** The lengths of a list are those built from its names. */
  ghost predicate FreshList(nodes: Nodes, s: seq<nat>) {
    forall i {:trigger FreshAt(nodes, s, i)} :: 0 <= i < |s| ==> FreshAt(nodes, s, i)
  }

  lemma {:induction false} FreshAtStays(a: Nodes, b: Nodes, s: seq<nat>, i: nat)
    requires Relabelled(a, b) && i < |s| && FreshAt(a, s, i) && s[i] in b && b[s[i]].uniqueLen == a[s[i]].uniqueLen
    ensures FreshAt(b, s, i)
  {
    SameNames(a, b, s);
  }

  lemma {:induction false} FreshIsLong(nodes: Nodes, s: seq<nat>)
    requires FreshList(nodes, s) && Distinct(s)
    ensures LongAmong(nodes, s)
  {
    forall x, y | x in s && y in s && x in nodes && y in nodes && x != y
      ensures nodes[x].uniqueLen > CliAbbrev.Common(nodes[x].name, nodes[y].name)
    {
      var i :| 0 <= i < |s| && s[i] == x;
      var j :| 0 <= j < |s| && s[j] == y;
      assert FreshAt(nodes, s, i);
      NamesAt(nodes, s, i);
      NamesAt(nodes, s, j);
      CliAbbrev.UniqueLenFacts(Names(nodes, s), i, |s|);
    }
  }

  /** The lists of `a` and of everything below it are fresh. */
  ghost predicate FreshBelow(nodes: Nodes, t: Tree, a: nat) {
    forall q {:trigger FreshList(nodes, t.kids[q])} :: q in t.kids && Under(t.up, q, a) ==> FreshList(nodes, t.kids[q])
  }

  ghost predicate Untouched(before: Nodes, nodes: Nodes, t: Tree, k: nat) {
    forall n {:trigger nodes[n]} :: n in nodes && n in before && n in t.up && !Under(t.up, t.up[n], k) ==>
      nodes[n] == before[n]
  }

  /** The rebuild of the list of `k` is done with its first `i` entries and all that is below them. */
  ghost predicate Built(before: Nodes, nodes: Nodes, t: Tree, k: nat, i: nat) {
    && k in t.kids && i <= |t.kids[k]| && Relabelled(before, nodes) && Untouched(before, nodes, t, k)
    && forall j {:trigger t.kids[k][j]} :: 0 <= j < i ==>
       FreshAt(nodes, t.kids[k], j) && FreshBelow(nodes, t, t.kids[k][j])
  }

  lemma {:induction false} BuiltAll(before: Nodes, nodes: Nodes, t: Tree, k: nat)
    requires TreeOk(t) && k in t.kids && Built(before, nodes, t, k, |t.kids[k]|)
    ensures FreshBelow(nodes, t, k)
  {
    var s := t.kids[k];
    forall q | q in t.kids && Under(t.up, q, k) ensures FreshList(nodes, t.kids[q]) {
      if q == k {
        forall i | 0 <= i < |s| ensures FreshAt(nodes, s, i) {
          assert s[i] in s;
        }
      } else {
        var c := ChildOver(t, k, q);
        var j :| 0 <= j < |s| && s[j] == c;
        assert FreshBelow(nodes, t, s[j]);
      }
    }
  }

  lemma {:induction false} FreshListStays(a: Nodes, b: Nodes, s: seq<nat>)
    requires Relabelled(a, b) && FreshList(a, s)
    requires forall x :: x in s && x in b ==> b[x] == a[x]
    ensures FreshList(b, s)
  {
    forall i | 0 <= i < |s| ensures FreshAt(b, s, i) {
      assert FreshAt(a, s, i) && s[i] in s;
      FreshAtStays(a, b, s, i);
    }
  }

  /** Changes elsewhere, to children of nothing below `a`, leave the lists there fresh. */
  lemma {:induction false} FreshBelowStays(a: Nodes, b: Nodes, t: Tree, top: nat)
    requires TreeOk(t) && Relabelled(a, b) && FreshBelow(a, t, top)
    requires forall n {:trigger b[n]} :: n in b && n in t.up && Under(t.up, t.up[n], top) ==> b[n] == a[n]
    ensures FreshBelow(b, t, top)
  {
    forall q | q in t.kids && Under(t.up, q, top) ensures FreshList(b, t.kids[q]) {
      assert FreshList(a, t.kids[q]) && ListOk(t, q);
      FreshListStays(a, b, t.kids[q]);
    }
  }

  lemma {:induction false} RelabelledTwice(a: Nodes, b: Nodes, c: Nodes)
    requires Relabelled(a, b) && Relabelled(b, c)
    ensures Relabelled(a, c)
  {
    forall n | n in c ensures c[n] == a[n].(uniqueLen := c[n].uniqueLen) {
      assert b[n] == a[n].(uniqueLen := b[n].uniqueLen);
    }
  }

  lemma {:induction false} NotUnderChild(t: Tree, k: nat, i: nat)
    requires TreeOk(t) && k in t.kids && i < |t.kids[k]|
    ensures var c := t.kids[k][i];
      c in t.up && t.up[c] == k && c in t.kids && k < c && !Under(t.up, k, c) && Under(t.up, c, k)
  {
    var c := t.kids[k][i];
    assert ListOk(t, k) && c in t.kids[k] && NodeOk(t, c);
    if Under(t.up, k, c) {
      UnderIsLarger(t.up, k, c);
    }
  }

  lemma {:induction false} NotUnderSibling(t: Tree, k: nat, i: nat, j: nat, q: nat)
    requires TreeOk(t) && k in t.kids && i < |t.kids[k]| && j < |t.kids[k]| && i != j && q in t.kids
    requires Under(t.up, q, t.kids[k][j])
    ensures !Under(t.up, q, t.kids[k][i])
  {
    var s := t.kids[k];
    NotUnderChild(t, k, i);
    NotUnderChild(t, k, j);
    UnderIsLarger(t.up, q, s[j]);
    assert ListOk(t, k);
    SiblingsApart(t, s[i], s[j]);
    assert q in Doomed(t, s[j]);
  }

  lemma {:induction false} BuiltMeasured(before: Nodes, nodes: Nodes, now: Nodes, t: Tree, k: nat, i: nat)
    requires TreeOk(t) && Built(before, nodes, t, k, i) && i < |t.kids[k]| && Relabelled(nodes, now)
    requires forall n {:trigger now[n]} :: n in now && n != t.kids[k][i] ==> now[n] == nodes[n]
    ensures Built(before, now, t, k, i)
  {
    var s := t.kids[k];
    RelabelledTwice(before, nodes, now);
    NotUnderChild(t, k, i);
    assert ListOk(t, k);
    forall n | n in now && n in before && n in t.up && !Under(t.up, t.up[n], k) ensures now[n] == before[n] {
      assert nodes[n] == before[n];
    }
    forall j | 0 <= j < i ensures FreshAt(now, s, j) && FreshBelow(now, t, s[j]) {
      FreshAtStays(nodes, now, s, j);
      NotUnderChild(t, k, j);
      FreshBelowStays(nodes, now, t, s[j]);
    }
  }

  lemma {:induction false} BuiltBelowOne(nodes: Nodes, now: Nodes, t: Tree, k: nat, i: nat, j: nat)
    requires TreeOk(t) && k in t.kids && i < |t.kids[k]| && j < |t.kids[k]| && i != j
    requires Relabelled(nodes, now) && Untouched(nodes, now, t, t.kids[k][i]) && FreshBelow(nodes, t, t.kids[k][j])
    ensures FreshBelow(now, t, t.kids[k][j])
  {
    forall n | n in now && n in t.up && Under(t.up, t.up[n], t.kids[k][j]) ensures now[n] == nodes[n] {
      assert NodeOk(t, n);
      NotUnderSibling(t, k, i, j, t.up[n]);
    }
    FreshBelowStays(nodes, now, t, t.kids[k][j]);
  }

  lemma {:induction false} BuiltBelow(before: Nodes, nodes: Nodes, now: Nodes, t: Tree, k: nat, i: nat, c: nat)
    requires TreeOk(t) && Built(before, nodes, t, k, i) && i < |t.kids[k]| && FreshAt(nodes, t.kids[k], i)
    requires c == t.kids[k][i]
    requires c in t.kids && Built(nodes, now, t, c, |t.kids[c]|)
    ensures Built(before, now, t, k, i + 1)
  {
    var s := t.kids[k];
    RelabelledTwice(before, nodes, now);
    NotUnderChild(t, k, i);
    forall n | n in now && n in before && n in t.up && !Under(t.up, t.up[n], k) ensures now[n] == before[n] {
      if Under(t.up, t.up[n], c) {
        UnderTransitive(t.up, t.up[n], c, k);
      }
      assert nodes[n] == before[n];
    }
    forall j | 0 <= j < i + 1 ensures FreshAt(now, s, j) && FreshBelow(now, t, s[j]) {
      NotUnderChild(t, k, j);
      FreshAtStays(nodes, now, s, j);
      if j == i {
        BuiltAll(nodes, now, t, c);
      } else {
        BuiltBelowOne(nodes, now, t, k, i, j);
      }
    }
  }

  lemma {:induction false} NextPointer(nodes: Nodes, root: nat, t: Tree, k: nat, i: nat)
    requires Represents(nodes, root, t) && k in t.kids && i < |t.kids[k]|
    ensures t.kids[k][i] in nodes && nodes[t.kids[k][i]].next == NextIn(t.kids[k], i)
  {
    assert Chained(nodes, t.kids[k]);
  }

  /** A command without a child pointer has no children, so that nothing below it needs a rebuild. */
  lemma {:induction false} HasKids(nodes: Nodes, root: nat, t: Tree, c: nat)
    requires Represents(nodes, root, t) && c in nodes && c in t.kids
    ensures nodes[c].children == First(t.kids[c])
    ensures nodes[c].children == 0 ==> t.kids[c] == [] && Built(nodes, nodes, t, c, 0)
  {
    assert NodeOk(t, c) && Headed(nodes, root, t, c);
    if t.kids[c] != [] {
      NoNull(t, c, 0);
    }
  }

  // Adding a command at the end of a list.

  /** The store with command `c` linked behind the list `l` of the children of `parent`. */
  ghost function Appended(nodes: Nodes, parent: nat, l: seq<nat>, c: nat, cmd: Command): (r: Nodes)
    requires if l == [] then parent != 0 ==> parent in nodes else l[|l| - 1] in nodes
  {
    var added := nodes[c := cmd];
    if l != [] then added[l[|l| - 1] := nodes[l[|l| - 1]].(next := c)]
    else if parent != 0 then added[parent := nodes[parent].(children := c)]
    else added
  }

  ghost predicate Appendable(nodes: Nodes, root: nat, t: Tree, parent: nat, c: nat, cmd: Command) {
    && Represents(nodes, root, t) && parent in t.kids && parent < c && c !in t.kids && c !in nodes
    && cmd.next == 0 && cmd.children == 0 && cmd.parent == parent
    && (parent != 0 ==> parent in nodes)
    && forall i :: 0 <= i < |t.kids[parent]| ==> t.kids[parent][i] in nodes
  }

  ghost function NewTop(root: nat, parent: nat, l: seq<nat>, c: nat): (r: nat) {
    if parent == 0 && l == [] then c else root
  }

  lemma {:induction false} AppendedChain(nodes: Nodes, root: nat, t: Tree, parent: nat, c: nat, cmd: Command, q: nat)
    requires Appendable(nodes, root, t, parent, c, cmd) && q in t.kids
    ensures
      var l := if q == parent then t.kids[parent] + [c] else t.kids[q];
      Chained(Appended(nodes, parent, t.kids[parent], c, cmd), l)
  {
    var l, s := t.kids[parent], t.kids[q];
    var after := Appended(nodes, parent, l, c, cmd);
    assert ListOk(t, q) && ListOk(t, parent) && Chained(nodes, s);
    if q == parent {
      var r := l + [c];
      forall i | 0 <= i < |r| ensures r[i] in after && after[r[i]].next == NextIn(r, i) {
        assert i < |l| ==> nodes[l[i]].next == NextIn(l, i) && l[i] in l;
      }
    } else {
      forall x | x in s ensures x in after && after[x].next == nodes[x].next {
        assert l != [] ==> l[|l| - 1] in l;
      }
      ChainKept(nodes, after, s);
    }
  }

  lemma {:induction false} AppendedHead(nodes: Nodes, root: nat, t: Tree, parent: nat, c: nat, cmd: Command, q: nat)
    requires Appendable(nodes, root, t, parent, c, cmd) && q in Grown(t, parent, c).kids
    ensures Headed(Appended(nodes, parent, t.kids[parent], c, cmd), NewTop(root, parent, t.kids[parent], c),
      Grown(t, parent, c), q)
  {
    if q in t.kids {
      assert Headed(nodes, root, t, q) && ListOk(t, parent);
    }
  }

  lemma {:induction false} AppendedLists(nodes: Nodes, root: nat, t: Tree, parent: nat, c: nat, cmd: Command)
    requires Appendable(nodes, root, t, parent, c, cmd)
    ensures Lists(Appended(nodes, parent, t.kids[parent], c, cmd), NewTop(root, parent, t.kids[parent], c),
      Grown(t, parent, c))
  {
    var after, r := Appended(nodes, parent, t.kids[parent], c, cmd), Grown(t, parent, c);
    forall q | q in r.kids
      ensures Headed(after, NewTop(root, parent, t.kids[parent], c), r, q) && Chained(after, r.kids[q])
    {
      AppendedHead(nodes, root, t, parent, c, cmd, q);
      if q in t.kids {
        AppendedChain(nodes, root, t, parent, c, cmd, q);
      }
    }
  }

  lemma {:induction false} AppendedRepresents(nodes: Nodes, root: nat, t: Tree, parent: nat, c: nat, cmd: Command)
    requires Appendable(nodes, root, t, parent, c, cmd)
    ensures Represents(Appended(nodes, parent, t.kids[parent], c, cmd), NewTop(root, parent, t.kids[parent], c),
      Grown(t, parent, c))
  {
    GrownOk(t, parent, c);
    AppendedLists(nodes, root, t, parent, c, cmd);
    AppendedParents(nodes, t, parent, c, cmd);
  }

  lemma {:induction false} AppendedParents(nodes: Nodes, t: Tree, parent: nat, c: nat, cmd: Command)
    requires Parents(nodes, t) && parent in t.kids && c !in nodes && cmd.parent == parent
    requires parent != 0 ==> parent in nodes
    requires forall i :: 0 <= i < |t.kids[parent]| ==> t.kids[parent][i] in nodes
    ensures Parents(Appended(nodes, parent, t.kids[parent], c, cmd), Grown(t, parent, c))
  {
    var after := Appended(nodes, parent, t.kids[parent], c, cmd);
    forall n | n in after ensures after[n].parent == Grown(t, parent, c).up[n] {
      assert n in nodes ==> nodes[n].parent == t.up[n];
    }
  }

  lemma {:induction false} CursorGrows(t: Tree, root: nat, current: nat, at: nat, parent: nat, c: nat)
    requires TreeOk(t) && Cursor(t, current, at) && parent in t.kids && c !in t.kids && c != 0
    requires root == First(t.kids[0])
    ensures
      var first := root == 0 && parent == 0;
      Cursor(Grown(t, parent, c), if first then c else current, if first then 0 else at)
  {
    if t.kids[0] != [] {
      NoNull(t, 0, 0);
    }
  }

  /** What a caller keeps when lengths are rebuilt and links move. */
  ghost predicate SameNaming(before: Nodes, after: Nodes) {
    && (forall n :: n in before ==> n in after)
    && (forall n {:trigger after[n]} :: n in before ==>
          after[n].name == before[n].name && after[n].mode == before[n].mode && after[n].parent == before[n].parent)
  }

  ghost predicate AllFresh(nodes: Nodes, t: Tree) {
    forall k {:trigger FreshList(nodes, t.kids[k])} :: k in t.kids ==> FreshList(nodes, t.kids[k])
  }

  lemma {:induction false} BuiltIsFresh(before: Nodes, nodes: Nodes, t: Tree)
    requires TreeOk(t) && Built(before, nodes, t, 0, |t.kids[0]|)
    ensures AllFresh(nodes, t) && Lengths(nodes, t)
  {
    BuiltAll(before, nodes, t, 0);
    forall k | k in t.kids ensures FreshList(nodes, t.kids[k]) && LongAmong(nodes, t.kids[k]) {
      AllUnderTop(t, k);
      assert ListOk(t, k);
      FreshIsLong(nodes, t.kids[k]);
    }
  }

  lemma {:induction false} CanAppend(
    nodes: Nodes, root: nat, current: nat, nextId: nat, t: Tree, at: nat, parent: nat, cmd: Command)
    returns (l: seq<nat>)
    requires MenuOk(nodes, root, current, nextId, t, at) && (parent == 0 || parent in nodes)
    requires cmd.next == 0 && cmd.children == 0 && cmd.parent == parent
    ensures parent in t.kids && l == t.kids[parent] && Appendable(nodes, root, t, parent, nextId, cmd)
    ensures Walkable(nodes, root, parent, l) && nextId !in l && root == First(t.kids[0])
  {
    if parent != 0 {
      assert NodeOk(t, parent);
    }
    l := t.kids[parent];
    ListWalkable(nodes, root, t, parent);
    assert Headed(nodes, root, t, 0) && ListOk(t, parent);
    assert nextId in t.kids ==> nextId in t.up;
  }

  lemma {:induction false} AppendedMenu(
    nodes: Nodes, root: nat, current: nat, t: Tree, at: nat, parent: nat, c: nat, cmd: Command)
    requires Appendable(nodes, root, t, parent, c, cmd) && Cursor(t, current, at) && root == First(t.kids[0])
    ensures
      var after, r := Appended(nodes, parent, t.kids[parent], c, cmd), Grown(t, parent, c);
      && Represents(after, NewTop(root, parent, t.kids[parent], c), r)
      && Cursor(r, if root == 0 && parent == 0 then c else current, if root == 0 && parent == 0 then 0 else at)
      && 0 in r.kids && NewTop(root, parent, t.kids[parent], c) == First(r.kids[0])
      && after.Keys == nodes.Keys + {c} && after[c] == cmd && SameNaming(nodes, after)
  {
    AppendedRepresents(nodes, root, t, parent, c, cmd);
    CursorGrows(t, root, current, at, parent, c);
    AppendedHead(nodes, root, t, parent, c, cmd, 0);
  }

  lemma StillBelow(before: Nodes, after: Nodes, c: nat)
    requires (forall n :: n in before ==> n < c) && after.Keys == before.Keys + {c}
    ensures forall n :: n in after ==> n < c + 1
  {
    forall n | n in after ensures n < c + 1 {
      assert n in after.Keys;
    }
  }

  lemma {:induction false} SameNamingTwice(a: Nodes, b: Nodes, c: Nodes)
    requires SameNaming(a, b) && Relabelled(b, c)
    ensures SameNaming(a, c)
  {
    forall n | n in a ensures n in c && c[n].name == a[n].name && c[n].mode == a[n].mode && c[n].parent == a[n].parent {
      assert b[n].name == a[n].name;
    }
  }

  /** The command whose submenu the cursor stands in, and the list that one is in. */
  lemma {:induction false} CursorParent(nodes: Nodes, root: nat, t: Tree, current: nat, at: nat)
    requires Represents(nodes, root, t) && Cursor(t, current, at) && current != 0
    ensures current in nodes && nodes[current].parent == at
    ensures at != 0 ==>
      && at in nodes && nodes[at].parent == t.up[at]
      && (t.up[at] != 0 ==> t.up[at] in nodes)
      && Cursor(t, if t.up[at] == 0 then root else if t.up[at] in nodes then nodes[t.up[at]].children else 0, t.up[at])
  {
    assert ListOk(t, at) && t.kids[at][0] in t.kids[at];
    if at != 0 {
      assert NodeOk(t, at) && at in t.kids[t.up[at]];
      assert Headed(nodes, root, t, t.up[at]);
    }
  }
}
