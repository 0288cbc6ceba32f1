/** The shape of a command tree: who is whose parent, and the order of siblings. 0 stands for no command; as
    a parent it is that of the top-level commands. Ids grow with registration, so a parent's id is the smaller. */
module CliTree {
  import opened Sequences

  /** `up` maps each command to its parent, `kids` each command, and 0, to its children. */
  datatype Tree = Tree(up: map<nat, nat>, kids: map<nat, seq<nat>>)

  ghost predicate ListOk(t: Tree, k: nat)
    requires k in t.kids
  {
    && Distinct(t.kids[k])
    && forall c :: c in t.kids[k] ==> c in t.up && t.up[c] == k
  }

  ghost predicate NodeOk(t: Tree, n: nat)
    requires n in t.up
  {
    n != 0 && t.up[n] < n && n in t.kids && t.up[n] in t.kids && n in t.kids[t.up[n]]
  }

  ghost predicate TreeOk(t: Tree) {
    && 0 in t.kids
    && (forall k {:trigger ListOk(t, k)} :: k in t.kids ==> ListOk(t, k))
    && (forall n {:trigger NodeOk(t, n)} :: n in t.up ==> NodeOk(t, n))
    && (forall k {:trigger k in t.kids} :: k in t.kids && k != 0 ==> k in t.up)
  }

  /** `n` is command `a` or below it. */
  ghost predicate Under(up: map<nat, nat>, n: nat, a: nat) {
    n == a || (n in up && up[n] < n && Under(up, up[n], a))
  }

  ghost function Doomed(t: Tree, a: nat): (r: set<nat>) {
    set n | n in t.up && Under(t.up, n, a)
  }

  /** The tree without some of its commands; siblings stay in order. */
  ghost function Pruned(t: Tree, gone: set<nat>): (r: Tree) {
    Tree(map n | n in t.up && n !in gone :: t.up[n],
         map k | k in t.kids && k !in gone :: Dropped(t.kids[k], gone))
  }

  /** Nothing stays below a command that goes. */
  ghost predicate Closed(t: Tree, gone: set<nat>) {
    && 0 !in gone
    && forall n :: n in t.up && t.up[n] in gone ==> n in gone
  }

  lemma {:induction false} UnderTransitive(up: map<nat, nat>, n: nat, m: nat, a: nat)
    requires Under(up, n, m) && Under(up, m, a)
    ensures Under(up, n, a)
    decreases n
  {
    if n != m {
      UnderTransitive(up, up[n], m, a);
    }
  }

  /** Of two commands over a third, one is over the other. */
  lemma {:induction false} UnderComparable(up: map<nat, nat>, n: nat, a: nat, b: nat)
    requires Under(up, n, a) && Under(up, n, b)
    ensures Under(up, a, b) || Under(up, b, a)
    decreases n
  {
    if n != a && n != b {
      UnderComparable(up, up[n], a, b);
    }
  }

  lemma {:induction false} UnderIsLarger(up: map<nat, nat>, n: nat, a: nat)
    requires Under(up, n, a)
    ensures a <= n
    decreases n
  {
    if n != a {
      UnderIsLarger(up, up[n], a);
    }
  }

  lemma {:induction false} DoomedClosed(t: Tree, a: nat)
    requires TreeOk(t) && a != 0
    ensures Closed(t, Doomed(t, a))
  {
    forall n | n in t.up && t.up[n] in Doomed(t, a) ensures n in Doomed(t, a) {
      assert NodeOk(t, n);
    }
  }

  lemma {:induction false} ClosedUnion(t: Tree, a: set<nat>, b: set<nat>)
    requires Closed(t, a) && Closed(t, b)
    ensures Closed(t, a + b)
  {}

  lemma PrunedListOk(t: Tree, gone: set<nat>, k: nat)
    requires TreeOk(t) && Closed(t, gone) && k in Pruned(t, gone).kids
    ensures ListOk(Pruned(t, gone), k)
  {
    DroppedFacts(t.kids[k], gone);
    assert ListOk(t, k);
  }

  lemma PrunedNodeOk(t: Tree, gone: set<nat>, n: nat)
    requires TreeOk(t) && Closed(t, gone) && n in Pruned(t, gone).up
    ensures NodeOk(Pruned(t, gone), n)
  {
    assert NodeOk(t, n);
    DroppedFacts(t.kids[t.up[n]], gone);
  }

  /** Removing whole subtrees leaves a tree. */
  lemma PrunedOk(t: Tree, gone: set<nat>)
    requires TreeOk(t) && Closed(t, gone)
    ensures TreeOk(Pruned(t, gone))
  {
    var r := Pruned(t, gone);
    forall k | k in r.kids ensures ListOk(r, k) {
      PrunedListOk(t, gone, k);
    }
    forall n | n in r.up ensures NodeOk(r, n) {
      PrunedNodeOk(t, gone, n);
    }
  }

  lemma {:induction false} PrunedTwice(t: Tree, a: set<nat>, b: set<nat>)
    ensures Pruned(Pruned(t, a), b) == Pruned(t, a + b)
  {
    var r, s := Pruned(Pruned(t, a), b), Pruned(t, a + b);
    assert r.up == s.up;
    forall k | k in s.kids ensures r.kids[k] == s.kids[k] {
      DropTwice(t.kids[k], a, b);
    }
    assert r.kids.Keys == s.kids.Keys;
    assert r.kids == s.kids;
  }

  lemma {:induction false} PrunedNone(t: Tree)
    ensures Pruned(t, {}) == t
  {
    forall k | k in t.kids ensures Dropped(t.kids[k], {}) == t.kids[k] {
      DroppedNone(t.kids[k], {});
    }
    assert Pruned(t, {}).up == t.up && Pruned(t, {}).kids == t.kids;
  }

  /** What is below a command that stays is found there whatever else went. */
  lemma {:induction false} UnderPruned(t: Tree, gone: set<nat>, n: nat, a: nat)
    requires TreeOk(t) && Closed(t, gone) && n in t.up && n !in gone
    ensures Under(Pruned(t, gone).up, n, a) <==> Under(t.up, n, a)
    decreases n
  {
    assert NodeOk(t, n);
    if n != a && t.up[n] != 0 {
      assert t.up[n] in t.up;
      UnderPruned(t, gone, t.up[n], a);
    }
  }

  lemma {:induction false} DoomedPruned(t: Tree, gone: set<nat>, a: nat)
    requires TreeOk(t) && Closed(t, gone)
    ensures Doomed(Pruned(t, gone), a) == Doomed(t, a) - gone
  {
    forall n | n in t.up && n !in gone ensures Under(Pruned(t, gone).up, n, a) <==> Under(t.up, n, a) {
      UnderPruned(t, gone, n, a);
    }
  }

  /** Subtrees of siblings do not overlap, and hold neither each other's roots nor their parent. */
  lemma {:induction false} SiblingsApart(t: Tree, a: nat, b: nat)
    requires TreeOk(t) && a in t.up && b in t.up && a != b && t.up[a] == t.up[b]
    ensures Doomed(t, a) !! Doomed(t, b)
  {
    forall n | n in Doomed(t, a) && n in Doomed(t, b) ensures false {
      UnderComparable(t.up, n, a, b);
      assert NodeOk(t, a) && NodeOk(t, b);
      if Under(t.up, a, b) {
        UnderIsLarger(t.up, t.up[a], b);
      } else {
        UnderIsLarger(t.up, t.up[b], a);
      }
      assert false;
    }
  }

  /** The union of the subtrees of the first `i` children. */
  ghost function DoomedKids(t: Tree, a: nat, i: nat): (r: set<nat>)
    requires a in t.kids && i <= |t.kids[a]|
  {
    if i == 0 then {} else DoomedKids(t, a, i - 1) + Doomed(t, t.kids[a][i - 1])
  }

  lemma {:induction false} DoomedKidsIs(t: Tree, a: nat, i: nat, n: nat)
    requires a in t.kids && i <= |t.kids[a]|
    ensures n in DoomedKids(t, a, i) <==> exists j :: 0 <= j < i && n in Doomed(t, t.kids[a][j])
  {
    if i > 0 {
      DoomedKidsIs(t, a, i - 1, n);
    }
  }

  lemma {:induction false} DoomedKidsClosed(t: Tree, a: nat, i: nat)
    requires TreeOk(t) && a in t.kids && i <= |t.kids[a]|
    ensures Closed(t, DoomedKids(t, a, i))
  {
    if i > 0 {
      DoomedKidsClosed(t, a, i - 1);
      var c := t.kids[a][i - 1];
      assert ListOk(t, a) && c in t.kids[a] && NodeOk(t, c);
      DoomedClosed(t, c);
      ClosedUnion(t, DoomedKids(t, a, i - 1), Doomed(t, c));
    }
  }

  /** Below a command are the command itself and what is below its children. */
  lemma {:induction false} DoomedSplits(t: Tree, a: nat, n: nat)
    requires TreeOk(t) && a in t.up && a in t.kids
    ensures n in Doomed(t, a) <==> n == a || n in DoomedKids(t, a, |t.kids[a]|)
  {
    var s := t.kids[a];
    assert NodeOk(t, a) && ListOk(t, a);
    DoomedKidsIs(t, a, |s|, n);
    if n in Doomed(t, a) && n != a {
      var c := ChildOver(t, a, n);
      var j :| 0 <= j < |s| && s[j] == c;
      assert n in Doomed(t, s[j]);
    }
    if n in DoomedKids(t, a, |s|) {
      var j :| 0 <= j < |s| && n in Doomed(t, s[j]);
      assert s[j] in s && NodeOk(t, s[j]);
      assert Under(t.up, s[j], a);
      UnderTransitive(t.up, n, s[j], a);
    }
  }

  lemma {:induction false} ChildOver(t: Tree, a: nat, n: nat) returns (c: nat)
    requires TreeOk(t) && a in t.kids && n in t.up && Under(t.up, n, a) && n != a
    ensures c in t.kids[a] && Under(t.up, n, c)
    decreases n
  {
    assert NodeOk(t, n);
    if t.up[n] == a {
      c := n;
    } else {
      c := ChildOver(t, a, t.up[n]);
    }
  }

  /** Once the first `i` children are gone, what is below the next one is what was there before. */
  lemma {:induction false} NextChild(t: Tree, a: nat, i: nat)
    requires TreeOk(t) && a in t.kids && i < |t.kids[a]|
    ensures
      var gone := DoomedKids(t, a, i); var c := t.kids[a][i];
      && c !in gone && Doomed(Pruned(t, gone), c) == Doomed(t, c)
  {
    var s := t.kids[a];
    var c := s[i];
    assert ListOk(t, a) && c in s && NodeOk(t, c);
    DoomedKidsClosed(t, a, i);
    DoomedPruned(t, DoomedKids(t, a, i), c);
    assert c in Doomed(t, c);
    forall n | n in DoomedKids(t, a, i) ensures n !in Doomed(t, c) {
      DoomedKidsIs(t, a, i, n);
      var j :| 0 <= j < i && n in Doomed(t, s[j]);
      assert s[j] in s;
      SiblingsApart(t, s[j], c);
    }
  }

  lemma {:induction false} ParentStays(t: Tree, a: nat, i: nat)
    requires TreeOk(t) && a in t.up && a in t.kids && i <= |t.kids[a]|
    ensures a !in DoomedKids(t, a, i)
  {
    var s := t.kids[a];
    DoomedKidsIs(t, a, i, a);
    forall j | 0 <= j < i ensures a !in Doomed(t, s[j]) {
      assert ListOk(t, a) && s[j] in s && NodeOk(t, s[j]);
      if Under(t.up, a, s[j]) {
        UnderIsLarger(t.up, a, s[j]);
      }
    }
  }

  lemma {:induction false} FirstKidsGone(t: Tree, a: nat, i: nat, j: nat)
    requires TreeOk(t) && a in t.kids && j < i <= |t.kids[a]|
    ensures t.kids[a][j] in DoomedKids(t, a, i)
  {
    var s := t.kids[a];
    assert ListOk(t, a) && s[j] in s;
    assert s[j] in Doomed(t, s[j]);
    DoomedKidsIs(t, a, i, s[j]);
  }

  /** The children that are left when the first `i` are gone. */
  lemma {:induction false} KidsLeft(t: Tree, a: nat, i: nat)
    requires TreeOk(t) && a in t.kids && i <= |t.kids[a]|
    ensures Dropped(t.kids[a], DoomedKids(t, a, i)) == t.kids[a][i..]
  {
    var s, gone := t.kids[a], DoomedKids(t, a, i);
    forall j | 0 <= j < i ensures s[j] in gone {
      FirstKidsGone(t, a, i, j);
    }
    forall k | i <= k < |s| ensures s[k] !in gone {
      FirstKidsOnly(t, a, i, k);
    }
    DropPrefix(s, gone, i);
  }

  lemma {:induction false} FirstKidsOnly(t: Tree, a: nat, i: nat, k: nat)
    requires TreeOk(t) && a in t.kids && i <= k < |t.kids[a]|
    ensures t.kids[a][k] !in DoomedKids(t, a, i)
  {
    var s := t.kids[a];
    assert ListOk(t, a) && s[k] in s && NodeOk(t, s[k]);
    DoomedKidsIs(t, a, i, s[k]);
    forall j | 0 <= j < i ensures s[k] !in Doomed(t, s[j]) {
      assert s[j] in s;
      SiblingsApart(t, s[j], s[k]);
      assert s[k] in Doomed(t, s[k]);
    }
  }

  /** The tree with a new command at the end of a list. */
  ghost function Grown(t: Tree, parent: nat, c: nat): (r: Tree)
    requires parent in t.kids
  {
    Tree(t.up[c := parent], t.kids[parent := t.kids[parent] + [c]][c := []])
  }

  lemma {:induction false} GrownOk(t: Tree, parent: nat, c: nat)
    requires TreeOk(t) && parent in t.kids && parent < c && c !in t.kids && c !in t.up
    ensures TreeOk(Grown(t, parent, c))
  {
    var r := Grown(t, parent, c);
    forall k | k in r.kids ensures ListOk(r, k) {
      assert k in t.kids ==> ListOk(t, k);
    }
    forall n | n in r.up ensures NodeOk(r, n) {
      assert n in t.up ==> NodeOk(t, n);
    }
  }

  lemma {:induction false} AllUnderTop(t: Tree, q: nat)
    requires TreeOk(t) && q in t.kids
    ensures Under(t.up, q, 0)
    decreases q
  {
    if q != 0 {
      assert NodeOk(t, q);
      AllUnderTop(t, t.up[q]);
    }
  }
}
