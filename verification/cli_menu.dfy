/** The command menu: linked nodes updated in place, and the cursor into them. */
module CliMenu {
  import opened Sequences
  import opened CliTree
  import opened CliLinks
  import CliAbbrev

  class Cli {
    var nodes: Nodes
    var root: nat
    var current: nat
    var nextId: nat
    ghost var tree: Tree
    ghost var at: nat

    ghost predicate Valid()
      reads this
    {
      MenuOk(nodes, root, current, nextId, tree, at)
    }

    constructor ()
      ensures Valid() && nodes == map[] && current == 0
    {
      nodes, root, current, nextId := map[], 0, 0, 1;
      tree, at := Tree(map[], map[0 := []]), 0;
    }

    method LastOf(first: nat, ghost l: seq<nat>) returns (p: nat)
      requires l != [] && Chained(nodes, l) && 0 !in l && first == l[0]
      ensures p == l[|l| - 1]
    {
      p := first;
      ghost var i := 0;
      assert nodes[l[0]].next == NextIn(l, 0);
      while nodes[p].next != 0
        invariant i < |l| && p == l[i] && nodes[l[i]].next == NextIn(l, i)
        decreases |l| - i
      {
        p := nodes[p].next;
        i := i + 1;
        assert nodes[l[i]].next == NextIn(l, i);
      }
    }

    /** Link a new command behind its siblings. */
    method Append(parent: nat, c: nat, cmd: Command, ghost l: seq<nat>)
      requires Walkable(nodes, root, parent, l) && c !in nodes && c !in l && c != parent && c != 0
      modifies this`nodes, this`root, this`current
      ensures nodes == Appended(old(nodes), parent, l, c, cmd) && root == NewTop(old(root), parent, l, c)
      ensures current == if old(root) == 0 && parent == 0 then c else old(current)
    {
      ghost var before := nodes;
      var first := if parent != 0 then nodes[parent].children else root;
      if first == 0 {
        nodes := nodes[c := cmd];
        if parent != 0 {
          nodes := nodes[parent := nodes[parent].(children := c)];
        } else {
          root, current := c, c;
        }
      } else {
        var p := LastOf(first, l);
        nodes := nodes[c := cmd];
        nodes := nodes[p := nodes[p].(next := c)];
      }
    }

    /** Register a command as the last of its siblings; every length in the menu is then fresh. */
    method Register(parent: nat, name: string, mode: nat) returns (c: nat)
      requires Valid() && (parent == 0 || parent in nodes)
      modifies this
      ensures Valid() && c == old(nextId) && c !in old(nodes) && nextId == c + 1
      ensures parent in old(tree).kids && tree == Grown(old(tree), parent, c)
      ensures nodes.Keys == old(nodes).Keys + {c} && nodes[c].name == name && nodes[c].mode == mode
      ensures nodes[c].parent == parent
      ensures SameNaming(old(nodes), nodes) && AllFresh(nodes, tree)
      ensures current == if old(root) == 0 && parent == 0 then c else old(current)
    {
      ghost var before := nodes;
      c := Add(parent, name, mode);
      ghost var added := nodes;
      BuildShortest(root, 0);
      RelabelledRepresents(added, nodes, root, tree);
      BuiltIsFresh(added, nodes, tree);
      SameNamingTwice(before, added, nodes);
    }

    /** The command is made and linked; its length, and those of its siblings, are yet to be rebuilt. */
    method Add(parent: nat, name: string, mode: nat) returns (c: nat)
      requires Valid() && (parent == 0 || parent in nodes)
      modifies this
      ensures c == old(nextId) && c !in old(nodes) && nextId == c + 1
      ensures parent in old(tree).kids && tree == Grown(old(tree), parent, c)
      ensures Represents(nodes, root, tree) && Cursor(tree, current, at) && 0 in tree.kids
      ensures root == First(tree.kids[0])
      ensures nodes.Keys == old(nodes).Keys + {c} && nodes[c].name == name && nodes[c].mode == mode
      ensures nodes[c].parent == parent
      ensures SameNaming(old(nodes), nodes) && forall n :: n in nodes ==> n < nextId
      ensures current == if old(root) == 0 && parent == 0 then c else old(current)
    {
      c := nextId;
      var cmd := Command(name, mode, 0, 0, 0, parent);
      ghost var l := CanAppend(nodes, root, current, nextId, tree, at, parent, cmd);
      AppendedMenu(nodes, root, current, tree, at, parent, c, cmd);
      StillBelow(nodes, Appended(nodes, parent, l, c, cmd), c);
      ghost var t, at' := Grown(tree, parent, c), if root == 0 && parent == 0 then 0 else at;
      Append(parent, c, cmd, l);
      tree, at := t, at';
      nextId := nextId + 1;
    }

    /** Leave a submenu: the cursor moves to the list that holds its command. At the top there is nothing to leave. */
    method Exit() returns (quit: bool)
      requires Valid() && current != 0
      modifies this`current, this`at
      ensures Valid() && (quit <==> old(at) == 0)
      ensures at == if quit then old(at) else if old(at) in tree.up then tree.up[old(at)] else 0
    {
      CursorParent(nodes, root, tree, current, at);
      var parent := nodes[current].parent;
      quit := parent == 0;
      if !quit {
        if nodes[parent].parent == 0 {
          current := root;
        } else {
          current := nodes[nodes[parent].parent].children;
        }
        at := nodes[parent].parent;
      }
    }

    /** Enter the submenu of a command. */
    method Enter(c: nat)
      requires Valid() && c in nodes && c in tree.kids && nodes[c].children != 0
      modifies this`current, this`at
      ensures Valid() && at == c
    {
      HasKids(nodes, root, tree, c);
      current := nodes[c].children;
      at := c;
    }

    /** The inner loop: the length of one command, against all its siblings. */
    method Measure(c: nat, commands: nat, ghost s: seq<nat>, ghost i: nat)
      requires Chained(nodes, s) && Distinct(s) && 0 !in s && i < |s| && s[i] == c && commands == First(s)
      modifies this`nodes
      ensures Relabelled(old(nodes), nodes) && FreshAt(nodes, s, i)
      ensures forall n {:trigger nodes[n]} :: n in nodes && n != c ==> nodes[n] == old(nodes)[n]
    {
      ghost var before, names := nodes, Names(nodes, s);
      nodes := nodes[c := nodes[c].(uniqueLen := 1)];
      var p := commands;
      ghost var j := 0;
      while p != 0
        invariant j <= |s| && p == (if j < |s| then s[j] else 0)
        invariant nodes == before[c := before[c].(uniqueLen := CliAbbrev.UniqueLen(names, i, j))]
        decreases |s| - j
      {
        assert before[s[j]].next == NextIn(s, j) && s[j] in before;
        if c != p {
          NamesAt(before, s, i);
          NamesAt(before, s, j);
          var len := CliAbbrev.CountCommon(nodes[c].name, nodes[p].name);
          if len > nodes[c].uniqueLen {
            nodes := nodes[c := nodes[c].(uniqueLen := len)];
          }
        }
        p := nodes[p].next;
        j := j + 1;
      }
      assert j == |s|;
      SameNames(before, nodes, s);
    }

    /** Rebuild the lengths of a list of siblings and of all lists below it. */
    method BuildShortest(commands: nat, ghost k: nat)
      requires Represents(nodes, root, tree) && k in tree.kids && commands == First(tree.kids[k])
      requires k < nextId && forall n :: n in nodes ==> n < nextId
      modifies this`nodes
      ensures Built(old(nodes), nodes, tree, k, |tree.kids[k]|)
      decreases nextId - k, 1
    {
      var c := commands;
      ghost var s, i, before := tree.kids[k], 0, nodes;
      while c != 0
        invariant i <= |s| && c == (if i < |s| then s[i] else 0)
        invariant Built(before, nodes, tree, k, i) && Represents(nodes, root, tree)
        decreases |s| - i
      {
        BuildOne(c, commands, before, k, i);
        RelabelledRepresents(before, nodes, root, tree);
        NextPointer(nodes, root, tree, k, i);
        c := nodes[c].next;
        i := i + 1;
      }
      if i < |s| {
        NoNull(tree, k, i);
      }
    }

    /** The body of the outer loop: one command's length, then the lists below it. */
    method BuildOne(c: nat, commands: nat, ghost before: Nodes, ghost k: nat, ghost i: nat)
      requires Represents(nodes, root, tree) && Built(before, nodes, tree, k, i) && commands == First(tree.kids[k])
      requires i < |tree.kids[k]| && c == tree.kids[k][i]
      requires k < nextId && forall n :: n in nodes ==> n < nextId
      modifies this`nodes
      ensures Built(before, nodes, tree, k, i + 1)
      decreases nextId - k, 0
    {
      ghost var s, was := tree.kids[k], nodes;
      ListWalkable(nodes, root, tree, k);
      NotUnderChild(tree, k, i);
      Measure(c, commands, s, i);
      BuiltMeasured(before, was, nodes, tree, k, i);
      RelabelledRepresents(was, nodes, root, tree);
      ghost var measured := nodes;
      HasKids(nodes, root, tree, c);
      if nodes[c].children != 0 {
        BuildShortest(nodes[c].children, c);
      }
      BuiltBelow(before, measured, nodes, tree, k, i, c);
    }

    /** Delete a command: exactly it and what is below it go, and all other siblings keep their order. */
    method Delete(cmd: nat)
      requires Valid() && cmd in nodes
      modifies this
      ensures Valid() && nextId == old(nextId)
      ensures tree == Pruned(old(tree), Doomed(old(tree), cmd))
      ensures Survive(old(nodes), nodes, Doomed(old(tree), cmd))
      decreases nextId - cmd
    {
      ghost var t, before := tree, nodes;
      DeletingStarts(nodes, root, tree, cmd);
      var c := nodes[cmd].children;
      ghost var s, i := t.kids[cmd], 0;
      while c != 0
        invariant Valid() && nextId == old(nextId) && i <= |s| && c == (if i < |s| then s[i] else 0)
        invariant Deleting(before, t, cmd, i, nodes, tree)
        decreases |s| - i
      {
        DeletingNext(before, t, cmd, i, nodes, root, tree);
        ghost var nodes', tree' := nodes, tree;
        var p := nodes[c].next;
        Delete(c);
        DeletingStep(before, t, cmd, i, nodes', tree', nodes, c);
        c := p;
        i := i + 1;
      }
      if i < |s| {
        NoNull(t, cmd, i);
      }
      DeletingEnds(before, t, cmd, nodes, root, tree);
      ghost var nodes', tree' := nodes, tree;
      Unlink(cmd);
      DeletingDone(before, t, cmd, nodes', tree', nodes);
    }

    /** Take a command without children out of the menu. */
    method Unlink(cmd: nat)
      requires Valid() && cmd in nodes && cmd in tree.kids && tree.kids[cmd] == []
      modifies this
      ensures Valid() && nextId == old(nextId)
      ensures tree == Pruned(old(tree), {cmd}) && Survive(old(nodes), nodes, {cmd})
    {
      ghost var l, j, at' := TakeOut(nodes, root, current, nextId, tree, at, cmd);
      Bypass(cmd, l, j);
      nodes := nodes - {cmd};
      tree, at := Pruned(tree, {cmd}), at';
    }

    /** Bypass a command in its list of siblings, and move the cursor off it. */
    method Bypass(cmd: nat, ghost l: seq<nat>, ghost j: nat)
      requires Located(nodes, root, current, cmd, l, j)
      modifies this`nodes, this`root, this`current
      ensures nodes == Bypassed(old(nodes), old(nodes[cmd].parent), l, j)
      ensures root == NewRoot(old(root), old(nodes[cmd].parent), l, j)
      ensures current == NewCurrent(old(nodes), old(root), old(current), old(nodes[cmd].parent), l, j)
    {
      var parent := nodes[cmd].parent;
      var start := if parent == 0 then root else nodes[parent].children;
      var t := start;
      ghost var i := 0;
      while t != 0
        invariant i <= |l| && t == (if i < |l| then l[i] else 0) && (i == j ==> j == 0)
        invariant i <= j ==> nodes == old(nodes) && root == old(root) && current == old(current)
        invariant i > j ==>
          && nodes == Bypassed(old(nodes), parent, l, j) && root == NewRoot(old(root), parent, l, j)
          && current == NewCurrent(old(nodes), old(root), old(current), parent, l, j)
        decreases |l| - i
      {
        assert old(nodes)[l[i]].next == NextIn(l, i) && old(nodes)[l[j]].next == NextIn(l, j);
        if t == cmd && t == start {
          if start == root {
            root := nodes[t].next;
          } else {
            nodes := nodes[parent := nodes[parent].(children := nodes[t].next)];
          }
          if current == t {
            if parent != 0 && nodes[parent].parent != 0 {
              current := nodes[nodes[parent].parent].children;
            } else {
              current := root;
            }
          }
        }
        if nodes[t].next == cmd {
          nodes := nodes[t := nodes[t].(next := nodes[cmd].next)];
          i := i + 1;
        }
        t := nodes[t].next;
        i := i + 1;
      }
    }
  }
}
