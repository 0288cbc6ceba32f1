/** Resolving a line's words to a command, and running callbacks. */
module CliFind {
  import opened CliTree
  import opened CliLinks
  import opened CliMenu
  import CliAbbrev
  import CliTokens

  const CLI_OK: int := 0
  const CLI_ERROR: int := -1
  const CLI_QUIT: int := -2
  const CLI_ERROR_ARG: int := -3

  const MODE_SELF: nat := 0
  const MODE_ALL: nat := 1

  const MAX_WORDS: nat := 128

  /** A callback run: the command and the index of the word its arguments start with. */
  datatype Call = Call(cmd: nat, at: nat)

  /** The last answer, the callbacks run, and where the cursor stands then. */
  datatype Result = Result(rc: int, ran: seq<Call>, at: nat)

  /** What a callback does: it answers, or it is the built-in one that leaves the submenu the cursor is in. */
  datatype Reply = Returns(rc: int) | Exits

  /** What the callback of a command does when called with the words from an index on. */
  type Answers = (nat, nat) -> Reply

  ghost function Answered(reply: Reply, at: nat): int {
    match reply
    case Returns(rc) => rc
    case Exits => if at == 0 then CLI_QUIT else CLI_OK
  }

  /** The cursor as a command's callback is called, in its submenu if it has one, and after the callback. */
  ghost function Entered(t: Tree, at: nat, c: nat): nat {
    if c in t.kids && t.kids[c] != [] then c else at
  }

  ghost function After(t: Tree, at: nat, reply: Reply): nat {
    if reply.Exits? && at in t.up then t.up[at] else at
  }

  predicate AsksHelp(word: string) { word != "" && word[|word| - 1] == '?' }

  predicate Fits(cmd: Command, mode: nat, word: string) {
    cmd.mode == mode && CliAbbrev.Accepts(cmd.name, cmd.uniqueLen, word)
  }

  ghost predicate FitsIn(nodes: Nodes, c: nat, mode: nat, word: string) {
    c in nodes && Fits(nodes[c], mode, word)
  }

  /** The first of a list that fits, or 0. */
  ghost function Match(nodes: Nodes, s: seq<nat>, mode: nat, word: string): (c: nat)
    ensures c != 0 ==> c in s && FitsIn(nodes, c, mode, word)
  {
    if s == [] then 0 else if FitsIn(nodes, s[0], mode, word) then s[0] else Match(nodes, s[1..], mode, word)
  }

  /** The lookup as a function of the menu and its cursor. */
  ghost function Search(
    nodes: Nodes, t: Tree, k: nat, mode: nat, words: seq<string>, start: nat, at: nat, answers: Answers): (r: Result)
    requires start < |words|
    decreases |words| - start
  {
    if AsksHelp(words[start]) then Result(CLI_OK, [], at)
    else
      var c := if k in t.kids then Match(nodes, t.kids[k], mode, words[start]) else 0;
      if c == 0 then Result(CLI_ERROR_ARG, [], at)
      else
        var deeper :=
          if c !in t.kids || t.kids[c] == [] || start == |words| - 1 then Result(CLI_ERROR_ARG, [], at)
          else Search(nodes, t, c, mode, words, start + 1, at, answers);
        if deeper.rc == CLI_ERROR_ARG then Ran(t, deeper, Call(c, start), answers) else deeper
  }

  /** One more callback is run. */
  ghost function Ran(t: Tree, r: Result, call: Call, answers: Answers): Result {
    var at, reply := Entered(t, r.at, call.cmd), answers(call.cmd, call.at);
    Result(Answered(reply, at), r.ran + [call], After(t, at, reply))
  }

  /** Where the cursor stands after some callbacks: each puts it into its command's submenu, if there is one, and
      the built-in exit takes it one menu up from there. */
  ghost function CursorAfterCalls(t: Tree, at: nat, ran: seq<Call>, answers: Answers): (r: nat) {
    if ran == [] then at
    else
      var last := ran[|ran| - 1];
      After(t, Entered(t, CursorAfterCalls(t, at, ran[..|ran| - 1], answers), last.cmd), answers(last.cmd, last.at))
  }

  method FindFirst(cli: Cli, commands: nat, ghost s: seq<nat>, mode: nat, word: string) returns (c: nat)
    requires Chained(cli.nodes, s) && 0 !in s && commands == First(s)
    ensures c == Match(cli.nodes, s, mode, word)
  {
    c := commands;
    ghost var i := 0;
    assert s[0..] == s;
    while c != 0
      invariant i <= |s| && c == (if i < |s| then s[i] else 0)
      invariant Match(cli.nodes, s, mode, word) == Match(cli.nodes, s[i..], mode, word)
      decreases |s| - i
    {
      assert s[i] in cli.nodes && cli.nodes[s[i]].next == NextIn(s, i) && s[i..][1..] == s[i + 1..];
      if Fits(cli.nodes[c], mode, word) {
        return;
      }
      c := cli.nodes[c].next;
      i := i + 1;
    }
  }

  /** Look the words up from `start` on in a list of commands. What the callbacks do is given; they may leave the
      submenu and do not register or delete commands. */
  method Find(cli: Cli, commands: nat, ghost k: nat, mode: nat, words: seq<string>, start: nat, answers: Answers)
    returns (rc: int, ran: seq<Call>)
    requires cli.Valid() && k in cli.tree.kids && commands == First(cli.tree.kids[k]) && start < |words|
    modifies cli`current, cli`at
    ensures cli.Valid()
    ensures Result(rc, ran, cli.at) == Search(cli.nodes, cli.tree, k, mode, words, start, old(cli.at), answers)
    decreases |words| - start
  {
    rc, ran := CLI_OK, [];
    if AsksHelp(words[start]) {
      return;
    }
    ListWalkable(cli.nodes, cli.root, cli.tree, k);
    var c := FindFirst(cli, commands, cli.tree.kids[k], mode, words[start]);
    if c == 0 {
      return CLI_ERROR_ARG, [];
    }
    FoundHere(cli.nodes, cli.root, cli.tree, k, c);
    rc := CLI_ERROR_ARG;
    if cli.nodes[c].children != 0 && start != |words| - 1 {
      rc, ran := Find(cli, cli.nodes[c].children, c, mode, words, start + 1, answers);
      if rc != CLI_ERROR_ARG {
        return;
      }
    }
    if cli.nodes[c].children != 0 {
      cli.Enter(c);
    }
    rc := CallBack(cli, c, start, answers);
    ran := ran + [Call(c, start)];
  }

  /** Run a command's callback, the cursor being in its submenu if it has one. */
  method CallBack(cli: Cli, c: nat, start: nat, answers: Answers) returns (rc: int)
    requires cli.Valid() && c in cli.tree.up
    modifies cli`current, cli`at
    ensures cli.Valid() && rc == Answered(answers(c, start), old(cli.at))
    ensures cli.at == After(cli.tree, old(cli.at), answers(c, start))
  {
    var reply := answers(c, start);
    match reply {
      case Returns(answer) => rc := answer;
      case Exits =>
        CursorIsNotNull(cli.tree, cli.current, cli.at, c);
        var quit := cli.Exit();
        rc := if quit then CLI_QUIT else CLI_OK;
    }
  }

  /** Where there is a command there is a top-level one. */
  lemma {:induction false} TopIsNotEmpty(t: Tree, n: nat)
    requires TreeOk(t) && n in t.up
    ensures t.kids[0] != []
    decreases n
  {
    assert NodeOk(t, n);
    if t.up[n] != 0 {
      TopIsNotEmpty(t, t.up[n]);
    }
  }

  lemma {:induction false} CursorIsNotNull(t: Tree, current: nat, at: nat, n: nat)
    requires TreeOk(t) && Cursor(t, current, at) && n in t.up
    ensures current != 0 && (at in t.up <==> at != 0)
  {
    TopIsNotEmpty(t, n);
    assert ListOk(t, at) && current in t.kids[at];
    assert NodeOk(t, current);
    if at in t.up {
      assert NodeOk(t, at);
    }
  }

  lemma {:induction false} FoundHere(nodes: Nodes, root: nat, t: Tree, k: nat, c: nat)
    requires Represents(nodes, root, t) && k in t.kids && c in t.kids[k]
    ensures c in nodes && c in t.up && c in t.kids && nodes[c].children == First(t.kids[c])
    ensures (nodes[c].children == 0 <==> t.kids[c] == [])
  {
    assert ListOk(t, k) && NodeOk(t, c);
    HasKids(nodes, root, t, c);
  }

  // What a lookup runs.

  /** The commands the words name one below the other, as far as they do. */
  ghost function Path(nodes: Nodes, t: Tree, k: nat, mode: nat, words: seq<string>, start: nat): (path: seq<nat>)
    requires start < |words|
    decreases |words| - start
  {
    var c := if k in t.kids then Match(nodes, t.kids[k], mode, words[start]) else 0;
    if c == 0 then []
    else
      [c] +
      if c !in t.kids || t.kids[c] == [] || start == |words| - 1 then [] else Path(nodes, t, c, mode, words, start + 1)
  }

  ghost predicate NoHelp(words: seq<string>) {
    forall i :: 0 <= i < |words| ==> !AsksHelp(words[i])
  }

  /** The answer the last of some callbacks gave. */
  ghost function LastAnswer(t: Tree, at: nat, ran: seq<Call>, answers: Answers): int
    requires ran != []
  {
    var last := ran[|ran| - 1];
    Answered(answers(last.cmd, last.at), Entered(t, CursorAfterCalls(t, at, ran[..|ran| - 1], answers), last.cmd))
  }

  ghost predicate RunsUp(r: Result, path: seq<nat>, start: nat, t: Tree, at: nat, answers: Answers) {
    && |r.ran| <= |path| && (path != [] ==> r.ran != [])
    && (forall j {:trigger r.ran[j]} :: 0 <= j < |r.ran| ==>
          r.ran[j] == Call(path[|path| - 1 - j], start + |path| - 1 - j))
    && (forall j {:trigger r.ran[j]} :: 0 <= j < |r.ran| - 1 ==>
          answers(r.ran[j].cmd, r.ran[j].at) == Returns(CLI_ERROR_ARG))
    && (r.ran != [] ==> r.rc == LastAnswer(t, at, r.ran, answers))
    && r.at == CursorAfterCalls(t, at, r.ran, answers)
    && (|r.ran| < |path| ==> r.rc != CLI_ERROR_ARG)
    && (path == [] ==> r.rc == CLI_ERROR_ARG)
  }

  /** The path has several commands, and the last one's callback rejects its arguments. */
  ghost predicate LastRejects(path: seq<nat>, start: nat, answers: Answers) {
    |path| > 1 && answers(path[|path| - 1], start + |path| - 1) == Returns(CLI_ERROR_ARG)
  }

  /** The callback of the command at the end of the path, with the arguments that start at its own word. */
  ghost function LastOnly(path: seq<nat>, start: nat): seq<Call> {
    if path == [] then [] else [Call(path[|path| - 1], start + |path| - 1)]
  }

  lemma {:induction false} SeveralIff(r: Result, path: seq<nat>, start: nat, t: Tree, at: nat, answers: Answers)
    requires RunsUp(r, path, start, t, at, answers)
    ensures |r.ran| > 1 <==> LastRejects(path, start, answers)
    ensures |r.ran| <= 1 ==> r.ran == LastOnly(path, start)
  {
    if path != [] {
      assert r.ran[0] == Call(path[|path| - 1], start + |path| - 1);
    }
  }

  lemma {:induction false} OneMoreUp(r: Result, path: seq<nat>, start: nat, t: Tree, at: nat, answers: Answers, c: nat)
    requires RunsUp(r, path, start + 1, t, at, answers) && r.rc == CLI_ERROR_ARG
    ensures RunsUp(Ran(t, r, Call(c, start), answers), [c] + path, start, t, at, answers)
  {
    var call := Call(c, start);
    var q := Ran(t, r, call, answers);
    assert q.ran[..|q.ran| - 1] == r.ran;
    if r.ran != [] {
      assert LastAnswer(t, at, r.ran, answers) == CLI_ERROR_ARG;
    }
  }

  lemma {:induction false} NoMoreUp(r: Result, path: seq<nat>, start: nat, t: Tree, at: nat, answers: Answers, c: nat)
    requires RunsUp(r, path, start + 1, t, at, answers) && r.rc != CLI_ERROR_ARG
    ensures RunsUp(r, [c] + path, start, t, at, answers)
  {}

  /** The callbacks run are those of the path from its end upwards, up to the first that does not answer
      that its arguments are wrong; the cursor goes where they take it. */
  lemma {:induction false} FindRunsUpThePath(
    nodes: Nodes, t: Tree, k: nat, mode: nat, words: seq<string>, start: nat, at: nat, answers: Answers)
    requires start < |words| && NoHelp(words)
    ensures
      var r, path := Search(nodes, t, k, mode, words, start, at, answers), Path(nodes, t, k, mode, words, start);
      RunsUp(r, path, start, t, at, answers)
    decreases |words| - start
  {
    var c := if k in t.kids then Match(nodes, t.kids[k], mode, words[start]) else 0;
    if c != 0 {
      if c !in t.kids || t.kids[c] == [] || start == |words| - 1 {
        OneMoreUp(Result(CLI_ERROR_ARG, [], at), [], start, t, at, answers, c);
      } else {
        FindRunsUpThePath(nodes, t, c, mode, words, start + 1, at, answers);
        var deeper := Search(nodes, t, c, mode, words, start + 1, at, answers);
        if deeper.rc == CLI_ERROR_ARG {
          OneMoreUp(deeper, Path(nodes, t, c, mode, words, start + 1), start, t, at, answers, c);
        } else {
          NoMoreUp(deeper, Path(nodes, t, c, mode, words, start + 1), start, t, at, answers, c);
        }
      }
    }
  }

  /** More than one callback runs exactly if the path has several commands and the last one's callback rejects its
      arguments. */
  lemma {:induction false} FindRunsSeveralIff(
    nodes: Nodes, t: Tree, k: nat, mode: nat, words: seq<string>, start: nat, at: nat, answers: Answers)
    requires start < |words| && NoHelp(words)
    ensures
      var r, path := Search(nodes, t, k, mode, words, start, at, answers), Path(nodes, t, k, mode, words, start);
      |r.ran| > 1 <==> LastRejects(path, start, answers)
  {
    FindRunsUpThePath(nodes, t, k, mode, words, start, at, answers);
    var r, path := Search(nodes, t, k, mode, words, start, at, answers), Path(nodes, t, k, mode, words, start);
    SeveralIff(r, path, start, t, at, answers);
  }

  /** No callback answers that its arguments are wrong. */
  ghost predicate NeverRejects(answers: Answers) {
    forall c, i :: answers(c, i) != Returns(CLI_ERROR_ARG)
  }

  /** If no callback answers that its arguments are wrong, at most one runs: that of the command at the end
      of the path, with the arguments that start at its own word. */
  lemma {:induction false} FindRunsOne(
    nodes: Nodes, t: Tree, k: nat, mode: nat, words: seq<string>, start: nat, at: nat, answers: Answers)
    requires start < |words| && NoHelp(words) && NeverRejects(answers)
    ensures
      var r, path := Search(nodes, t, k, mode, words, start, at, answers), Path(nodes, t, k, mode, words, start);
      r.ran == LastOnly(path, start)
  {
    FindRunsUpThePath(nodes, t, k, mode, words, start, at, answers);
    var r, path := Search(nodes, t, k, mode, words, start, at, answers), Path(nodes, t, k, mode, words, start);
    SeveralIff(r, path, start, t, at, answers);
  }

  // The path is the longest the words resolve to.

  /** The commands of `q` lie one below the other, and each fits its word. */
  ghost predicate Resolves(nodes: Nodes, t: Tree, k: nat, mode: nat, words: seq<string>, start: nat, q: seq<nat>)
    decreases |q|
  {
    q == [] ||
    (&& start < |words| && k in t.kids && q[0] in t.kids[k] && FitsIn(nodes, q[0], mode, words[start])
     && Resolves(nodes, t, q[0], mode, words, start + 1, q[1..]))
  }

  /** Siblings have distinct lower-case names. */
  ghost predicate WellNamed(nodes: Nodes, t: Tree) {
    && (forall n :: n in nodes ==> CliAbbrev.Lower(nodes[n].name) == nodes[n].name)
    && (forall k, x, y {:trigger x in t.kids[k], y in t.kids[k]} ::
          k in t.kids && x in t.kids[k] && y in t.kids[k] && x != y && x in nodes && y in nodes ==>
            nodes[x].name != nodes[y].name)
  }

  lemma {:induction false} OneFits(nodes: Nodes, t: Tree, k: nat, mode: nat, word: string, x: nat, y: nat)
    requires Lengths(nodes, t) && WellNamed(nodes, t) && k in t.kids && x in t.kids[k] && y in t.kids[k]
    requires FitsIn(nodes, x, mode, word) && FitsIn(nodes, y, mode, word)
    ensures x == y
  {
    if x != y {
      var names, lens := [nodes[x].name, nodes[y].name], [nodes[x].uniqueLen, nodes[y].uniqueLen];
      assert LongAmong(nodes, t.kids[k]);
      assert lens[0] > CliAbbrev.Common(nodes[x].name, nodes[y].name);
      assert lens[1] > CliAbbrev.Common(nodes[y].name, nodes[x].name);
      assert CliAbbrev.LongLengths(names, lens);
      CliAbbrev.AtMostOneFound(names, lens, word, 0, 1);
    }
  }

  /** After a registration, when all lengths are fresh, a word finds a command of a list exactly if it is its
      name, or abbreviates it and no other of the list. */
  lemma {:induction false} FreshListMeans(nodes: Nodes, s: seq<nat>, i: nat, word: string)
    requires i < |s| && FreshList(nodes, s) && (forall k :: 0 <= k < |s| ==> s[k] in nodes) && word != ""
    requires forall n :: n in nodes ==> CliAbbrev.Lower(nodes[n].name) == nodes[n].name
    ensures CliAbbrev.Accepts(nodes[s[i]].name, nodes[s[i]].uniqueLen, word) <==>
      CliAbbrev.Means(Names(nodes, s), i, word)
  {
    var names := Names(nodes, s);
    forall k | 0 <= k < |s| ensures names[k] == nodes[s[k]].name {
      NamesAt(nodes, s, k);
    }
    assert FreshAt(nodes, s, i);
    CliAbbrev.AbbreviationsAgree(names, i, word);
  }

  lemma {:induction false} MatchFinds(nodes: Nodes, s: seq<nat>, mode: nat, word: string, x: nat)
    requires x in s && FitsIn(nodes, x, mode, word) && 0 !in s
    ensures Match(nodes, s, mode, word) != 0
  {
    if !FitsIn(nodes, s[0], mode, word) {
      MatchFinds(nodes, s[1..], mode, word, x);
    }
  }

  lemma {:induction false} PathResolves(nodes: Nodes, t: Tree, k: nat, mode: nat, words: seq<string>, start: nat)
    requires start < |words|
    ensures Resolves(nodes, t, k, mode, words, start, Path(nodes, t, k, mode, words, start))
    decreases |words| - start
  {
    var path := Path(nodes, t, k, mode, words, start);
    if path != [] {
      var c := path[0];
      if !(c !in t.kids || t.kids[c] == [] || start == |words| - 1) {
        PathResolves(nodes, t, c, mode, words, start + 1);
        assert path[1..] == Path(nodes, t, c, mode, words, start + 1);
      } else {
        assert path[1..] == [];
      }
    }
  }

  /** Whatever the words resolve to is a beginning of the path. */
  lemma {:induction false} PathIsLongest(
    nodes: Nodes, root: nat, t: Tree, k: nat, mode: nat, words: seq<string>, start: nat, q: seq<nat>)
    requires Represents(nodes, root, t) && Lengths(nodes, t) && WellNamed(nodes, t)
    requires start < |words| && Resolves(nodes, t, k, mode, words, start, q)
    ensures q <= Path(nodes, t, k, mode, words, start)
    decreases |q|
  {
    if q != [] {
      var s := t.kids[k];
      assert ListOk(t, k);
      ListWalkable(nodes, root, t, k);
      MatchFinds(nodes, s, mode, words[start], q[0]);
      var c := Match(nodes, s, mode, words[start]);
      OneFits(nodes, t, k, mode, words[start], c, q[0]);
      var rest := q[1..];
      if rest != [] {
        PathIsLongest(nodes, root, t, c, mode, words, start + 1, rest);
        assert q == [c] + rest;
      }
    }
  }

  // Running a line.

  /** The line is looked up in the current menu and, unless that went well, among the global top-level commands. */
  ghost function RunLine(nodes: Nodes, t: Tree, at: nat, words: seq<string>, self: Answers, all: Answers): (r: Result) {
    if words == [] then Result(CLI_ERROR, [], at)
    else
      var here := Search(nodes, t, at, MODE_SELF, words, 0, at, self);
      if here.rc == CLI_OK then here
      else
        var top := Search(nodes, t, 0, MODE_ALL, words, 0, here.at, all);
        Result(top.rc, here.ran + top.ran, top.at)
  }

  method RunCommand(cli: Cli, line: string, self: Answers, all: Answers) returns (rc: int, ran: seq<Call>)
    requires cli.Valid() && '\0' !in line
    modifies cli`current, cli`at
    ensures cli.Valid()
    ensures
      var words := CliTokens.Prefix(CliTokens.LineTokens(line), 127);
      var r := RunLine(cli.nodes, cli.tree, old(cli.at), words, self, all);
      ran == r.ran && cli.at == r.at && rc == if r.rc == CLI_QUIT then CLI_QUIT else CLI_OK
  {
    rc, ran := CLI_ERROR, [];
    var words := CliTokens.ParseLine(line, MAX_WORDS);
    if words != [] {
      rc, ran := Find(cli, cli.current, cli.at, MODE_SELF, words, 0, self);
      if rc != CLI_OK {
        assert Headed(cli.nodes, cli.root, cli.tree, 0);
        var more;
        rc, more := Find(cli, cli.root, 0, MODE_ALL, words, 0, all);
        ran := ran + more;
      }
    }
    if rc != CLI_QUIT {
      rc := CLI_OK;
    }
  }

  /** A line whose callbacks never reject their arguments runs at most two of them, and the second one only
      if the first did not answer that all is well. */
  lemma {:induction false} LineRunsAtMostTwo(
    nodes: Nodes, t: Tree, at: nat, words: seq<string>, self: Answers, all: Answers)
    requires NoHelp(words) && NeverRejects(self) && NeverRejects(all)
    ensures
      var r := RunLine(nodes, t, at, words, self, all);
      && |r.ran| <= 2
      && (|r.ran| == 2 ==> LastAnswer(t, at, r.ran[..1], self) != CLI_OK)
  {
    if words != [] {
      var here := Search(nodes, t, at, MODE_SELF, words, 0, at, self);
      FindRunsOne(nodes, t, at, MODE_SELF, words, 0, at, self);
      FindRunsUpThePath(nodes, t, at, MODE_SELF, words, 0, at, self);
      FindRunsOne(nodes, t, 0, MODE_ALL, words, 0, here.at, all);
      if here.ran != [] {
        assert RunLine(nodes, t, at, words, self, all).ran[..1] == here.ran;
      }
    }
  }

  /** A word that names a command with a submenu, and then one that names only the built-in exit, leave the cursor
      in the menu that holds the command. */
  lemma {:induction false} ExitUndoesEnter(
    nodes: Nodes, root: nat, t: Tree, at: nat, c: nat, e: nat, word: string, leave: string, self: Answers, all: Answers)
    requires Represents(nodes, root, t) && at in t.kids && NoHelp([word]) && NoHelp([leave])
    requires Match(nodes, t.kids[at], MODE_SELF, word) == c != 0 && c in t.kids && t.kids[c] != []
    requires self(c, 0) == Returns(CLI_OK)
    requires Match(nodes, t.kids[c], MODE_SELF, leave) == 0
    requires Match(nodes, t.kids[0], MODE_ALL, leave) == e != 0 && Entered(t, c, e) == c && all(e, 0) == Exits
    ensures
      var r := RunLine(nodes, t, at, [word], self, all);
      r.at == c && RunLine(nodes, t, r.at, [leave], self, all) == Result(CLI_OK, [Call(e, 0)], at)
  {
    assert ListOk(t, at) && NodeOk(t, c);
    assert !AsksHelp([word][0]) && !AsksHelp([leave][0]);
  }
}
