/** What a line runs, in terms of the commands' own modes and names: which commands it can reach at all, which one
    each word means, and when help stops it. */
module CliLines {
  import opened CliTree
  import opened CliLinks
  import opened CliFind
  import CliAbbrev

  // Modes and menus.

  /** The command is of that mode, and in the menu of `k` or below it. */
  ghost predicate Reaches(nodes: Nodes, t: Tree, k: nat, mode: nat, c: nat) {
    c in nodes && nodes[c].mode == mode && c != k && Under(t.up, c, k)
  }

  ghost predicate AllReach(nodes: Nodes, t: Tree, k: nat, mode: nat, ran: seq<Call>) {
    forall j :: 0 <= j < |ran| ==> Reaches(nodes, t, k, mode, ran[j].cmd)
  }

  lemma {:induction false} MatchMode(nodes: Nodes, s: seq<nat>, mode: nat, word: string)
    ensures var c := Match(nodes, s, mode, word); c != 0 ==> c in s && c in nodes && nodes[c].mode == mode
  {
    if s != [] {
      MatchMode(nodes, s[1..], mode, word);
    }
  }

  lemma ReachesUp(nodes: Nodes, t: Tree, k: nat, mode: nat, c: nat, n: nat)
    requires TreeOk(t) && k in t.kids && c in t.kids[k] && Reaches(nodes, t, c, mode, n)
    ensures Reaches(nodes, t, k, mode, n)
  {
    assert ListOk(t, k) && NodeOk(t, c);
    assert Under(t.up, k, k) && Under(t.up, c, k);
    UnderTransitive(t.up, n, c, k);
    UnderIsLarger(t.up, n, c);
  }

  /** A lookup runs commands of its own mode only, in the menu it looks into or below. */
  lemma {:induction false} SearchReaches(
    nodes: Nodes, t: Tree, k: nat, mode: nat, words: seq<string>, start: nat, at: nat, answers: Answers)
    requires TreeOk(t) && k in t.kids && start < |words|
    ensures AllReach(nodes, t, k, mode, Search(nodes, t, k, mode, words, start, at, answers).ran)
    decreases |words| - start
  {
    var c := Match(nodes, t.kids[k], mode, words[start]);
    if !AsksHelp(words[start]) && c != 0 {
      MatchMode(nodes, t.kids[k], mode, words[start]);
      assert ListOk(t, k) && NodeOk(t, c);
      assert Under(t.up, k, k) && Reaches(nodes, t, k, mode, c);
      if t.kids[c] != [] && start != |words| - 1 {
        SearchReaches(nodes, t, c, mode, words, start + 1, at, answers);
        var deeper := Search(nodes, t, c, mode, words, start + 1, at, answers);
        forall j | 0 <= j < |deeper.ran| ensures Reaches(nodes, t, k, mode, deeper.ran[j].cmd) {
          ReachesUp(nodes, t, k, mode, c, deeper.ran[j].cmd);
        }
      }
    }
  }

  /** A line runs commands of the current menu and below it that are its own, and after them global ones; of the
      latter none unless the first lookup ended otherwise than well, and then the second lookup decides. */
  lemma LineRunsByMode(nodes: Nodes, t: Tree, at: nat, words: seq<string>, self: Answers, all: Answers)
    requires TreeOk(t) && at in t.kids && words != []
    ensures
      var here := Search(nodes, t, at, MODE_SELF, words, 0, at, self);
      var top := Search(nodes, t, 0, MODE_ALL, words, 0, here.at, all);
      var r := RunLine(nodes, t, at, words, self, all);
      && AllReach(nodes, t, at, 0, here.ran) && AllReach(nodes, t, 0, 1, top.ran)
      && (here.rc == CLI_OK ==> r == here)
      && (here.rc != CLI_OK ==> r.ran == here.ran + top.ran && r.rc == top.rc && r.at == top.at)
  {
    var here := Search(nodes, t, at, MODE_SELF, words, 0, at, self);
    SearchReaches(nodes, t, at, MODE_SELF, words, 0, at, self);
    SearchReaches(nodes, t, 0, MODE_ALL, words, 0, here.at, all);
  }

  // What a word means.

  /** Entry `i` of a list is of the mode, and the word is its name or abbreviates it and no other of the list. */
  ghost predicate Meant(nodes: Nodes, s: seq<nat>, i: nat, mode: nat, word: string) {
    i < |s| && s[i] in nodes && nodes[s[i]].mode == mode && CliAbbrev.Means(Names(nodes, s), i, word)
  }

  /** ... and no earlier entry is. */
  ghost predicate FirstMeant(nodes: Nodes, s: seq<nat>, i: nat, mode: nat, word: string) {
    Meant(nodes, s, i, mode, word) && forall j :: 0 <= j < i ==> !Meant(nodes, s, j, mode, word)
  }

  ghost predicate Plain(nodes: Nodes) {
    forall n :: n in nodes ==> CliAbbrev.Lower(nodes[n].name) == nodes[n].name
  }

  lemma FitsMeans(nodes: Nodes, s: seq<nat>, i: nat, mode: nat, word: string)
    requires i < |s| && FreshList(nodes, s) && (forall k :: 0 <= k < |s| ==> s[k] in nodes)
    requires word != "" && Plain(nodes)
    ensures FitsIn(nodes, s[i], mode, word) <==> Meant(nodes, s, i, mode, word)
  {
    FreshListMeans(nodes, s, i, word);
  }

  /** Where the lookup in a list stops. */
  lemma {:induction false} MatchStops(nodes: Nodes, s: seq<nat>, mode: nat, word: string, from: nat) returns (i: nat)
    requires from <= |s| && 0 !in s
    ensures from <= i <= |s| && forall j :: from <= j < i ==> !FitsIn(nodes, s[j], mode, word)
    ensures Match(nodes, s[from..], mode, word) == if i < |s| then s[i] else 0
    ensures i < |s| ==> FitsIn(nodes, s[i], mode, word)
    decreases |s| - from
  {
    i := from;
    if from < |s| {
      assert s[from..][0] == s[from] && s[from..][1..] == s[from + 1..];
      if !FitsIn(nodes, s[from], mode, word) {
        i := MatchStops(nodes, s, mode, word, from + 1);
      }
    }
  }

  /** With fresh lengths and lower-case names the lookup finds the first entry of the mode that the word means. */
  lemma MatchIsFirstMeant(nodes: Nodes, s: seq<nat>, mode: nat, word: string) returns (i: nat)
    requires FreshList(nodes, s) && 0 !in s && (forall k :: 0 <= k < |s| ==> s[k] in nodes)
    requires word != "" && Plain(nodes)
    ensures i <= |s| && Match(nodes, s, mode, word) == if i < |s| then s[i] else 0
    ensures i < |s| ==> FirstMeant(nodes, s, i, mode, word)
    ensures i == |s| ==> forall j :: 0 <= j < |s| ==> !Meant(nodes, s, j, mode, word)
  {
    assert s[0..] == s;
    i := MatchStops(nodes, s, mode, word, 0);
    forall j | 0 <= j < |s| ensures FitsIn(nodes, s[j], mode, word) <==> Meant(nodes, s, j, mode, word) {
      FitsMeans(nodes, s, j, mode, word);
    }
  }

  /** The path the words mean: at each menu the first command of the mode that the word means, down to a command
      without a submenu, the last word, or a word that means none. */
  ghost predicate MeantPath(
    nodes: Nodes, t: Tree, k: nat, mode: nat, words: seq<string>, start: nat, path: seq<nat>)
    requires start < |words|
    decreases |words| - start
  {
    && k in t.kids
    && if path == [] then forall j :: 0 <= j < |t.kids[k]| ==> !Meant(nodes, t.kids[k], j, mode, words[start])
       else
         && path[0] in t.kids
         && (exists i: nat :: FirstMeant(nodes, t.kids[k], i, mode, words[start]) && t.kids[k][i] == path[0])
         && if t.kids[path[0]] == [] || start == |words| - 1 then |path| == 1
            else MeantPath(nodes, t, path[0], mode, words, start + 1, path[1..])
  }

  /** After a registration the path of a line is the one its words mean. */
  lemma {:induction false} PathIsMeant(
    nodes: Nodes, root: nat, t: Tree, k: nat, mode: nat, words: seq<string>, start: nat)
    requires Represents(nodes, root, t) && AllFresh(nodes, t) && Plain(nodes) && k in t.kids
    requires start < |words| && forall i :: 0 <= i < |words| ==> words[i] != ""
    ensures MeantPath(nodes, t, k, mode, words, start, Path(nodes, t, k, mode, words, start))
    decreases |words| - start
  {
    var s, path := t.kids[k], Path(nodes, t, k, mode, words, start);
    ListWalkable(nodes, root, t, k);
    assert FreshList(nodes, s);
    var i := MatchIsFirstMeant(nodes, s, mode, words[start]);
    if i < |s| {
      assert ListOk(t, k) && NodeOk(t, s[i]);
      assert path[0] == s[i] && FirstMeant(nodes, s, i, mode, words[start]);
      if t.kids[s[i]] != [] && start != |words| - 1 {
        PathIsMeant(nodes, root, t, s[i], mode, words, start + 1);
        assert path[1..] == Path(nodes, t, s[i], mode, words, start + 1);
      }
    }
  }

  // Help.

  /** The words before `j` name commands one below the other, each with a submenu. */
  ghost predicate LeadsTo(nodes: Nodes, t: Tree, k: nat, mode: nat, words: seq<string>, start: nat, j: nat)
    requires start <= j < |words|
    decreases j - start
  {
    && k in t.kids
    && (start < j ==>
          var c := Match(nodes, t.kids[k], mode, words[start]);
          && !AsksHelp(words[start]) && c != 0 && c in t.kids && t.kids[c] != []
          && LeadsTo(nodes, t, c, mode, words, start + 1, j))
  }

  /** A word that ends in a question mark, reached by the words before it, ends the lookup well with nothing run. */
  lemma {:induction false} HelpRunsNothing(
    nodes: Nodes, t: Tree, k: nat, mode: nat, words: seq<string>, start: nat, at: nat, answers: Answers, j: nat)
    requires start <= j < |words| && words[j] != "" && words[j][|words[j]| - 1] == '?'
    requires LeadsTo(nodes, t, k, mode, words, start, j)
    ensures Search(nodes, t, k, mode, words, start, at, answers) == Result(CLI_OK, [], at)
    decreases j - start
  {
    if start < j {
      HelpRunsNothing(
        nodes, t, Match(nodes, t.kids[k], mode, words[start]), mode, words, start + 1, at, answers, j);
    }
  }
}
