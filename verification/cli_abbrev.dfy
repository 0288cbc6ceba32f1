/** Abbreviated command names: the precomputed shortest lengths against what an abbreviation means. */
module CliAbbrev {
  import opened Sequences

  function LowerChar(c: char): char {
    if 'A' <= c <= 'Z' then c - 'A' + 'a' else c
  }

  function Lower(s: string): (r: string)
    ensures |r| == |s|
    ensures forall i :: 0 <= i < |s| ==> r[i] == LowerChar(s[i])
  {
    if s == "" then "" else [LowerChar(s[0])] + Lower(s[1..])
  }

  /** At most `n` characters of two terminated strings compare equal, ignoring case. */
  predicate SameUpTo(a: string, b: string, n: nat) {
    || n == 0
    || (a == "" && b == "")
    || (a != "" && b != "" && LowerChar(a[0]) == LowerChar(b[0]) && SameUpTo(a[1..], b[1..], n - 1))
  }

  /** The length of the longest common prefix. */
  function Common(a: string, b: string): nat {
    if a == "" || b == "" || a[0] != b[0] then 0 else 1 + Common(a[1..], b[1..])
  }

  lemma {:induction false} CommonFacts(a: string, b: string)
    ensures Common(a, b) <= |a| && Common(a, b) <= |b|
    ensures a[..Common(a, b)] == b[..Common(a, b)]
    ensures Common(a, b) < |a| && Common(a, b) < |b| ==> a[Common(a, b)] != b[Common(a, b)]
  {
    if a != "" && b != "" && a[0] == b[0] {
      CommonFacts(a[1..], b[1..]);
      var n := Common(a, b);
      assert a[..n] == [a[0]] + a[1..][..n - 1] && b[..n] == [b[0]] + b[1..][..n - 1];
    }
  }

  /** The test a command is looked up with. */
  predicate Accepts(name: string, uniqueLen: nat, word: string) {
    SameUpTo(name, word, uniqueLen) && SameUpTo(name, word, |word|)
  }

  /** What the test is for: the word, ignoring case, is the command's name, or abbreviates it and no other sibling. */
  ghost predicate Means(names: seq<string>, c: nat, word: string)
    requires c < |names|
  {
    || Lower(word) == Lower(names[c])
    || (Lower(word) <= Lower(names[c])
        && forall p :: 0 <= p < |names| && p != c ==> !(Lower(word) <= Lower(names[p])))
  }

  /** Longer than what command `c` shares with any of the first `k` other siblings. */
  ghost function UniqueLen(names: seq<string>, c: nat, k: nat): (n: nat)
    requires c < |names| && k <= |names|
  {
    if k == 0 then 1
    else
      var n := UniqueLen(names, c, k - 1);
      var len := 1 + Common(names[c], names[k - 1]);
      if k - 1 != c && len > n then len else n
  }

  lemma {:induction false} UniqueLenFacts(names: seq<string>, c: nat, k: nat)
    requires c < |names| && k <= |names|
    ensures UniqueLen(names, c, k) >= 1
    ensures forall p :: 0 <= p < k && p != c ==> UniqueLen(names, c, k) > Common(names[c], names[p])
    ensures
      || UniqueLen(names, c, k) == 1
      || exists p :: 0 <= p < k && p != c && UniqueLen(names, c, k) == 1 + Common(names[c], names[p])
  {
    if k > 0 {
      UniqueLenFacts(names, c, k - 1);
    }
  }

  // The comparison of the lookup, in terms of prefixes.

  lemma LowerTail(s: string)
    requires s != ""
    ensures Lower(s)[1..] == Lower(s[1..])
  {}

  lemma {:induction false} SameUpToMeans(a: string, b: string, n: nat)
    ensures SameUpTo(a, b, n) <==>
      || (n <= |a| && n <= |b| && Lower(a)[..n] == Lower(b)[..n])
      || (|a| == |b| < n && Lower(a) == Lower(b))
  {
    if n > 0 && a != "" && b != "" {
      SameUpToMeans(a[1..], b[1..], n - 1);
      var x, y := Lower(a), Lower(b);
      LowerTail(a);
      LowerTail(b);
      if n <= |a| && n <= |b| {
        PrefixCons(x, y, n);
      } else if |a| == |b| {
        PrefixCons(x, y, |a|);
        assert x[..|a|] == x && y[..|a|] == y && x[1..][..|a| - 1] == x[1..] && y[1..][..|a| - 1] == y[1..];
      }
    }
  }

  lemma PrefixCons(x: string, y: string, n: nat)
    requires 0 < n <= |x| && n <= |y|
    ensures x[..n] == y[..n] <==> x[0] == y[0] && x[1..][..n - 1] == y[1..][..n - 1]
  {
    assert x[..n] == [x[0]] + x[1..][..n - 1] && y[..n] == [y[0]] + y[1..][..n - 1];
    assert x[..n][0] == x[0] && y[..n][0] == y[0];
    assert x[..n][1..] == x[1..][..n - 1] && y[..n][1..] == y[1..][..n - 1];
  }

  lemma AcceptsMeans(name: string, uniqueLen: nat, word: string)
    ensures Accepts(name, uniqueLen, word) <==>
      Lower(word) <= Lower(name) && (|word| >= uniqueLen || |word| == |name|)
  {
    SameUpToMeans(name, word, uniqueLen);
    SameUpToMeans(name, word, |word|);
    var x, y := Lower(name), Lower(word);
    assert y[..|word|] == y;
    if y <= x {
      assert x[..|word|] == y;
      if uniqueLen <= |word| {
        assert x[..uniqueLen] == y[..uniqueLen];
      }
    }
  }

  lemma {:induction false} CommonPrefix(a: string, b: string, w: string)
    requires w <= a
    ensures w <= b <==> |w| <= Common(a, b)
  {
    var n := Common(a, b);
    CommonFacts(a, b);
    if |w| <= n {
      assert w == a[..n][..|w|] == b[..n][..|w|] == b[..|w|];
    } else {
      assert w[n] == a[n];
    }
  }

  lemma {:induction false} CommonOfLower(a: string, b: string)
    ensures Common(a, b) <= Common(Lower(a), Lower(b))
  {
    var n := Common(a, b);
    CommonFacts(a, b);
    var x, y := Lower(a), Lower(b);
    forall i | 0 <= i < n ensures x[i] == y[i] {
      assert a[i] == a[..n][i] == b[..n][i] == b[i];
    }
    assert x[..n] == y[..n];
    CommonPrefix(x, y, x[..n]);
  }

  function Lowered(names: seq<string>): (r: seq<string>)
    ensures |r| == |names| && forall i :: 0 <= i < |r| ==> r[i] == Lower(names[i])
  {
    if names == [] then [] else Lowered(names[..|names| - 1]) + [Lower(names[|names| - 1])]
  }

  /** A word that abbreviates `c` abbreviates nothing else exactly if it is long enough. */
  lemma LongEnough(names: seq<string>, c: nat, word: string)
    requires c < |names| && word != "" && word <= names[c]
    ensures |word| >= UniqueLen(names, c, |names|) <==>
      forall p :: 0 <= p < |names| && p != c ==> !(word <= names[p])
  {
    forall p | 0 <= p < |names| ensures word <= names[p] <==> |word| <= Common(names[c], names[p]) {
      CommonPrefix(names[c], names[p], word);
    }
    UniqueLenFacts(names, c, |names|);
  }

  lemma MeansByLength(names: seq<string>, c: nat, word: string)
    requires c < |names| && word != ""
    ensures Means(names, c, word) <==>
      Lower(word) <= Lower(names[c]) && (|word| >= UniqueLen(Lowered(names), c, |names|) || |word| == |names[c]|)
  {
    var lowered := Lowered(names);
    if Lower(word) <= Lower(names[c]) {
      LongEnough(lowered, c, Lower(word));
      assert forall p :: 0 <= p < |names| ==> lowered[p] == Lower(names[p]);
      assert |word| == |names[c]| <==> Lower(word) == Lower(names[c]);
    }
  }

  /** The test and its meaning differ on a word only if it is a proper abbreviation of a length between the two
      limits. */
  lemma AgreeOnWord(names: seq<string>, c: nat, word: string)
    requires c < |names| && word != ""
    ensures
      var u, v := UniqueLen(names, c, |names|), UniqueLen(Lowered(names), c, |names|);
      (Accepts(names[c], u, word) <==> Means(names, c, word)) <==>
        (Lower(word) <= Lower(names[c]) && |word| < |names[c]| ==> (|word| >= u <==> |word| >= v))
  {
    AcceptsMeans(names[c], UniqueLen(names, c, |names|), word);
    MeansByLength(names, c, word);
  }

  ghost predicate Agree(names: seq<string>, c: nat)
    requires c < |names|
  {
    forall word :: word != "" ==> (Accepts(names[c], UniqueLen(names, c, |names|), word) <==> Means(names, c, word))
  }

  /** With the lengths built from the names as they are, the lookup test means what it should for every word
      exactly if ignoring case does not make the name need a longer abbreviation, or it has no proper one
      anyway. */
  lemma AbbreviationsAgreeIff(names: seq<string>, c: nat)
    requires c < |names|
    ensures
      var u, v := UniqueLen(names, c, |names|), UniqueLen(Lowered(names), c, |names|);
      Agree(names, c) <==> u == v || |names[c]| <= u
  {
    var u, v, name := UniqueLen(names, c, |names|), UniqueLen(Lowered(names), c, |names|), names[c];
    LengthsOrdered(names, c);
    if u == v || |name| <= u {
      forall word | word != "" ensures Accepts(name, u, word) <==> Means(names, c, word) {
        AgreeOnWord(names, c, word);
      }
    } else {
      Disagree(names, c);
    }
  }

  lemma Disagree(names: seq<string>, c: nat)
    requires c < |names|
    requires UniqueLen(names, c, |names|) < UniqueLen(Lowered(names), c, |names|)
    requires UniqueLen(names, c, |names|) < |names[c]|
    ensures !Agree(names, c)
  {
    var u := UniqueLen(names, c, |names|);
    UniqueLenFacts(names, c, |names|);
    var word := names[c][..u];
    LowerPrefix(names[c], u);
    AgreeOnWord(names, c, word);
    assert word != "" && !(Accepts(names[c], u, word) <==> Means(names, c, word));
  }

  lemma LowerPrefix(name: string, n: nat)
    requires n <= |name|
    ensures Lower(name[..n]) <= Lower(name)
  {}

  lemma LengthsOrdered(names: seq<string>, c: nat)
    requires c < |names|
    ensures UniqueLen(names, c, |names|) <= UniqueLen(Lowered(names), c, |names|)
  {
    var u, lowered := UniqueLen(names, c, |names|), Lowered(names);
    UniqueLenFacts(names, c, |names|);
    UniqueLenFacts(lowered, c, |names|);
    if u > 1 {
      var p :| 0 <= p < |names| && p != c && u == 1 + Common(names[c], names[p]);
      CommonOfLower(names[c], names[p]);
      assert lowered[p] == Lower(names[p]);
    }
  }

  ghost predicate LowerCase(names: seq<string>) {
    forall i :: 0 <= i < |names| ==> Lower(names[i]) == names[i]
  }

  /** For lower-case names a non-empty word finds a command exactly if it is its name, or abbreviates it and
      no other sibling. */
  lemma AbbreviationsAgree(names: seq<string>, c: nat, word: string)
    requires c < |names| && LowerCase(names) && word != ""
    ensures Accepts(names[c], UniqueLen(names, c, |names|), word) <==> Means(names, c, word)
  {
    assert Lowered(names) == names;
    AbbreviationsAgreeIff(names, c);
  }

  /** Two names that start with one letter in two cases, such as "Scan" and "stop", are both found by it. */
  lemma MixedCaseIsAmbiguous(a: string, b: string)
    requires |a| > 1 && |b| > 1 && a[0] != b[0] && LowerChar(a[0]) == LowerChar(b[0])
    ensures
      && Accepts(a, UniqueLen([a, b], 0, 2), a[..1]) && Accepts(b, UniqueLen([a, b], 1, 2), a[..1])
      && !Means([a, b], 0, a[..1])
  {
    var w := a[..1];
    LengthOfTwo(a, b);
    assert Lower(w) <= Lower(a) && Lower(w) <= Lower(b);
    AcceptsMeans(a, 1, w);
    AcceptsMeans(b, 1, w);
    assert |Lower(w)| != |Lower(a)|;
    assert [a, b][1] == b;
  }

  lemma LengthOfTwo(a: string, b: string)
    ensures UniqueLen([a, b], 0, 2) == 1 + Common(a, b)
    ensures UniqueLen([a, b], 1, 2) == 1 + Common(b, a)
  {
    assert UniqueLen([a, b], 0, 1) == 1 && UniqueLen([a, b], 1, 0) == 1;
  }

  /** Lengths at least as large as a fresh build gives them; they stay so when siblings are removed. */
  ghost predicate LongLengths(names: seq<string>, lens: seq<nat>) {
    && |lens| == |names|
    && forall c, p :: 0 <= c < |names| && 0 <= p < |names| && c != p ==> lens[c] > Common(names[c], names[p])
  }

  /** At most one sibling is found, also by lengths that were built before siblings were removed. */
  lemma AtMostOneFound(names: seq<string>, lens: seq<nat>, word: string, c: nat, p: nat)
    requires LongLengths(names, lens) && LowerCase(names) && Distinct(names)
    requires c < |names| && p < |names|
    requires Accepts(names[c], lens[c], word) && Accepts(names[p], lens[p], word)
    ensures c == p
  {
    AcceptsMeans(names[c], lens[c], word);
    AcceptsMeans(names[p], lens[p], word);
    if c != p {
      assert names[c] != names[p];
      CommonPrefix(names[c], names[p], Lower(word));
      CommonPrefix(names[p], names[c], Lower(word));
    }
  }

  /** Removing a sibling keeps the lengths long enough. */
  lemma RemovalKeepsLongLengths(names: seq<string>, lens: seq<nat>, k: nat)
    requires LongLengths(names, lens) && k < |names|
    ensures LongLengths(names[..k] + names[k + 1..], lens[..k] + lens[k + 1..])
  {
    var n, l := names[..k] + names[k + 1..], lens[..k] + lens[k + 1..];
    forall c, p | 0 <= c < |n| && 0 <= p < |n| && c != p ensures l[c] > Common(n[c], n[p]) {
      StillLong(names, lens, k, c, p);
    }
  }

  lemma StillLong(names: seq<string>, lens: seq<nat>, k: nat, c: nat, p: nat)
    requires LongLengths(names, lens) && k < |names| && c < |names| - 1 && p < |names| - 1 && c != p
    ensures (lens[..k] + lens[k + 1..])[c] > Common((names[..k] + names[k + 1..])[c], (names[..k] + names[k + 1..])[p])
  {
    var c', p' := if c < k then c else c + 1, if p < k then p else p + 1;
    assert lens[c'] > Common(names[c'], names[p']);
  }

  // The loops that build the lengths.

  /** One more than the common prefix, counted character by character. */
  method CountCommon(c: string, p: string) returns (len: nat)
    ensures len == 1 + Common(c, p)
  {
    len := 1;
    var i := 0;
    assert c[0..] == c && p[0..] == p;
    while i < |c| && i < |p| && c[i] == p[i]
      invariant i <= |c| && i <= |p| && len == i + 1
      invariant Common(c, p) == i + Common(c[i..], p[i..])
    {
      assert c[i..][1..] == c[i + 1..] && p[i..][1..] == p[i + 1..];
      i := i + 1;
      len := len + 1;
    }
  }

  method Shortest(names: seq<string>, c: nat) returns (u: nat)
    requires c < |names|
    ensures u == UniqueLen(names, c, |names|)
  {
    u := 1;
    var p := 0;
    while p < |names|
      invariant p <= |names| && u == UniqueLen(names, c, p)
    {
      if c != p {
        var len := CountCommon(names[c], names[p]);
        if len > u {
          u := len;
        }
      }
      p := p + 1;
    }
  }

  /** Rebuild the lengths of one list of siblings. */
  method BuildShortest(names: seq<string>, lens: array<nat>)
    requires |names| == lens.Length
    modifies lens
    ensures forall c :: 0 <= c < lens.Length ==> lens[c] == UniqueLen(names, c, |names|)
    ensures LongLengths(names, lens[..])
  {
    var c := 0;
    while c < |names|
      invariant c <= |names|
      invariant forall i :: 0 <= i < c ==> lens[i] == UniqueLen(names, i, |names|)
    {
      lens[c] := Shortest(names, c);
      c := c + 1;
    }
    forall i | 0 <= i < |names|
      ensures forall p :: 0 <= p < |names| && p != i ==> lens[i] > Common(names[i], names[p])
    {
      UniqueLenFacts(names, i, |names|);
    }
  }
}
