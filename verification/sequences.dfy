/** Sequences without duplicates, and removing elements from them. */
module Sequences {
  ghost predicate Distinct<T>(s: seq<T>) {
    forall i, j :: 0 <= i < j < |s| ==> s[i] != s[j]
  }

  /** The sequence without its element `i`. */
  ghost function Without<T>(s: seq<T>, i: nat): (r: seq<T>)
    requires i < |s|
    ensures |r| == |s| - 1
    ensures forall j :: 0 <= j < |r| ==> r[j] == if j < i then s[j] else s[j + 1]
  {
    s[..i] + s[i + 1..]
  }

  lemma WithoutFacts<T>(s: seq<T>, i: nat)
    requires i < |s|
    ensures Distinct(s) ==> Distinct(Without(s, i))
    ensures forall x :: x in Without(s, i) ==> x in s
  {}

  /** The elements that stay when those in `gone` are removed, in their old order. */
  ghost function Dropped<T>(s: seq<T>, gone: set<T>): (r: seq<T>) {
    if s == [] then []
    else Dropped(s[..|s| - 1], gone) + if s[|s| - 1] in gone then [] else [s[|s| - 1]]
  }

  lemma {:induction false} DroppedFacts<T>(s: seq<T>, gone: set<T>)
    ensures forall x :: x in Dropped(s, gone) <==> x in s && x !in gone
    ensures Distinct(s) ==> Distinct(Dropped(s, gone))
    ensures |Dropped(s, gone)| <= |s|
  {
    if s != [] {
      var most := s[..|s| - 1];
      DroppedFacts(most, gone);
      assert s == most + [s[|s| - 1]];
    }
  }

  lemma {:induction false} DroppedAppend<T>(a: seq<T>, b: seq<T>, gone: set<T>)
    ensures Dropped(a + b, gone) == Dropped(a, gone) + Dropped(b, gone)
  {
    if b == [] {
      assert a + b == a;
    } else {
      var most := b[..|b| - 1];
      DroppedAppend(a, most, gone);
      assert (a + b)[..|a + b| - 1] == a + most;
    }
  }

  lemma {:induction false} DroppedNone<T>(s: seq<T>, gone: set<T>)
    requires forall x :: x in s ==> x !in gone
    ensures Dropped(s, gone) == s
  {
    if s != [] {
      var most, last := s[..|s| - 1], s[|s| - 1];
      assert s == most + [last] && last in s;
      DroppedNone(most, gone);
    }
  }

  lemma {:induction false} DroppedAll<T>(s: seq<T>, gone: set<T>)
    requires forall x :: x in s ==> x in gone
    ensures Dropped(s, gone) == []
  {
    if s != [] {
      var most, last := s[..|s| - 1], s[|s| - 1];
      assert s == most + [last] && last in s;
      DroppedAll(most, gone);
    }
  }

  /** Removing twice is removing once. */
  lemma {:induction false} DropTwice<T>(s: seq<T>, a: set<T>, b: set<T>)
    ensures Dropped(Dropped(s, a), b) == Dropped(s, a + b)
  {
    if s != [] {
      var most, last := s[..|s| - 1], s[|s| - 1];
      DropTwice(most, a, b);
      DroppedAppend(Dropped(most, a), if last in a then [] else [last], b);
    }
  }

  /** In a sequence without duplicates, taking one element out is removing its value. */
  lemma {:induction false} DropOne<T>(s: seq<T>, j: nat)
    requires Distinct(s) && j < |s|
    ensures Dropped(s, {s[j]}) == Without(s, j)
  {
    var n := |s| - 1;
    var most := s[..n];
    if j == n {
      DroppedNone(most, {s[j]});
    } else {
      DropOne(most, j);
      assert s[..j] + s[j + 1..] == most[..j] + most[j + 1..] + [s[n]];
    }
  }

  lemma {:induction false} DropPrefix<T>(s: seq<T>, gone: set<T>, i: nat)
    requires i <= |s|
    requires forall j :: 0 <= j < i ==> s[j] in gone
    requires forall j :: i <= j < |s| ==> s[j] !in gone
    ensures Dropped(s, gone) == s[i..]
  {
    DroppedAll(s[..i], gone);
    DroppedNone(s[i..], gone);
    DroppedAppend(s[..i], s[i..], gone);
    assert s == s[..i] + s[i..];
  }

  /** Only the elements of the sequence matter. */
  lemma {:induction false} DroppedSame<T>(s: seq<T>, a: set<T>, b: set<T>)
    requires forall x :: x in s ==> (x in a <==> x in b)
    ensures Dropped(s, a) == Dropped(s, b)
  {
    if s != [] {
      var most, last := s[..|s| - 1], s[|s| - 1];
      assert s == most + [last] && last in s;
      DroppedSame(most, a, b);
    }
  }
}
