/** The PID lists of a channel. A PID has 13 bits and 0x1FFF is reserved (section 2.4.3.3 of ISO/IEC 13818-1). */
module Pids {
  import opened Sequences

  type Pid = bv16

  const ILLEGAL_PID: Pid := 0x1FFF

  function Masked(p: Pid): Pid { p & 0x1FFF }

  predicate IsPid(p: Pid) { Masked(p) != ILLEGAL_PID }

  ghost predicate Legal(list: seq<Pid>) {
    forall x :: x in list ==> x < ILLEGAL_PID
  }

  lemma MaskedLegal(p: Pid)
    requires IsPid(p)
    ensures Masked(p) < ILLEGAL_PID
  {}

  /** A PID is the low 13 bits of the word, whatever the others are; all ones are none. */
  lemma PidBits(p: Pid)
    ensures p < 0x2000 ==> Masked(p) == p
    ensures Masked(p) == Masked(p ^ 0x2000) == Masked(p ^ 0x4000) == Masked(p ^ 0x8000)
    ensures IsPid(p) <==> p != 0x1FFF && p != 0x3FFF && p != 0x5FFF && p != 0x7FFF && p != 0x9FFF && p != 0xBFFF
                          && p != 0xDFFF && p != 0xFFFF
  {}

  // What set, add and delete mean.

  /** The PIDs a caller's array names. */
  ghost function Named(pids: seq<Pid>): (r: set<Pid>) {
    set i | 0 <= i < |pids| && IsPid(pids[i]) :: Masked(pids[i])
  }

  ghost function Push(list: seq<Pid>, p: Pid): (r: seq<Pid>) {
    if IsPid(p) && Masked(p) !in list then list + [Masked(p)] else list
  }

  /** The list followed by the PIDs named that it lacks, each where it is first named. */
  ghost function Appended(list: seq<Pid>, pids: seq<Pid>): (r: seq<Pid>) {
    if pids == [] then list else Push(Appended(list, pids[..|pids| - 1]), pids[|pids| - 1])
  }

  ghost function Prefix(s: seq<Pid>, n: nat): (r: seq<Pid>) {
    if n <= |s| then s[..n] else s
  }

  ghost predicate Names(pids: seq<Pid>, x: Pid, i: nat) {
    i < |pids| && IsPid(pids[i]) && Masked(pids[i]) == x
  }

  /** `i` is where `x` is first named. */
  ghost predicate FirstNamed(pids: seq<Pid>, x: Pid, i: nat) {
    Names(pids, x, i) && forall j: nat :: j < i ==> !Names(pids, x, j)
  }

  lemma NamedStep(pids: seq<Pid>)
    requires pids != []
    ensures var p := pids[|pids| - 1];
      Named(pids) == Named(pids[..|pids| - 1]) + if IsPid(p) then {Masked(p)} else {}
  {
    var most := pids[..|pids| - 1];
    assert forall i :: 0 <= i < |most| ==> most[i] == pids[i];
  }

  lemma {:induction false} AppendedFacts(list: seq<Pid>, pids: seq<Pid>)
    requires Distinct(list)
    ensures Distinct(Appended(list, pids)) && list <= Appended(list, pids)
    ensures forall x :: x in Appended(list, pids) <==> x in list || x in Named(pids)
  {
    if pids != [] {
      AppendedFacts(list, pids[..|pids| - 1]);
      NamedStep(pids);
    }
  }

  lemma LegalPrefix(list: seq<Pid>, pids: seq<Pid>, n: nat)
    requires Distinct(list) && Legal(list)
    ensures Legal(Prefix(Appended(list, pids), n))
  {
    AppendedFacts(list, pids);
    forall x | x in Named(pids) ensures x < ILLEGAL_PID {
      var i :| 0 <= i < |pids| && IsPid(pids[i]) && Masked(pids[i]) == x;
      MaskedLegal(pids[i]);
    }
    forall x | x in Prefix(Appended(list, pids), n) ensures x < ILLEGAL_PID {
      assert x in Appended(list, pids);
    }
  }

  lemma {:induction false} AppendedGrows(list: seq<Pid>, pids: seq<Pid>, k: nat)
    requires k <= |pids|
    ensures Appended(list, pids[..k]) <= Appended(list, pids)
  {
    if k == |pids| {
      assert pids[..k] == pids;
    } else {
      var most := pids[..|pids| - 1];
      AppendedGrows(list, most, k);
      assert most[..k] == pids[..k];
    }
  }

  lemma FirstNamedShorter(pids: seq<Pid>, n: nat, x: Pid, i: nat)
    requires n <= |pids| && FirstNamed(pids[..n], x, i)
    ensures FirstNamed(pids, x, i)
  {
    forall j: nat | j < i ensures !Names(pids, x, j) {
      assert !Names(pids[..n], x, j);
    }
  }

  /** A list that is set holds every PID named, once, and in the order in which they are first named. */
  lemma {:induction false} SetInFirstOccurrenceOrder(pids: seq<Pid>) returns (at: seq<nat>)
    ensures |at| == |Appended([], pids)|
    ensures forall k :: 0 <= k < |at| ==> FirstNamed(pids, Appended([], pids)[k], at[k])
    ensures forall j, k :: 0 <= j < k < |at| ==> at[j] < at[k]
  {
    at := [];
    if pids != [] {
      var n := |pids| - 1;
      at := SetInFirstOccurrenceOrder(pids[..n]);
      var before := Appended([], pids[..n]);
      forall k | 0 <= k < |at| ensures FirstNamed(pids, before[k], at[k]) {
        FirstNamedShorter(pids, n, before[k], at[k]);
      }
      assert forall k :: 0 <= k < |at| ==> Names(pids[..n], before[k], at[k]);
      if IsPid(pids[n]) && Masked(pids[n]) !in before {
        AppendedFacts([], pids[..n]);
        forall j: nat | j < n ensures !Names(pids, Masked(pids[n]), j) {
          assert pids[..n][j] == pids[j];
        }
        at := at + [n];
      }
    }
  }

  /** Deleting what was added, when it was new and all of it fitted, gives the old list back. */
  lemma DeleteUndoesAdd(list: seq<Pid>, pids: seq<Pid>, max: nat)
    requires Distinct(list) && |Appended(list, pids)| <= max
    requires forall x :: x in list ==> x !in Named(pids)
    ensures Dropped(Prefix(Appended(list, pids), max), Named(pids)) == list
  {
    AppendedFacts(list, pids);
    var all := Appended(list, pids);
    var tail := all[|list|..];
    assert all == list + tail && Prefix(all, max) == all;
    forall x | x in tail ensures x in Named(pids) {
      assert x in all;
      var k :| 0 <= k < |tail| && tail[k] == x;
      assert all[|list| + k] == x;
    }
    DroppedAppend(list, tail, Named(pids));
    DroppedNone(list, Named(pids));
    DroppedAll(tail, Named(pids));
  }

  /** Adding in two calls is adding once. */
  lemma {:induction false} AddTwice(list: seq<Pid>, a: seq<Pid>, b: seq<Pid>)
    ensures Appended(Appended(list, a), b) == Appended(list, a + b)
  {
    if b == [] {
      assert a + b == a;
    } else {
      var most := b[..|b| - 1];
      AddTwice(list, a, most);
      assert (a + b)[..|a + b| - 1] == a + most;
    }
  }
}
