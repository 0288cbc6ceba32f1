/** Waiting for bits of a flag word, with or without a time limit. */
module FlagWait {
  const SECOND: int := 1_000_000_000

  /** A limit of 2^32 - 1 milliseconds, what -1 becomes, stands for no limit. */
  const FOREVER: nat := 0xFFFF_FFFF

  /** A test of no known kind never succeeds. */
  datatype TestMode = TestAll | TestAny | TestEqual | TestUnknown

  function BitTest(flg: bv32, ptn: bv32, mode: TestMode): bool {
    match mode
    case TestAll => flg & ptn == ptn
    case TestAny => flg & ptn != 0
    case TestEqual => flg == ptn
    case TestUnknown => false
  }

  /** "Any" finds a common bit: it does not matter which word is the pattern, and in an empty one there is none. */
  lemma AnyIsCommon(flg: bv32, p: bv32)
    ensures BitTest(flg, p, TestAny) == BitTest(p, flg, TestAny) && !BitTest(flg, 0, TestAny)
    ensures BitTest(p, p, TestAny) <==> p != 0
  {
    assert flg & p == p & flg;
  }

  lemma Covered(flg: bv32, p: bv32)
    ensures (flg & p) | (!flg & p) == p
  {}

  lemma NothingBoth(flg: bv32, p: bv32)
    ensures !flg & (flg & p) == 0
  {}

  lemma Missing(flg: bv32, p: bv32)
    ensures flg & p == p <==> !flg & p == 0
  {
    var have, lack := flg & p, !flg & p;
    Covered(flg, p);
    if lack == 0 {
      assert have | 0 == have;
    }
    if have == p {
      NothingBoth(flg, p);
    }
  }

  /** "All" is finding none of the pattern's bits missing; "equal" is "all" both ways; no other kind succeeds. */
  lemma AllIsNoneMissing(flg: bv32, p: bv32)
    ensures BitTest(flg, p, TestAll) <==> !BitTest(!flg, p, TestAny)
    ensures BitTest(flg, p, TestEqual) <==> BitTest(flg, p, TestAll) && BitTest(p, flg, TestAll)
    ensures !BitTest(flg, p, TestUnknown)
  {
    Missing(flg, p);
    assert flg & p == p & flg;
  }

  /** A clock reading; clocks keep nanoseconds below a second. */
  datatype Time = Time(sec: int, nsec: int)
  {
    predicate Normal() { 0 <= nsec < 1_000_000_000 }
    function Nanos(): int { sec * 1_000_000_000 + nsec }
  }

  /** Division that cuts towards zero. */
  function Truncated(a: int, b: int): (q: int)
    requires b > 0
  {
    if a >= 0 then a / b else -((-a) / b)
  }

  /** Milliseconds between two readings, as an unsigned 32-bit number. */
  function ElapsedMs(from: Time, to: Time): (ms: nat) {
    ((to.sec - from.sec) * 1000 + Truncated(to.nsec - from.nsec, 1_000_000)) % 0x1_0000_0000
  }

  function Less(tmout: nat, ms: nat): (r: nat) {
    if tmout > ms then tmout - ms else 0
  }

  /** The absolute time a wait of `tmout` milliseconds from `now` ends at. */
  method Deadline(now: Time, tmout: nat) returns (ts: Time)
    requires now.Normal()
    ensures ts.Normal() && ts.Nanos() == now.Nanos() + tmout * 1_000_000
  {
    var sec, nsec := now.sec + tmout / 1000, now.nsec + tmout % 1000 * 1_000_000;
    ghost var total := sec * 1_000_000_000 + nsec;
    assert total == now.Nanos() + tmout * 1_000_000 by { MsSplit(tmout); }
    while nsec >= 1_000_000_000
      invariant nsec >= 0 && sec * 1_000_000_000 + nsec == total
    {
      nsec := nsec - 1_000_000_000;
      sec := sec + 1;
    }
    ts := Time(sec, nsec);
  }

  lemma MsSplit(tmout: nat)
    ensures tmout / 1000 * 1_000_000_000 + tmout % 1000 * 1_000_000 == tmout * 1_000_000
  {
    assert tmout == tmout / 1000 * 1000 + tmout % 1000;
  }

  // One wait.

  /** What happens in one round of the loop: the flag word under the lock, the clock before the wait, the
      wait's error, and the clock after it. */
  datatype Round = Round(flg: bv32, now: Time, before: Time, failed: bool, after: Time)

  predicate Clocked(r: Round) { r.now.Normal() && r.before.Normal() && r.after.Normal() }

  datatype Ending = Met | WaitFailed | TimedOut | Waiting

  /** The time left when `k` rounds have passed. */
  function TimeLeft(tmout: nat, rounds: seq<Round>, k: nat): (r: nat)
    requires k <= |rounds|
    ensures r <= tmout
  {
    if k == 0 then tmout
    else if tmout == FOREVER then FOREVER
    else Less(TimeLeft(tmout, rounds, k - 1), ElapsedMs(rounds[k - 1].before, rounds[k - 1].after))
  }

  /** The bits are not there and the wait is woken without an error. */
  predicate Goes(r: Round, ptn: bv32, mode: TestMode) { !BitTest(r.flg, ptn, mode) && !r.failed }

  /** A timed wait ends `left` milliseconds after the clock was read. */
  predicate EndsOnTime(ts: Time, r: Round, left: nat) {
    ts.Normal() && ts.Nanos() == r.now.Nanos() + left * 1_000_000
  }

  /** Round `k` is the first in which the bits are there or the wait fails. */
  ghost predicate EndsAt(rounds: seq<Round>, ptn: bv32, mode: TestMode, k: nat) {
    && k < |rounds| && (BitTest(rounds[k].flg, ptn, mode) || rounds[k].failed)
    && forall i :: 0 <= i < k ==> Goes(rounds[i], ptn, mode)
  }

  /** One round: test under the lock, wait, and count the time off. */
  method OneRound(
    r: Round, ptn: bv32, mode: TestMode, left: nat) returns (ending: Ending, left': nat, deadlines: seq<Time>)
    requires Clocked(r) && left <= FOREVER
    ensures ending.Waiting? <==> Goes(r, ptn, mode)
    ensures ending.Met? <==> BitTest(r.flg, ptn, mode)
    ensures ending.WaitFailed? ==> left == FOREVER
    ensures ending.TimedOut? ==> left < FOREVER
    ensures left' == if ending.Waiting? && left < FOREVER then Less(left, ElapsedMs(r.before, r.after)) else left
    ensures |deadlines| == if ending.Met? || left == FOREVER then 0 else 1
    ensures deadlines != [] ==> EndsOnTime(deadlines[0], r, left)
  {
    left', deadlines := left, [];
    if BitTest(r.flg, ptn, mode) {
      return Met, left, [];
    }
    if left == FOREVER {
      ending := if r.failed then WaitFailed else Waiting;
    } else {
      var ts := Deadline(r.now, left);
      deadlines := [ts];
      if r.failed {
        ending := TimedOut;
      } else {
        ending := Waiting;
        left' := Less(left, ElapsedMs(r.before, r.after));
      }
    }
  }

  ghost predicate OnTime(deadlines: seq<Time>, tmout: nat, rounds: seq<Round>) {
    && |deadlines| <= |rounds|
    && forall i {:trigger deadlines[i]} :: 0 <= i < |deadlines| ==>
       EndsOnTime(deadlines[i], rounds[i], TimeLeft(tmout, rounds, i))
  }

  lemma {:induction false} OnTimeGrows(deadlines: seq<Time>, more: seq<Time>, tmout: nat, rounds: seq<Round>)
    requires OnTime(deadlines, tmout, rounds)
    requires more != [] ==>
      && |more| == 1 && |deadlines| < |rounds|
      && EndsOnTime(more[0], rounds[|deadlines|], TimeLeft(tmout, rounds, |deadlines|))
    ensures OnTime(deadlines + more, tmout, rounds)
  {}

  lemma {:induction false} NoLimitLeft(tmout: nat, rounds: seq<Round>, k: nat)
    requires k <= |rounds| && tmout <= FOREVER
    ensures TimeLeft(tmout, rounds, k) == FOREVER <==> tmout == FOREVER
  {}

  /** Wait through the rounds the environment offers; `deadlines` are the times handed to the timed waits. */
  method WaitBitTest(rounds: seq<Round>, ptn: bv32, mode: TestMode, tmout: nat)
    returns (ending: Ending, k: nat, left: nat, deadlines: seq<Time>)
    requires tmout <= FOREVER && forall i :: 0 <= i < |rounds| ==> Clocked(rounds[i])
    ensures k <= |rounds| && left == TimeLeft(tmout, rounds, k)
    ensures ending.Waiting? <==> forall i :: 0 <= i < |rounds| ==> Goes(rounds[i], ptn, mode)
    ensures !ending.Waiting? ==> EndsAt(rounds, ptn, mode, k) && (ending.Met? <==> BitTest(rounds[k].flg, ptn, mode))
    ensures (ending.WaitFailed? ==> tmout == FOREVER) && (ending.TimedOut? ==> tmout < FOREVER)
    ensures |deadlines| == (if tmout == FOREVER then 0 else if ending.TimedOut? then k + 1 else k)
    ensures OnTime(deadlines, tmout, rounds)
  {
    ending, k, left, deadlines := Waiting, 0, tmout, [];
    while k < |rounds|
      invariant ending.Waiting? && k <= |rounds| && left == TimeLeft(tmout, rounds, k)
      invariant forall i :: 0 <= i < k ==> Goes(rounds[i], ptn, mode)
      invariant |deadlines| == (if tmout == FOREVER then 0 else k) && OnTime(deadlines, tmout, rounds)
    {
      NoLimitLeft(tmout, rounds, k);
      var left', more;
      ending, left', more := OneRound(rounds[k], ptn, mode, left);
      OnTimeGrows(deadlines, more, tmout, rounds);
      deadlines := deadlines + more;
      if !ending.Waiting? {
        return;
      }
      left := left';
      k := k + 1;
    }
  }

  /** A limited wait never turns into an unlimited one. */
  lemma FiniteStaysFinite(tmout: nat, rounds: seq<Round>, k: nat)
    requires tmout < FOREVER && k <= |rounds|
    ensures TimeLeft(tmout, rounds, k) <= tmout < FOREVER
  {}

  /** The largest 32-bit limit never runs down; it is the only one without a deadline. */
  lemma {:induction false} ForeverStays(rounds: seq<Round>, k: nat)
    requires k <= |rounds|
    ensures TimeLeft(0xFFFF_FFFF, rounds, k) == 0xFFFF_FFFF
  {
    if k > 0 {
      ForeverStays(rounds, k - 1);
    }
  }

  // The time left against the true remainder.

  /** The clock does not run back in a round, nor forward by 2^32 milliseconds. */
  ghost predicate Sane(r: Round) {
    Clocked(r) && 0 <= r.after.Nanos() - r.before.Nanos() < 0xFFFF_FFFF * 1_000_000
  }

  ghost function Elapsed(rounds: seq<Round>, k: nat): (nanos: int)
    requires k <= |rounds|
  {
    if k == 0 then 0 else Elapsed(rounds, k - 1) + rounds[k - 1].after.Nanos() - rounds[k - 1].before.Nanos()
  }

  function Clip(x: int): (r: int) { if x < 0 then 0 else x }

  function Distance(a: int, b: int): (r: nat) { if a < b then b - a else a - b }

  lemma TruncatedNear(a: int)
    ensures Distance(Truncated(a, 1_000_000) * 1_000_000, a) < 1_000_000
  {}

  lemma ElapsedNear(r: Round)
    requires Sane(r)
    ensures Distance(ElapsedMs(r.before, r.after) * 1_000_000, r.after.Nanos() - r.before.Nanos()) <= 1_000_000
  {
    var s, n := r.after.sec - r.before.sec, r.after.nsec - r.before.nsec;
    TruncatedNear(n);
    var ms := s * 1000 + Truncated(n, 1_000_000);
    assert Distance(ms * 1_000_000, s * 1_000_000_000 + n) < 1_000_000;
    assert 0 <= ms < 0x1_0000_0000;
  }

  lemma {:induction false} ElapsedGrows(rounds: seq<Round>, k: nat)
    requires k <= |rounds| && forall i :: 0 <= i < k ==> Sane(rounds[i])
    ensures Elapsed(rounds, k) >= 0
  {
    if k > 0 {
      ElapsedGrows(rounds, k - 1);
    }
  }

  lemma LessClips(left: nat, ms: nat)
    ensures Less(left, ms) * 1_000_000 == Clip(left * 1_000_000 - ms * 1_000_000)
  {}

  lemma ClipNear(a: int, d: int, b: int, e: int)
    requires a >= 0 && e >= 0
    ensures Distance(Clip(a - d), Clip(b - e)) <= Distance(a, Clip(b)) + Distance(d, e)
  {}

  /** After `k` wake-ups the time left is within `k` milliseconds of what truly remains. */
  lemma {:induction false} TimeLeftIsNear(tmout: nat, rounds: seq<Round>, k: nat)
    requires tmout < FOREVER && k <= |rounds| && forall i :: 0 <= i < k ==> Sane(rounds[i])
    ensures
      var left := Clip(tmout * 1_000_000 - Elapsed(rounds, k));
      Distance(TimeLeft(tmout, rounds, k) * 1_000_000, left) <= k * 1_000_000
  {
    if k > 0 {
      TimeLeftIsNear(tmout, rounds, k - 1);
      var r := rounds[k - 1];
      assert Sane(r);
      ElapsedNear(r);
      var left: int, ms: int := TimeLeft(tmout, rounds, k - 1), ElapsedMs(r.before, r.after);
      var e := r.after.Nanos() - r.before.Nanos();
      ClipNear(left * 1_000_000, ms * 1_000_000, tmout * 1_000_000 - Elapsed(rounds, k - 1), e);
      LessClips(left, ms);
    }
  }
}
