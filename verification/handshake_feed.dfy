/** The feeder at work: what a round of it feeds, and that everything supplied is fed in the end. */
module HandshakeFeed {
  import opened Handshake

  /** The device is started, and no call is going on. */
  predicate Quiet(s: State) {
    Inv(s) && s.control.Idle? && s.status.start
  }

  lemma QuietStays(s: State, answer: Answer)
    requires Quiet(s) && Possible(s, Feeds(answer))
    ensures Quiet(FeederStep(s, answer)) && !s.status.p1
    ensures FeederStep(s, answer).control == s.control && FeederStep(s, answer).acts == s.acts
  {
    FeederKeepsInv(s, answer);
  }

  /** Up to its look at the driver the feeder does nothing but move on. */
  lemma MovesOn(s: State, answer: Answer)
    requires Quiet(s)
    requires s.feeder.TestP1? || s.feeder.AwaitStart? || s.feeder.Sleep? || s.feeder.Lock? || s.feeder.Unlock?
    ensures Possible(s, Feeds(answer))
    ensures FeederStep(s, answer) == s.(feeder :=
      match s.feeder
      case TestP1 => AwaitStart
      case AwaitStart => Sleep
      case Sleep => Lock
      case Lock => Query
      case _ => TestP1)
  {}

  lemma OneStep(s: State, steps: seq<Step>, t: State, k: nat) returns (u: State)
    requires k < |steps| && Runs(s, steps[k..], t) && FeederSteps(steps)
    ensures Possible(s, steps[k]) && steps[k].Feeds? && u == FeederStep(s, steps[k].answer)
    ensures Runs(u, steps[k + 1..], t)
  {
    assert steps[k..][0] == steps[k] && steps[k..][1..] == steps[k + 1..];
    u := Take(s, steps[k]);
  }

  lemma ToQuery(s: State, steps: seq<Step>, t: State) returns (u: State)
    requires Quiet(s) && s.feeder.TestP1? && Runs(s, steps, t) && FeederSteps(steps) && |steps| >= 4
    ensures u == s.(feeder := Query) && Runs(u, steps[4..], t)
  {
    assert steps[0..] == steps;
    u := s;
    for k := 0 to 4
      invariant Runs(u, steps[k..], t) && Quiet(u)
      invariant u == s.(feeder := if k == 0 then TestP1 else if k == 1 then AwaitStart else if k == 2 then Sleep
                                  else if k == 3 then Lock else Query)
    {
      MovesOn(u, steps[k].answer);
      QuietStays(u, steps[k].answer);
      u := OneStep(u, steps, t, k);
    }
  }

  // One round, from the test of P1 to the next.

  /** The answers of one round that matter: the driver's at the query, the client's if it is asked, and the
      driver's at the write. */
  datatype Round = Round(room: bool, client: Answer, write: Answer)

  function RoundOf(s: State, steps: seq<Step>): Round
    requires FeederSteps(steps) && |steps| >= 6
  {
    var at := if s.stream.buffer == [] then 6 else 5;
    Round(steps[4].answer.room, steps[5].answer, if at < |steps| then steps[at].answer else steps[5].answer)
  }

  /** A client is asked exactly if the driver has room and nothing is left of the buffer. */
  predicate Asks(m: Stream, r: Round) {
    r.room && m.buffer == [] && r.client.client
  }

  /** What there is to write: the rest of the buffer or else what the client hands over. */
  function Offered(m: Stream, r: Round): seq<bv8>
    requires m.written <= |m.buffer|
  {
    if !r.room then []
    else if m.buffer != [] then m.buffer[m.written..]
    else if r.client.client then r.client.data
    else []
  }

  /** What a round makes of the stream. */
  ghost predicate RoundFed(m: Stream, r: Round, n: Stream)
    requires m.written <= |m.buffer|
  {
    var offered := Offered(m, r);
    && (offered != [] ==> r.write.taken <= |offered|)
    && n.requests == m.requests + (if Asks(m, r) then 1 else 0)
    && n.supplied == m.supplied + (if Asks(m, r) then r.client.data else [])
    && n.accepted == m.accepted + (if offered != [] then offered[..r.write.taken] else [])
    && n.writes == m.writes + (if offered != [] && r.write.taken > 0 then 1 else 0)
  }

  lemma QueryStep(s: State, answer: Answer)
    requires Quiet(s) && s.feeder.Query?
    ensures Possible(s, Feeds(answer))
    ensures FeederStep(s, answer) ==
      s.(feeder := if !answer.room then Unlock else if s.stream.buffer == [] then Ask else Write)
  {}

  lemma AskStep(s: State, answer: Answer)
    requires Quiet(s) && s.feeder.Ask?
    ensures Possible(s, Feeds(answer)) && s.stream.buffer == [] && s.stream.written == 0
    ensures
      var t, data := FeederStep(s, answer), if answer.client then answer.data else [];
      && t.feeder == (if data == [] then Unlock else Write)
      && t.stream.buffer == data && t.stream.written == 0
      && t.stream.requests == s.stream.requests + (if answer.client then 1 else 0)
      && t.stream.supplied == s.stream.supplied + data
      && t.stream.accepted == s.stream.accepted && t.stream.writes == s.stream.writes
  {}

  lemma WriteStep(s: State, answer: Answer)
    requires Quiet(s) && s.feeder.Write? && Possible(s, Feeds(answer))
    ensures
      var m, t := s.stream, FeederStep(s, answer);
      && t.feeder.Unlock? && m.written + answer.taken <= |m.buffer|
      && t.stream.accepted == m.accepted + m.buffer[m.written..][..answer.taken]
      && t.stream.requests == m.requests && t.stream.supplied == m.supplied
      && t.stream.writes == m.writes + if answer.taken > 0 then 1 else 0
  {
    var m, n := s.stream, answer.taken;
    assert m.buffer[m.written..][..n] == m.buffer[m.written..m.written + n];
    if n == 0 {
      assert m.accepted + [] == m.accepted;
    }
  }

  /** A round of the feeder, whatever the answers: a client is asked exactly if there is room and nothing left to
      write, and the driver gets exactly as much as it takes of what there is, in order. */
  lemma RoundFeeds(s: State, steps: seq<Step>, t: State)
    requires Quiet(s) && s.feeder.TestP1? && Runs(s, steps, t) && FeederSteps(steps)
    requires 6 <= |steps| <= 8 && t.feeder.TestP1?
    ensures RoundFed(s.stream, RoundOf(s, steps), t.stream) && Quiet(t) && t.status == s.status
  {
    var r, m := RoundOf(s, steps), s.stream;
    var u := ToQuery(s, steps, t);
    QueryStep(u, steps[4].answer);
    QuietStays(u, steps[4].answer);
    var v := OneStep(u, steps, t, 4);
    if v.feeder.Ask? {
      AskStep(v, steps[5].answer);
      QuietStays(v, steps[5].answer);
      var w := OneStep(v, steps, t, 5);
      if w.feeder.Write? {
        assert w.stream.buffer[w.stream.written..] == w.stream.buffer;
        WriteAndUnlock(w, steps, t, 6);
      } else {
        OnlyUnlock(w, steps, t, 6);
      }
    } else if v.feeder.Write? {
      WriteAndUnlock(v, steps, t, 5);
    } else {
      OnlyUnlock(v, steps, t, 5);
    }
  }

  lemma OnlyUnlock(s: State, steps: seq<Step>, t: State, k: nat)
    requires Quiet(s) && s.feeder.Unlock? && 5 <= k <= |steps| <= 8 && Runs(s, steps[k..], t) && FeederSteps(steps)
    requires t.feeder.TestP1?
    ensures k < |steps| && t == s.(feeder := TestP1)
  {
    assert k < |steps|;
    MovesOn(s, steps[k].answer);
    QuietStays(s, steps[k].answer);
    var u := OneStep(s, steps, t, k);
    NoSecondRound(u, steps, t, k + 1);
  }

  /** Two steps are not enough for the feeder to be back at its test. */
  lemma NoSecondRound(s: State, steps: seq<Step>, t: State, k: nat)
    requires Quiet(s) && s.feeder.TestP1? && 6 <= k <= |steps| <= 8 && Runs(s, steps[k..], t) && FeederSteps(steps)
    requires t.feeder.TestP1?
    ensures k == |steps| && t == s
  {
    if k < |steps| {
      MovesOn(s, steps[k].answer);
      QuietStays(s, steps[k].answer);
      var u := OneStep(s, steps, t, k);
      if k + 1 < |steps| {
        MovesOn(u, steps[k + 1].answer);
        var _ := OneStep(u, steps, t, k + 1);
      }
    }
  }

  lemma WriteAndUnlock(s: State, steps: seq<Step>, t: State, k: nat)
    requires Quiet(s) && s.feeder.Write? && 5 <= k <= |steps| <= 8 && Runs(s, steps[k..], t) && FeederSteps(steps)
    requires t.feeder.TestP1?
    ensures k < |steps|
    ensures
      var m, n := s.stream, steps[k].answer.taken;
      && m.written + n <= |m.buffer|
      && t.stream.accepted == m.accepted + m.buffer[m.written..][..n]
      && t.stream.requests == m.requests && t.stream.supplied == m.supplied
      && t.stream.writes == m.writes + (if n > 0 then 1 else 0)
      && Quiet(t) && t.status == s.status
  {
    assert k < |steps|;
    var u := OneStep(s, steps, t, k);
    WriteStep(s, steps[k].answer);
    QuietStays(s, steps[k].answer);
    OnlyUnlock(u, steps, t, k + 1);
  }

  // Everything supplied is fed in the end.

  /** The driver has room and takes something at every write. */
  predicate Willing(steps: seq<Step>) {
    forall i :: 0 <= i < |steps| ==> steps[i].Feeds? && steps[i].answer.room && steps[i].answer.taken > 0
  }

  /** How many steps take the feeder to the end of its next write, with something left in its buffer. */
  function ToWrite(f: Feeder): nat {
    match f
    case Write => 1
    case Query => 2
    case Lock => 3
    case Sleep => 4
    case AwaitStart => 5
    case TestP1 => 6
    case ClearP3 => 6
    case _ => 7
  }

  /** Some of the bytes `target`, which were supplied, are not yet accepted. */
  predicate Pending(s: State, target: seq<bv8>) {
    target <= s.stream.supplied && |s.stream.accepted| < |target|
  }

  lemma PendingIsBuffered(s: State, target: seq<bv8>)
    requires Quiet(s) && Pending(s, target)
    ensures s.stream.buffer != [] && !s.feeder.Ask? && !s.feeder.ClearP1? && !s.feeder.SetP2?
    ensures s.stream.accepted <= target
  {
    assert s.stream.accepted <= s.stream.supplied;
    assert s.stream.accepted == s.stream.supplied[..|s.stream.accepted|] == target[..|s.stream.accepted|];
  }

  /** A willing step brings the next write nearer, or is one and gets bytes over. */
  lemma WillingStep(s: State, answer: Answer, target: seq<bv8>)
    requires Quiet(s) && Pending(s, target) && answer.room && answer.taken > 0 && Possible(s, Feeds(answer))
    ensures
      var t := FeederStep(s, answer);
      && target <= t.stream.supplied
      && if s.feeder.Write? then |t.stream.accepted| > |s.stream.accepted|
         else t.stream.accepted == s.stream.accepted && ToWrite(t.feeder) < ToWrite(s.feeder)
  {
    PendingIsBuffered(s, target);
    if s.feeder.Write? {
      WriteStep(s, answer);
    }
  }

  /** Bytes are accepted in the order in which they are supplied. */
  lemma AcceptedAll(s: State, target: seq<bv8>)
    requires Quiet(s) && target <= s.stream.supplied && |s.stream.accepted| >= |target|
    ensures target <= s.stream.accepted
  {
    assert s.stream.accepted <= s.stream.supplied;
  }

  /** With a willing driver any bytes supplied so far are accepted after enough steps, whatever clients supply
      meanwhile. */
  lemma {:induction false} EverythingIsFed(s: State, target: seq<bv8>, steps: seq<Step>, t: State)
    requires Quiet(s) && target <= s.stream.supplied && Runs(s, steps, t) && Willing(steps)
    requires |s.stream.accepted| < |target| ==>
      |steps| >= 7 * (|target| - |s.stream.accepted| - 1) + ToWrite(s.feeder)
    ensures target <= t.stream.accepted
    decreases |steps|
  {
    if !Pending(s, target) {
      AcceptedAll(s, target);
    }
    if steps != [] {
      var answer := steps[0].answer;
      QuietStays(s, answer);
      var u := FeederStep(s, answer);
      if Pending(s, target) {
        WillingStep(s, answer, target);
      } else {
        AcceptedGrows(s, answer);
      }
      assert Willing(steps[1..]);
      EverythingIsFed(u, target, steps[1..], t);
    }
  }

  /** ... and so within seven steps for each byte yet to be accepted, from any reachable state. */
  lemma EverythingIsFedInTime(s: State, steps: seq<Step>, t: State)
    requires Reachable(s) && s.control.Idle? && s.status.start && Runs(s, steps, t) && Willing(steps)
    requires |steps| >= 7 * (|s.stream.supplied| - |s.stream.accepted|)
    ensures s.stream.supplied <= t.stream.accepted
  {
    ReachableInv(s);
    EverythingIsFed(s, s.stream.supplied, steps, t);
  }

  /** The feeder of a started device is never stuck. */
  lemma FeederGoesOn(s: State, answer: Answer)
    requires Reachable(s) && s.control.Idle? && s.status.start
    requires answer.taken <= |s.stream.buffer| - s.stream.written
    ensures Possible(s, Feeds(answer))
  {
    ReachableInv(s);
  }

  lemma AcceptedGrows(s: State, answer: Answer)
    requires Quiet(s) && Possible(s, Feeds(answer))
    ensures s.stream.accepted <= FeederStep(s, answer).stream.accepted
    ensures s.stream.supplied <= FeederStep(s, answer).stream.supplied
  {}
}
