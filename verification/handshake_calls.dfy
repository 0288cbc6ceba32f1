/** What start, pause and stop do, seen from their caller: their effects in order, the mode they end in, and that
    they end. */
module HandshakeCalls {
  import opened Handshake

  /** The order in which the control thread and the feeder step around each other. */
  function Sync(): seq<Act> { [RaisesP1, SeesP2, LowersP2, LowersStart, RaisesP3] }

  /** All that a call made in a mode does, in order. */
  function Plan(m: Mode, call: Call): seq<Act> {
    var change := [Leaves(call), Enters(call)];
    match call
    case CallStart =>
      if m.Started? then [] else if m.Paused? then [Resumes] + change else [Flushes, SetsSource] + change
    case CallPause => if m.Started? then [PrePauses] + Sync() + [Pauses] + change else []
    case CallStop =>
      if m.Started? then Sync() + [Flushes] + change else if m.Paused? then [Flushes] + change else []
  }

  function Change(call: Call): seq<Act> { [Leaves(call)] + [Enters(call)] }

  function AfterSync(call: Call): seq<Act> {
    if call.CallStop? then [Flushes] + Change(call) else [Pauses] + Change(call)
  }

  /** What is left of the handshake, by stage, and of the call after it. */
  function SyncLeft(stage: Stage, call: Call): seq<Act> {
    var p3 := [RaisesP3] + AfterSync(call);
    var start := [LowersStart] + p3;
    var p2 := [LowersP2] + start;
    var seen := [SeesP2] + p2;
    match stage
    case SetP1 => [RaisesP1] + seen
    case AwaitP2 => seen
    case ClearP2 => p2
    case ClearStart => start
    case _ => p3
  }

  /** What a call at a stage has yet to do. */
  function Remaining(c: Control): seq<Act>
    requires c.In?
  {
    match c.stage
    case Flush => [Flushes] + if c.call.CallStart? then [SetsSource] + Change(c.call) else Change(c.call)
    case SetSource => [SetsSource] + Change(c.call)
    case Resume => [Resumes] + Change(c.call)
    case PrePause => [PrePauses] + SyncLeft(SetP1, c.call)
    case PauseDriver => [Pauses] + Change(c.call)
    case ClearOld => Change(c.call)
    case SetNew => [Enters(c.call)]
    case TestStarted => Plan(c.from, c.call)
    case TestPaused => Plan(c.from, c.call)
    case TestRunning => Plan(c.from, c.call)
    case TestStopped => Plan(c.from, c.call)
    case _ => SyncLeft(c.stage, c.call)
  }

  lemma PlanUnfolds()
    ensures Plan(Paused, CallStart) == [Resumes] + Change(CallStart)
    ensures Plan(Fresh, CallStart) == [Flushes] + ([SetsSource] + Change(CallStart)) == Plan(Stopped, CallStart)
    ensures Plan(Started, CallPause) == [PrePauses] + SyncLeft(SetP1, CallPause)
    ensures Plan(Started, CallStop) == SyncLeft(SetP1, CallStop)
    ensures Plan(Paused, CallStop) == [Flushes] + Change(CallStop)
  {}

  function RemainingThen(c: Control): seq<Act> {
    if c.Idle? then [] else Remaining(c)
  }

  lemma TestsFollowPlan(status: Status, c: Control)
    requires ControlInv(status, c) && Testing(c)
    ensures Remaining(c) == RemainingThen(NextControl(status, c))
  {
    PlanUnfolds();
  }

  lemma ControlFollowsPlan(status: Status, c: Control)
    requires ControlInv(status, c) && c.In?
    ensures Remaining(c) == ActsAt(c) + RemainingThen(NextControl(status, c))
  {
    if Testing(c) {
      TestsFollowPlan(status, c);
    } else if Handshaking(c) || c.stage.SetP1? {
      SyncFollowsPlan(status, c);
    }
  }

  lemma SyncFollowsPlan(status: Status, c: Control)
    requires ControlInv(status, c) && (Handshaking(c) || (c.In? && c.stage.SetP1?))
    ensures Remaining(c) == ActsAt(c) + RemainingThen(NextControl(status, c))
  {}

  lemma ControlStepFollowsPlan(s: State)
    requires Inv(s) && s.control.In?
    ensures ControlStep(s).acts + RemainingThen(ControlStep(s).control) == s.acts + Remaining(s.control)
  {
    ControlFollowsPlan(s.status, s.control);
    Regroup(s.acts, ActsAt(s.control), RemainingThen(ControlStep(s).control));
  }

  lemma Regroup(a: seq<Act>, b: seq<Act>, c: seq<Act>)
    ensures a + b + c == a + (b + c)
  {}

  lemma {:induction false} OneCall(s: State, call: Call, from: Mode, steps: seq<Step>, t: State)
    requires Inv(s) && Runs(s, steps, t) && t.control.Idle?
    requires s.control.In? ==> s.control.call == call && s.control.from == from
    requires s.control.Idle? ==> InMode(s.status, NextMode(from, call))
    requires forall i :: 0 <= i < |steps| ==> !steps[i].Invoke?
    ensures InMode(t.status, NextMode(from, call))
    ensures t.acts == s.acts + RemainingThen(s.control)
    decreases |steps|
  {
    if steps != [] {
      if steps[0].Controls? {
        ControlKeepsInv(s);
        ControlStepFollowsPlan(s);
      } else {
        FeederKeepsInv(s, steps[0].answer);
      }
      OneCall(Take(s, steps[0]), call, from, steps[1..], t);
    }
  }

  /** However a call interleaves with the feeder, it returns in the mode the transition table names, having done
      exactly what its plan says, in that order. */
  lemma CallsFollowTheTable(s: State, m: Mode, call: Call, steps: seq<Step>, t: State)
    requires Reachable(s) && s.control.Idle? && InMode(s.status, m)
    requires Runs(Take(s, Invoke(call)), steps, t) && t.control.Idle?
    requires forall i :: 0 <= i < |steps| ==> !steps[i].Invoke?
    ensures InMode(t.status, NextMode(m, call))
    ensures t.acts == s.acts + Plan(m, call)
  {
    ReachableInv(s);
    var u := Take(s, Invoke(call));
    assert RemainingThen(u.control) == Plan(m, call);
    OneCall(u, call, m, steps, t);
  }

  function CountFlushes(acts: seq<Act>): nat {
    if acts == [] then 0 else CountFlushes(acts[..|acts| - 1]) + if acts[|acts| - 1].Flushes? then 1 else 0
  }

  lemma {:induction false} CountAppend(a: seq<Act>, b: seq<Act>)
    ensures CountFlushes(a + b) == CountFlushes(a) + CountFlushes(b)
  {
    if b == [] {
      assert a + b == a;
    } else {
      CountAppend(a, b[..|b| - 1]);
      assert (a + b)[..|a + b| - 1] == a + b[..|b| - 1];
    }
  }

  lemma {:induction false} CountFirst(acts: seq<Act>)
    requires acts != []
    ensures CountFlushes(acts) == (if acts[0].Flushes? then 1 else 0) + CountFlushes(acts[1..])
  {
    assert acts == [acts[0]] + acts[1..] && [acts[0]][..0] == [];
    CountAppend([acts[0]], acts[1..]);
    assert CountFlushes([acts[0]]) == CountFlushes([]) + if acts[0].Flushes? then 1 else 0;
  }

  lemma {:induction false} NoFlushes(acts: seq<Act>)
    requires forall i :: 0 <= i < |acts| ==> !acts[i].Flushes?
    ensures CountFlushes(acts) == 0
  {
    if acts != [] {
      NoFlushes(acts[..|acts| - 1]);
    }
  }

  lemma OneFlush(acts: seq<Act>, k: nat)
    requires k < |acts| && acts[k].Flushes? && forall i :: 0 <= i < |acts| && i != k ==> !acts[i].Flushes?
    ensures CountFlushes(acts) == 1
  {
    NoFlushes(acts[..k]);
    NoFlushes(acts[k + 1..]);
    CountFirst(acts[k..]);
    assert acts[k..][1..] == acts[k + 1..] && acts == acts[..k] + acts[k..];
    CountAppend(acts[..k], acts[k..]);
  }

  /** A call flushes the driver, once, exactly if it is a start that does not resume or a stop, and applies. */
  lemma FlushesOnceIff(s: State, m: Mode, call: Call, steps: seq<Step>, t: State)
    requires Reachable(s) && s.control.Idle? && InMode(s.status, m)
    requires Runs(Take(s, Invoke(call)), steps, t) && t.control.Idle?
    requires forall i :: 0 <= i < |steps| ==> !steps[i].Invoke?
    ensures CountFlushes(t.acts) == CountFlushes(s.acts) + if FlushApplies(m, call) then 1 else 0
  {
    CallsFollowTheTable(s, m, call, steps, t);
    CountAppend(s.acts, Plan(m, call));
    if FlushApplies(m, call) {
      OneFlush(Plan(m, call), if m.Started? then 5 else 0);
    } else {
      NoFlushes(Plan(m, call));
    }
  }

  /** How many steps of its own a call needs at most. */
  function StepsLeft(c: Control): nat {
    if c.Idle? then 0
    else
      match c.stage
      case TestStarted => 11
      case TestRunning => 11
      case TestPaused => 10
      case TestStopped => 10
      case PrePause => 9
      case SetP1 => 8
      case AwaitP2 => 7
      case ClearP2 => 6
      case ClearStart => 5
      case SetP3 => 4
      case Flush => if c.call.CallStart? then 4 else 3
      case SetSource => 3
      case Resume => 3
      case PauseDriver => 3
      case ClearOld => 2
      case SetNew => 1
  }

  lemma ControlCounts(status: Status, c: Control)
    requires ControlInv(status, c) && c.In?
    ensures StepsLeft(NextControl(status, c)) < StepsLeft(c) <= 11
  {}

  function ControlSteps(steps: seq<Step>): nat {
    if steps == [] then 0 else (if steps[0].Controls? then 1 else 0) + ControlSteps(steps[1..])
  }

  /** A call takes at most eleven steps of its own, whatever the feeder does. */
  lemma {:induction false} CallIsBounded(s: State, steps: seq<Step>, t: State)
    requires Inv(s) && Runs(s, steps, t) && forall i :: 0 <= i < |steps| ==> !steps[i].Invoke?
    ensures ControlSteps(steps) + StepsLeft(t.control) <= StepsLeft(s.control) <= 11
    decreases |steps|
  {
    if s.control.In? {
      ControlCounts(s.status, s.control);
    }
    if steps != [] {
      if steps[0].Controls? {
        ControlKeepsInv(s);
      } else {
        FeederKeepsInv(s, steps[0].answer);
      }
      CallIsBounded(Take(s, steps[0]), steps[1..], t);
    }
  }

  /** The driver is busy and no client answers. */
  function Nothing(): Answer { Answer(false, false, [], 0) }

  /** Every call can return, whatever state it is in: there are always steps that take it to its end. */
  lemma {:induction false} CallReturns(s: State) returns (steps: seq<Step>, t: State)
    requires Inv(s)
    ensures Runs(s, steps, t) && t.control.Idle? && forall i :: 0 <= i < |steps| ==> !steps[i].Invoke?
    decreases StepsLeft(s.control), if Waiting(s) then Distance(s.feeder) else 0
  {
    if s.control.Idle? {
      steps, t := [], s;
    } else {
      var step := if Waiting(s) then Feeds(Nothing()) else Controls;
      var rest;
      if Waiting(s) {
        FeederKeepsInv(s, Nothing());
      } else {
        ControlKeepsInv(s);
        ControlCounts(s.status, s.control);
      }
      rest, t := CallReturns(Take(s, step));
      steps := [step] + rest;
      assert steps[1..] == rest;
    }
  }
}
