/** The control thread's start, pause and stop calls against the thread that feeds a playback device. The
    two share only the device's status bits; every test, set, clear and wait on them is one step. */
module Handshake {
  /** The device's status bits, every one of which is written by one of the two threads or both. */
  datatype Status = Status(start: bool, pause: bool, stop: bool, p1: bool, p2: bool, p3: bool)

  datatype Call = CallStart | CallPause | CallStop

  /** Where the control thread is inside a call; the four stages from `AwaitP2` to `SetP3` are the handshake. The
      stages from `Flush` to `PauseDriver` are calls into the driver. */
  datatype Stage =
    | TestStarted
    | TestPaused
    | TestStopped
    | TestRunning
    | Flush
    | SetSource
    | Resume
    | PrePause
    | PauseDriver
    | SetP1
    | AwaitP2
    | ClearP2
    | ClearStart
    | SetP3
    | ClearOld
    | SetNew

  datatype Mode = Fresh | Started | Paused | Stopped

  /** Inside a call, `from` records the mode the device was in when it was called. */
  datatype Control = Idle | In(call: Call, from: Mode, stage: Stage)

  /** Where the feeder is. From `Sleep` to `Unlock` it is in its feed region. */
  datatype Feeder =
    | TestP1
    | ClearP1
    | SetP2
    | AwaitP3
    | ClearP3
    | AwaitStart
    | Sleep
    | Lock
    | Query
    | Ask
    | Write
    | Unlock
  {
    predicate InRegion() { Sleep? || Lock? || Query? || Ask? || Write? || Unlock? }
  }

  /** `buffer` and `written` are the feeder's current client buffer; the rest is history: how often a client
      was asked, what clients handed over, and what the driver took in how many writes. */
  datatype Stream = Stream(
    buffer: seq<bv8>, written: nat, requests: nat, supplied: seq<bv8>, accepted: seq<bv8>, writes: nat)

  /** What the control thread does to the device, tests aside. */
  datatype Act =
    | Flushes
    | SetsSource
    | Resumes
    | PrePauses
    | Pauses
    | RaisesP1
    | SeesP2
    | LowersP2
    | LowersStart
    | RaisesP3
    | Leaves(call: Call)
    | Enters(call: Call)

  /** `acts`, which is history, is everything the control thread did so far. */
  datatype State = State(status: Status, control: Control, feeder: Feeder, stream: Stream, acts: seq<Act>)

  function Opened(): State {
    State(Status(false, false, false, false, false, false), Idle, TestP1, Stream([], 0, 0, [], [], 0), [])
  }

  /** What the environment answers the feeder: whether the driver has room, whether there is a client to ask,
      what it supplies, and how many bytes a write takes (none when the driver is busy). */
  datatype Answer = Answer(room: bool, client: bool, data: seq<bv8>, taken: nat)

  datatype Step =
    | Invoke(call: Call)
    | Controls
    | Feeds(answer: Answer)

  predicate Possible(s: State, step: Step) {
    match step
    case Invoke(_) => s.control.Idle?
    case Controls => s.control.In? && (s.control.stage.AwaitP2? ==> s.status.p2)
    case Feeds(answer) =>
      && (s.feeder.AwaitP3? ==> s.status.p3)
      && (s.feeder.AwaitStart? ==> s.status.start)
      && (s.feeder.Write? ==> answer.taken <= |s.stream.buffer| - s.stream.written)
  }

  function FirstStage(call: Call): Stage {
    match call
    case CallStart => TestStarted
    case CallPause => TestStarted
    case CallStop => TestRunning
  }

  /** Drop the modes the call leaves. */
  function Leave(status: Status, call: Call): Status {
    match call
    case CallStart => status.(stop := false, pause := false)
    case CallPause => status.(start := false)
    case CallStop => status.(start := false, pause := false)
  }

  function Enter(status: Status, call: Call): Status {
    match call
    case CallStart => status.(start := true)
    case CallPause => status.(pause := true)
    case CallStop => status.(stop := true)
  }

  function ModeOf(status: Status): Mode {
    if status.start then Started else if status.pause then Paused else if status.stop then Stopped else Fresh
  }

  /** Where the control thread goes on, by the bits it tests. */
  function NextControl(status: Status, c: Control): Control
    requires c.In?
  {
    match c.stage
    case TestStarted => if status.start == c.call.CallStart? then Idle else c.(stage := TestPaused)
    case TestPaused =>
      if c.call.CallStart? then c.(stage := if status.pause then Resume else Flush)
      else if status.pause then Idle
      else c.(stage := PrePause)
    case TestRunning => if status.start || status.pause then c.(stage := TestStopped) else Idle
    case TestStopped => if status.stop then Idle else c.(stage := if status.start then SetP1 else Flush)
    case Flush => c.(stage := if c.call.CallStart? then SetSource else ClearOld)
    case SetSource => c.(stage := ClearOld)
    case Resume => c.(stage := ClearOld)
    case PrePause => c.(stage := SetP1)
    case PauseDriver => c.(stage := ClearOld)
    case SetP1 => c.(stage := AwaitP2)
    case AwaitP2 => c.(stage := ClearP2)
    case ClearP2 => c.(stage := ClearStart)
    case ClearStart => c.(stage := SetP3)
    case SetP3 => c.(stage := if c.call.CallStop? then Flush else PauseDriver)
    case ClearOld => c.(stage := SetNew)
    case SetNew => Idle
  }

  /** The bits it sets or clears. */
  function ControlBits(status: Status, c: Control): Status
    requires c.In?
  {
    match c.stage
    case SetP1 => status.(p1 := true)
    case ClearP2 => status.(p2 := false)
    case ClearStart => status.(start := false)
    case SetP3 => status.(p3 := true)
    case ClearOld => Leave(status, c.call)
    case SetNew => Enter(status, c.call)
    case _ => status
  }

  function ActsAt(c: Control): seq<Act>
    requires c.In?
  {
    match c.stage
    case Flush => [Flushes]
    case SetSource => [SetsSource]
    case Resume => [Resumes]
    case PrePause => [PrePauses]
    case PauseDriver => [Pauses]
    case SetP1 => [RaisesP1]
    case AwaitP2 => [SeesP2]
    case ClearP2 => [LowersP2]
    case ClearStart => [LowersStart]
    case SetP3 => [RaisesP3]
    case ClearOld => [Leaves(c.call)]
    case SetNew => [Enters(c.call)]
    case _ => []
  }

  function ControlStep(s: State): State
    requires s.control.In?
  {
    State(ControlBits(s.status, s.control), NextControl(s.status, s.control), s.feeder, s.stream,
          s.acts + ActsAt(s.control))
  }

  function NextFeeder(status: Status, f: Feeder, stream: Stream, answer: Answer): Feeder {
    match f
    case TestP1 => if status.p1 then ClearP1 else AwaitStart
    case ClearP1 => SetP2
    case SetP2 => AwaitP3
    case AwaitP3 => ClearP3
    case ClearP3 => AwaitStart
    case AwaitStart => Sleep
    case Sleep => Lock
    case Lock => Query
    case Query => if !answer.room then Unlock else if stream.buffer == [] then Ask else Write
    case Ask => if !answer.client || answer.data == [] then Unlock else Write
    case Write => Unlock
    case Unlock => TestP1
  }

  function FeederBits(status: Status, f: Feeder): Status {
    match f
    case ClearP1 => status.(p1 := false)
    case SetP2 => status.(p2 := true)
    case ClearP3 => status.(p3 := false)
    case _ => status
  }

  /** The client is asked, and its data, if there is any, becomes the buffer. */
  function Supply(m: Stream, data: seq<bv8>): Stream {
    var t := m.(requests := m.requests + 1);
    if data == [] then t else t.(buffer := data, supplied := m.supplied + data)
  }

  /** The driver takes the next `n` bytes of the buffer; a finished buffer is dropped. */
  function Accept(m: Stream, n: nat): Stream
    requires n <= |m.buffer| - m.written
  {
    if n == 0 then m
    else
      var t := m.(accepted := m.accepted + m.buffer[m.written..m.written + n], writes := m.writes + 1);
      if m.written + n >= |m.buffer| then t.(buffer := [], written := 0) else t.(written := m.written + n)
  }

  function NextStream(m: Stream, f: Feeder, answer: Answer): Stream
    requires f.Write? ==> answer.taken <= |m.buffer| - m.written
  {
    if f.Ask? && answer.client then Supply(m, answer.data)
    else if f.Write? then Accept(m, answer.taken)
    else m
  }

  function FeederStep(s: State, answer: Answer): State
    requires Possible(s, Feeds(answer))
  {
    State(FeederBits(s.status, s.feeder), s.control, NextFeeder(s.status, s.feeder, s.stream, answer),
          NextStream(s.stream, s.feeder, answer), s.acts)
  }

  function Take(s: State, step: Step): State
    requires Possible(s, step)
  {
    match step
    case Invoke(call) => s.(control := In(call, ModeOf(s.status), FirstStage(call)))
    case Controls => ControlStep(s)
    case Feeds(answer) => FeederStep(s, answer)
  }

  ghost predicate Runs(s: State, steps: seq<Step>, t: State)
    decreases |steps|
  {
    if steps == [] then t == s
    else Possible(s, steps[0]) && Runs(Take(s, steps[0]), steps[1..], t)
  }

  // The invariant.

  predicate Handshaking(c: Control) {
    c.In? && (c.stage.AwaitP2? || c.stage.ClearP2? || c.stage.ClearStart? || c.stage.SetP3?)
  }

  /** Of the bits start, pause and stop, exactly the one that names the mode is set. */
  predicate InMode(status: Status, m: Mode) {
    && (status.start <==> m.Started?)
    && (status.pause <==> m.Paused?)
    && (status.stop <==> m.Stopped?)
  }

  /** The documented transition table; a call that does not apply leaves the device as it was. */
  function NextMode(m: Mode, call: Call): Mode {
    match call
    case CallStart => Started
    case CallPause => if m.Started? then Paused else m
    case CallStop => if m.Started? || m.Paused? then Stopped else m
  }

  /** What the mode bits are at each stage of a call. */
  predicate ControlInv(status: Status, c: Control) {
    if c.Idle? then InMode(status, ModeOf(status))
    else
      var halfway := if c.from.Started? then Fresh else c.from;
      match c.stage
      case TestStarted => InMode(status, c.from) && !c.call.CallStop?
      case TestRunning => InMode(status, c.from) && c.call.CallStop?
      case TestPaused => InMode(status, c.from) && !c.call.CallStop? && (c.from.Started? <==> c.call.CallPause?)
      case TestStopped => InMode(status, c.from) && c.call.CallStop? && (c.from.Started? || c.from.Paused?)
      case Flush => InMode(status, halfway) && FlushApplies(c.from, c.call)
      case SetSource => InMode(status, c.from) && c.call.CallStart? && FlushApplies(c.from, c.call)
      case Resume => InMode(status, Paused) && c.call.CallStart? && c.from.Paused?
      case PrePause => InMode(status, Started) && c.call.CallPause? && c.from.Started?
      case PauseDriver => InMode(status, Fresh) && c.call.CallPause? && c.from.Started?
      case ClearOld => InMode(status, halfway) && Applies(c)
      case SetNew => InMode(status, Fresh) && Applies(c)
      case SetP3 => InMode(status, Fresh) && !c.call.CallStart? && c.from.Started?
      case _ => InMode(status, Started) && !c.call.CallStart? && c.from.Started?
  }

  /** A start flushes the driver unless it resumes; a stop flushes it; a pause does not. */
  predicate FlushApplies(from: Mode, call: Call) {
    match call
    case CallStart => from.Fresh? || from.Stopped?
    case CallPause => false
    case CallStop => from.Started? || from.Paused?
  }

  predicate Applies(c: Control)
    requires c.In?
  {
    match c.call
    case CallStart => !c.from.Started?
    case CallPause => c.from.Started?
    case CallStop => c.from.Started? || c.from.Paused?
  }

  predicate Raised(status: Status, p1: bool, p2: bool, p3: bool) {
    status.p1 == p1 && status.p2 == p2 && status.p3 == p3
  }

  /** Outside a handshake a set P3 is one the feeder has yet to consume. */
  predicate Consuming(status: Status, f: Feeder) {
    !f.ClearP1? && !f.SetP2? && (status.p3 <==> f.AwaitP3? || f.ClearP3?)
  }

  /** The feeder's half: where it is in the protocol against the control thread's stage. */
  predicate FeederInv(status: Status, c: Control, f: Feeder) {
    if !Handshaking(c) then !status.p1 && !status.p2 && Consuming(status, f)
    else if c.stage.AwaitP2? then
      || (Raised(status, true, false, f.AwaitP3? || f.ClearP3?) && !f.SetP2?)
      || (Raised(status, false, false, false) && f.SetP2?)
      || (Raised(status, false, true, false) && f.AwaitP3?)
    else if c.stage.ClearP2? then Raised(status, false, true, false) && f.AwaitP3?
    else Raised(status, false, false, false) && f.AwaitP3?
  }

  predicate Protocol(status: Status, c: Control, f: Feeder) {
    && ControlInv(status, c)
    && FeederInv(status, c, f)
    && (f.InRegion() ==> status.start)
  }

  /** Everything supplied is either accepted or still in the buffer. */
  predicate Conserved(m: Stream, f: Feeder) {
    && m.written <= |m.buffer| && m.supplied == m.accepted + m.buffer[m.written..]
    && (m.buffer != [] ==> m.written < |m.buffer|)
    && (f.Write? ==> m.buffer != [])
    && (f.Ask? ==> m.buffer == [])
  }

  predicate Inv(s: State) {
    Protocol(s.status, s.control, s.feeder) && Conserved(s.stream, s.feeder)
  }

  lemma ControlKeepsModes(status: Status, c: Control)
    requires ControlInv(status, c) && c.In?
    ensures ControlInv(ControlBits(status, c), NextControl(status, c))
    ensures NextControl(status, c).Idle? ==> InMode(ControlBits(status, c), NextMode(c.from, c.call))
  {
    if Testing(c) {
      TestsKeepModes(status, c);
    } else {
      ActsKeepModes(status, c);
    }
  }

  predicate Testing(c: Control) {
    c.In? && (c.stage.TestStarted? || c.stage.TestPaused? || c.stage.TestRunning? || c.stage.TestStopped?)
  }

  lemma TestsKeepModes(status: Status, c: Control)
    requires ControlInv(status, c) && Testing(c)
    ensures ControlBits(status, c) == status && ControlInv(status, NextControl(status, c))
    ensures NextControl(status, c).Idle? ==> InMode(status, NextMode(c.from, c.call))
  {}

  lemma ActsKeepModes(status: Status, c: Control)
    requires ControlInv(status, c) && c.In? && !Testing(c)
    ensures ControlInv(ControlBits(status, c), NextControl(status, c))
    ensures NextControl(status, c).Idle? ==> InMode(ControlBits(status, c), NextMode(c.from, c.call))
  {}

  lemma ControlKeepsProtocol(status: Status, c: Control, f: Feeder)
    requires Protocol(status, c, f) && c.In? && (c.stage.AwaitP2? ==> status.p2)
    ensures FeederInv(ControlBits(status, c), NextControl(status, c), f)
    ensures f.InRegion() ==> ControlBits(status, c).start
  {}

  lemma ControlKeepsInv(s: State)
    requires Inv(s) && Possible(s, Controls)
    ensures Inv(ControlStep(s))
    ensures ControlStep(s).control.Idle? ==> InMode(ControlStep(s).status, NextMode(s.control.from, s.control.call))
  {
    ControlKeepsModes(s.status, s.control);
    ControlKeepsProtocol(s.status, s.control, s.feeder);
  }

  lemma FeederKeepsProtocol(status: Status, c: Control, f: Feeder, stream: Stream, answer: Answer)
    requires Protocol(status, c, f) && (f.AwaitP3? ==> status.p3) && (f.AwaitStart? ==> status.start)
    ensures Protocol(FeederBits(status, f), c, NextFeeder(status, f, stream, answer))
  {}

  lemma AcceptConserves(m: Stream, n: nat)
    requires Conserved(m, Write) && n <= |m.buffer| - m.written
    ensures Conserved(Accept(m, n), Unlock)
  {
    var w := m.written;
    assert m.buffer[w..] == m.buffer[w..w + n] + m.buffer[w + n..];
  }

  lemma SupplyConserves(m: Stream, data: seq<bv8>)
    requires Conserved(m, Ask)
    ensures Conserved(Supply(m, data), if data == [] then Unlock else Write)
  {
    assert m.buffer[m.written..] == [] && m.supplied == m.accepted;
    assert data[0..] == data;
  }

  lemma OtherwiseConserves(m: Stream, f: Feeder, f': Feeder)
    requires Conserved(m, f) && (f'.Write? ==> m.buffer != []) && (f'.Ask? ==> m.buffer == [])
    ensures Conserved(m, f')
  {}

  lemma FeederKeepsStream(status: Status, f: Feeder, m: Stream, answer: Answer)
    requires Conserved(m, f) && (f.Write? ==> answer.taken <= |m.buffer| - m.written)
    ensures Conserved(NextStream(m, f, answer), NextFeeder(status, f, m, answer))
  {
    if f.Write? {
      AcceptConserves(m, answer.taken);
    } else if f.Ask? && answer.client {
      SupplyConserves(m, answer.data);
    } else {
      OtherwiseConserves(m, f, NextFeeder(status, f, m, answer));
    }
  }

  lemma FeederKeepsInv(s: State, answer: Answer)
    requires Inv(s) && Possible(s, Feeds(answer))
    ensures Inv(FeederStep(s, answer))
  {
    FeederKeepsProtocol(s.status, s.control, s.feeder, s.stream, answer);
    FeederKeepsStream(s.status, s.feeder, s.stream, answer);
  }

  lemma {:induction false} RunKeepsInv(s: State, steps: seq<Step>, t: State)
    requires Inv(s) && Runs(s, steps, t)
    ensures Inv(t)
    decreases |steps|
  {
    if steps != [] {
      if steps[0].Controls? { ControlKeepsInv(s); }
      if steps[0].Feeds? { FeederKeepsInv(s, steps[0].answer); }
      RunKeepsInv(Take(s, steps[0]), steps[1..], t);
    }
  }

  // Safety.

  ghost predicate Reachable(s: State) {
    exists steps :: Runs(Opened(), steps, s)
  }

  lemma ReachableInv(s: State)
    requires Reachable(s)
    ensures Inv(s)
  {
    var steps :| Runs(Opened(), steps, s);
    RunKeepsInv(Opened(), steps, s);
  }

  /** In every interleaving: the feeder feeds only while the device is started, the driver is flushed only
      while the feeder is outside its region, and P3 is set only for a feeder about to consume it. */
  lemma HandshakeSafety(s: State)
    requires Reachable(s)
    ensures s.feeder.InRegion() ==> s.status.start
    ensures s.control.In? && s.control.stage.Flush? ==> !s.feeder.InRegion()
    ensures s.status.p3 ==> s.feeder.AwaitP3? || s.feeder.ClearP3?
    ensures !(s.status.p1 && s.status.p2) && !(s.status.p2 && s.status.p3)
  {
    ReachableInv(s);
  }

  /** The bytes the driver accepted are always a prefix of what clients supplied; the rest is still buffered. */
  lemma StreamConserved(s: State)
    requires Reachable(s)
    ensures s.stream.written <= |s.stream.buffer|
    ensures s.stream.supplied == s.stream.accepted + s.stream.buffer[s.stream.written..]
  {
    ReachableInv(s);
  }

  // Liveness.

  /** How many more steps of its own take the feeder to raise P2. */
  function Distance(f: Feeder): nat {
    match f
    case AwaitP3 => 12
    case ClearP3 => 11
    case AwaitStart => 10
    case Sleep => 9
    case Lock => 8
    case Query => 7
    case Ask => 6
    case Write => 5
    case Unlock => 4
    case TestP1 => 3
    case ClearP1 => 2
    case SetP2 => 1
  }

  predicate Waiting(s: State) {
    s.control.In? && s.control.stage.AwaitP2? && !s.status.p2
  }

  /** No state with a pending call is stuck: either the control thread can go on, or it waits for P2 and
      the feeder can take a step, which brings P2 nearer. */
  lemma NoDeadlock(s: State, answer: Answer)
    requires Reachable(s) && s.control.In?
    ensures !Possible(s, Controls) ==> Waiting(s)
    ensures Waiting(s) && answer.taken <= |s.stream.buffer| - s.stream.written ==> Possible(s, Feeds(answer))
    ensures Waiting(s) && Possible(s, Feeds(answer)) ==>
      var t := FeederStep(s, answer);
      t.control == s.control && (!Waiting(t) || Distance(t.feeder) < Distance(s.feeder))
  {
    ReachableInv(s);
  }

  predicate FeederSteps(steps: seq<Step>) {
    forall i :: 0 <= i < |steps| ==> steps[i].Feeds?
  }

  /** Writes the feeder may still make before it notices P1. */
  function WritesLeft(f: Feeder): nat {
    if f.AwaitP3? || f.ClearP3? || f.AwaitStart? || f.Sleep? || f.Lock? || f.Query? || f.Ask? || f.Write? then 1 else 0
  }

  /** A pause or stop waits for at most twelve feeder steps, in which the feeder writes at most once. */
  lemma {:induction false} WaitIsBounded(s: State, steps: seq<Step>, t: State)
    requires Inv(s) && Waiting(s) && Runs(s, steps, t) && FeederSteps(steps)
    ensures |steps| <= Distance(s.feeder) <= 12
    ensures |steps| == Distance(s.feeder) ==> t.status.p2
    ensures t.stream.writes <= s.stream.writes + WritesLeft(s.feeder) <= s.stream.writes + 1
    decreases |steps|
  {
    if steps != [] {
      var answer := steps[0].answer;
      FeederKeepsInv(s, answer);
      var u := FeederStep(s, answer);
      assert |steps| > 1 ==> steps[1].Feeds? && steps[1..][0] == steps[1];
      if Waiting(u) {
        WaitIsBounded(u, steps[1..], t);
      }
    }
  }

  /** Once P2 is up the feeder stands still until P3, so nothing is fed between the two. */
  lemma FeederStandsStill(s: State, answer: Answer)
    requires Reachable(s) && Handshaking(s.control) && !Waiting(s)
    ensures !Possible(s, Feeds(answer))
  {
    ReachableInv(s);
  }

  /** No client is asked for data and nothing is written to the driver unless the device is started. */
  lemma {:induction false} NothingFedUnlessStarted(s: State, steps: seq<Step>, t: State)
    requires Inv(s) && Runs(s, steps, t) && !s.status.start
    requires forall i :: 0 <= i < |steps| ==> steps[i] != Invoke(CallStart)
    requires s.control.In? ==> !s.control.call.CallStart?
    ensures t.stream == s.stream && !t.status.start
    decreases |steps|
  {
    if steps != [] {
      var u := Take(s, steps[0]);
      if steps[0].Controls? { ControlKeepsInv(s); }
      if steps[0].Feeds? { FeederKeepsInv(s, steps[0].answer); }
      NothingFedUnlessStarted(u, steps[1..], t);
    }
  }
}
