/** The flag word behind the device status: set, clear and test under its lock, and the bits the start, pause
    and stop handshake uses of it. */
module FlagBits {
  import opened FlagWait
  import Handshake

  const START: bv32 := 0x04
  const PAUSE: bv32 := 0x08
  const STOP: bv32 := 0x10
  const IDLE_P1: bv32 := 0x20
  const IDLE_P2: bv32 := 0x40
  const IDLE_P3: bv32 := 0x80

  function Has(flg: bv32, bit: bv32): bool { BitTest(flg, bit, TestAny) }

  function StatusOf(flg: bv32): Handshake.Status {
    Handshake.Status(Has(flg, START), Has(flg, PAUSE), Has(flg, STOP), Has(flg, IDLE_P1), Has(flg, IDLE_P2),
      Has(flg, IDLE_P3))
  }

  function Joined(a: Handshake.Status, b: Handshake.Status): Handshake.Status {
    Handshake.Status(a.start || b.start, a.pause || b.pause, a.stop || b.stop, a.p1 || b.p1, a.p2 || b.p2, a.p3 || b.p3)
  }

  function Reduced(a: Handshake.Status, b: Handshake.Status): Handshake.Status {
    Handshake.Status(a.start && !b.start, a.pause && !b.pause, a.stop && !b.stop, a.p1 && !b.p1, a.p2 && !b.p2,
      a.p3 && !b.p3)
  }

  /** Which bit of the word is which. */
  lemma WordBits()
    ensures StatusOf(0) == Handshake.Opened().status
    ensures StatusOf(0x04) == StatusOf(0).(start := true) && StatusOf(0x08) == StatusOf(0).(pause := true)
    ensures StatusOf(0x10) == StatusOf(0).(stop := true) && StatusOf(0x20) == StatusOf(0).(p1 := true)
    ensures StatusOf(0x40) == StatusOf(0).(p2 := true) && StatusOf(0x80) == StatusOf(0).(p3 := true)
  {}

  lemma SetShows(flg: bv32, ptn: bv32, bit: bv32)
    ensures Has(flg | ptn, bit) <==> Has(flg, bit) || Has(ptn, bit)
  {
    assert (flg | ptn) & bit == (flg & bit) | (ptn & bit);
  }

  predicate StatusBit(bit: bv32) {
    bit == START || bit == PAUSE || bit == STOP || bit == IDLE_P1 || bit == IDLE_P2 || bit == IDLE_P3
  }

  lemma ClearHides(flg: bv32, ptn: bv32, bit: bv32)
    requires StatusBit(bit)
    ensures Has(flg & !ptn, bit) <==> Has(flg, bit) && !Has(ptn, bit)
  {
    assert flg & bit == 0 || flg & bit == bit;
    assert ptn & bit == 0 || ptn & bit == bit;
    assert (flg & !ptn) & bit == (flg & bit) & !(ptn & bit);
  }

  /** Setting and clearing bits of the word is setting and clearing them in the status, each for itself. */
  lemma SetStatus(flg: bv32, ptn: bv32)
    ensures StatusOf(flg | ptn) == Joined(StatusOf(flg), StatusOf(ptn))
  {
    SetShows(flg, ptn, START);
    SetShows(flg, ptn, PAUSE);
    SetShows(flg, ptn, STOP);
    SetShows(flg, ptn, IDLE_P1);
    SetShows(flg, ptn, IDLE_P2);
    SetShows(flg, ptn, IDLE_P3);
  }

  lemma ClearStatus(flg: bv32, ptn: bv32)
    ensures StatusOf(flg & !ptn) == Reduced(StatusOf(flg), StatusOf(ptn))
  {
    ClearHides(flg, ptn, START);
    ClearHides(flg, ptn, PAUSE);
    ClearHides(flg, ptn, STOP);
    ClearHides(flg, ptn, IDLE_P1);
    ClearHides(flg, ptn, IDLE_P2);
    ClearHides(flg, ptn, IDLE_P3);
  }

  /** Each constant is its own bit. */
  lemma Constants(call: Handshake.Call)
    ensures StatusOf(IDLE_P1) == Handshake.Status(false, false, false, true, false, false)
    ensures StatusOf(IDLE_P2) == Handshake.Status(false, false, false, false, true, false)
    ensures StatusOf(IDLE_P3) == Handshake.Status(false, false, false, false, false, true)
    ensures StatusOf(Entering(call)) ==
      Handshake.Enter(Handshake.Status(false, false, false, false, false, false), call)
    ensures Reduced(Handshake.Status(true, true, true, true, true, true), StatusOf(Leaving(call))) ==
      Handshake.Leave(Handshake.Status(true, true, true, true, true, true), call)
  {}

  /** Raising and lowering the idle bits of the handshake. */
  lemma IdleBits(s: Handshake.Status, bit: bv32)
    requires bit == IDLE_P1 || bit == IDLE_P2 || bit == IDLE_P3
    ensures Joined(s, StatusOf(bit)) ==
      s.(p1 := s.p1 || bit == IDLE_P1, p2 := s.p2 || bit == IDLE_P2, p3 := s.p3 || bit == IDLE_P3)
    ensures Reduced(s, StatusOf(bit)) ==
      s.(p1 := s.p1 && bit != IDLE_P1, p2 := s.p2 && bit != IDLE_P2, p3 := s.p3 && bit != IDLE_P3)
  {
    Constants(Handshake.CallStart);
  }

  lemma EnterJoins(s: Handshake.Status, e: Handshake.Status, call: Handshake.Call)
    requires e == Handshake.Enter(Handshake.Status(false, false, false, false, false, false), call)
    ensures Joined(s, e) == Handshake.Enter(s, call)
  {}

  lemma LeaveReduces(s: Handshake.Status, e: Handshake.Status, call: Handshake.Call)
    requires
      var all := Handshake.Status(true, true, true, true, true, true);
      Reduced(all, e) == Handshake.Leave(all, call)
    ensures Reduced(s, e) == Handshake.Leave(s, call)
  {}

  /** The bits a call sets and clears when it takes effect are those of its mode. */
  lemma EnterBits(s: Handshake.Status, call: Handshake.Call)
    ensures Joined(s, StatusOf(Entering(call))) == Handshake.Enter(s, call)
  {
    Constants(call);
    EnterJoins(s, StatusOf(Entering(call)), call);
  }

  lemma LeaveBits(s: Handshake.Status, call: Handshake.Call)
    ensures Reduced(s, StatusOf(Leaving(call))) == Handshake.Leave(s, call)
  {
    Constants(call);
    LeaveReduces(s, StatusOf(Leaving(call)), call);
  }

  /** The bits a call clears, and the one it sets, when it takes effect. */
  function Leaving(call: Handshake.Call): bv32 {
    match call
    case CallStart => STOP | PAUSE
    case CallPause => START
    case CallStop => START | PAUSE
  }

  function Entering(call: Handshake.Call): bv32 {
    match call
    case CallStart => START
    case CallPause => PAUSE
    case CallStop => STOP
  }

  /** The two have a status bit in common. */
  predicate Overlap(a: Handshake.Status, b: Handshake.Status) {
    || (a.start && b.start) || (a.pause && b.pause) || (a.stop && b.stop)
    || (a.p1 && b.p1) || (a.p2 && b.p2) || (a.p3 && b.p3)
  }

  /** The pattern is made of status bits only. */
  predicate StatusPattern(ptn: bv32) { ptn & 0xFFFF_FF03 == 0 }

  lemma OneStatusBit(w: bv32)
    requires StatusPattern(w)
    ensures w != 0 <==>
      Has(w, START) || Has(w, PAUSE) || Has(w, STOP) || Has(w, IDLE_P1) || Has(w, IDLE_P2) || Has(w, IDLE_P3)
  {}

  lemma BothHave(flg: bv32, ptn: bv32, bit: bv32)
    requires StatusBit(bit)
    ensures Has(flg & ptn, bit) <==> Has(flg, bit) && Has(ptn, bit)
  {
    assert flg & bit == 0 || flg & bit == bit;
    assert ptn & bit == 0 || ptn & bit == bit;
    assert (flg & ptn) & bit == (flg & bit) & (ptn & bit);
  }

  /** Testing for any bit of a status pattern is looking for a status bit in common. */
  lemma AnyStatus(flg: bv32, ptn: bv32)
    requires StatusPattern(ptn)
    ensures Has(flg, ptn) <==> Overlap(StatusOf(flg), StatusOf(ptn))
  {
    assert StatusPattern(flg & ptn);
    OneStatusBit(flg & ptn);
    BothHave(flg, ptn, START);
    BothHave(flg, ptn, PAUSE);
    BothHave(flg, ptn, STOP);
    BothHave(flg, ptn, IDLE_P1);
    BothHave(flg, ptn, IDLE_P2);
    BothHave(flg, ptn, IDLE_P3);
  }

  /** The flag, every operation under its own lock. Its contract speaks of the status alone. */
  class Flag {
    var flg: bv32

    constructor (ptn: bv32)
      ensures StatusOf(flg) == StatusOf(ptn)
    {
      flg := ptn;
    }

    /** Exactly the pattern's bits join the status. */
    method Set(ptn: bv32)
      modifies this
      ensures StatusOf(flg) == Joined(old(StatusOf(flg)), StatusOf(ptn))
    {
      SetStatus(flg, ptn);
      flg := flg | ptn;
    }

    /** Exactly the pattern's bits leave the status. */
    method Clear(ptn: bv32)
      modifies this
      ensures StatusOf(flg) == Reduced(old(StatusOf(flg)), StatusOf(ptn))
    {
      ClearStatus(flg, ptn);
      flg := flg & !ptn;
    }

    /** Whether the status has a bit of the pattern. */
    method TestsAny(ptn: bv32) returns (r: bool)
      requires StatusPattern(ptn)
      ensures r <==> Overlap(StatusOf(flg), StatusOf(ptn))
    {
      AnyStatus(flg, ptn);
      r := flg & ptn != 0;
    }
  }

  // The two threads of the handshake on the flag word: each of their steps is one of these operations.

  lemma ModePatterns(call: Handshake.Call)
    ensures StatusPattern(START) && StatusPattern(PAUSE) && StatusPattern(STOP) && StatusPattern(START | PAUSE)
    ensures StatusPattern(IDLE_P1) && StatusPattern(IDLE_P2) && StatusPattern(IDLE_P3)
    ensures StatusOf(START) == Handshake.Status(true, false, false, false, false, false)
    ensures StatusOf(PAUSE) == Handshake.Status(false, true, false, false, false, false)
    ensures StatusOf(STOP) == Handshake.Status(false, false, true, false, false, false)
    ensures StatusOf(START | PAUSE) == Handshake.Status(true, true, false, false, false, false)
    ensures StatusOf(Leaving(call)) == LeavingStatus(call)
  {}

  function LeavingStatus(call: Handshake.Call): Handshake.Status {
    match call
    case CallStart => Handshake.Status(false, true, true, false, false, false)
    case CallPause => Handshake.Status(true, false, false, false, false, false)
    case CallStop => Handshake.Status(true, true, false, false, false, false)
  }

  /** What the control thread tests at a stage, if anything. */
  method ControlTests(flag: Flag, c: Handshake.Control) returns (next: Handshake.Control)
    requires c.In?
    ensures next == Handshake.NextControl(StatusOf(flag.flg), c)
  {
    ModePatterns(c.call);
    var start, pause, stop := false, false, false;
    if c.stage.TestStarted? {
      start := flag.TestsAny(START);
    } else if c.stage.TestPaused? {
      pause := flag.TestsAny(PAUSE);
    } else if c.stage.TestRunning? {
      start := flag.TestsAny(START | PAUSE);
    } else if c.stage.TestStopped? {
      stop := flag.TestsAny(STOP);
      if !stop {
        start := flag.TestsAny(START);
      }
    }
    next := Handshake.NextControl(Handshake.Status(start, pause, stop, false, false, false), c);
  }

  /** The write a call makes when it changes mode. */
  method ChangeMode(flag: Flag, call: Handshake.Call, leave: bool)
    modifies flag
    ensures StatusOf(flag.flg) ==
      if leave then Handshake.Leave(old(StatusOf(flag.flg)), call) else Handshake.Enter(old(StatusOf(flag.flg)), call)
  {
    if leave {
      LeaveBits(StatusOf(flag.flg), call);
      flag.Clear(Leaving(call));
    } else {
      EnterBits(StatusOf(flag.flg), call);
      flag.Set(Entering(call));
    }
  }

  /** The write of any other stage. */
  method WriteBits(flag: Flag, c: Handshake.Control)
    requires c.In? && !c.stage.ClearOld? && !c.stage.SetNew? && !c.stage.ClearStart?
    modifies flag
    ensures StatusOf(flag.flg) == Handshake.ControlBits(old(StatusOf(flag.flg)), c)
  {
    match c.stage {
      case SetP1 =>
        IdleBits(StatusOf(flag.flg), IDLE_P1);
        flag.Set(IDLE_P1);
      case ClearP2 =>
        IdleBits(StatusOf(flag.flg), IDLE_P2);
        flag.Clear(IDLE_P2);
      case SetP3 =>
        IdleBits(StatusOf(flag.flg), IDLE_P3);
        flag.Set(IDLE_P3);
      case _ =>
    }
  }

  /** A step of the control thread, on the word. */
  method ControlOnWord(flag: Flag, c: Handshake.Control) returns (next: Handshake.Control)
    requires c.In?
    modifies flag
    ensures next == Handshake.NextControl(old(StatusOf(flag.flg)), c)
    ensures StatusOf(flag.flg) == Handshake.ControlBits(old(StatusOf(flag.flg)), c)
  {
    next := ControlTests(flag, c);
    if c.stage.ClearOld? || c.stage.SetNew? {
      ChangeMode(flag, c.call, c.stage.ClearOld?);
    } else if c.stage.ClearStart? {
      ChangeMode(flag, Handshake.CallPause, true);
    } else {
      WriteBits(flag, c);
    }
  }

  /** The write of a feeder's step. */
  method FeederWrites(flag: Flag, f: Handshake.Feeder)
    modifies flag
    ensures StatusOf(flag.flg) == Handshake.FeederBits(old(StatusOf(flag.flg)), f)
  {
    match f {
      case ClearP1 =>
        IdleBits(StatusOf(flag.flg), IDLE_P1);
        flag.Clear(IDLE_P1);
      case SetP2 =>
        IdleBits(StatusOf(flag.flg), IDLE_P2);
        flag.Set(IDLE_P2);
      case ClearP3 =>
        IdleBits(StatusOf(flag.flg), IDLE_P3);
        flag.Clear(IDLE_P3);
      case _ =>
    }
  }

  /** A step of the feeder, on the word. */
  method FeederOnWord(flag: Flag, f: Handshake.Feeder, stream: Handshake.Stream, answer: Handshake.Answer)
    returns (next: Handshake.Feeder)
    modifies flag
    ensures next == Handshake.NextFeeder(old(StatusOf(flag.flg)), f, stream, answer)
    ensures StatusOf(flag.flg) == Handshake.FeederBits(old(StatusOf(flag.flg)), f)
  {
    var p1 := false;
    if f.TestP1? {
      TestP1Bit(StatusOf(flag.flg));
      p1 := flag.TestsAny(IDLE_P1);
    }
    FeederWrites(flag, f);
    next := Handshake.NextFeeder(Handshake.Status(false, false, false, p1, false, false), f, stream, answer);
  }

  lemma TestP1Bit(s: Handshake.Status)
    ensures StatusPattern(IDLE_P1) && (Overlap(s, StatusOf(IDLE_P1)) <==> s.p1)
  {
    Constants(Handshake.CallStart);
  }
}
