/** Runs in which the dispatcher's weak spots show, each from a device just opened. */
module DispatchWitness {
  import opened SectionMatch
  import opened Device
  import opened Slots
  import opened Dispatch
  import opened DispatchSafety
  import opened DispatchSteps
  import opened DispatchTheorems

  // When it is not switched off it can be delivered again without being enabled again: its update
  // callback stops the channel, the channel is started, and the next matching section arrives.

  function StopSteps(c: nat): seq<Step> {
    [ByCallback(CallControlChannel(ChannelId(Section, c), false)), UpdateDone, AfterUpdate]
  }

  function StartSteps(c: nat, section: seq<bv8>): seq<Step> {
    [ByThread(CallControlChannel(ChannelId(Section, c), true)), BeginStep(c, section), ScanOne]
  }

  lemma ControlChannelResult(d: Device, c: nat, enable: bool)
    requires Owned(d) && LiveSection(d, c)
    ensures ControlChannel(d, ChannelId(Section, c), enable).0 ==
      SetChannelStatus(d, c, enable)
  {
    FindLiveSection(d, c);
  }

  ghost predicate OneShotInUpdate(s: State, section: seq<bv8>) {
    && Shaped(s) && !s.faulted && s.pc.Updating? && 0 < |section| <= MAX_SECTION_SIZE
    && var f := FilterAt(s, s.pc.slot);
    && f.life == s.pc.life && f.status == Enabled && !f.continuous && f.hasUpdate && !f.hasRequest
    && !f.crcCheck && !f.waitClose && f.shots == 1 && f.pattern.Valid() && Matches(f.pattern, Buffer(section))
    && Listed(s, s.pc.v.ch) != [] && Listed(s, s.pc.v.ch)[0] == s.pc.slot
  }

  lemma ChannelStoppedInUpdate(s: State, section: seq<bv8>, t: State)
    requires Inv(s) && OneShotInUpdate(s, section)
    requires t == s.(dev := ControlChannel(s.dev, ChannelId(Section, s.pc.v.ch), false).0)
    ensures Inv(t) && Possible(t, UpdateDone)
    ensures var u := Take(t, UpdateDone); Possible(u, AfterUpdate) && var w := Take(u, AfterUpdate);
      && Inv(w) && !w.faulted && w.pc.Idle? && LiveSection(w.dev, s.pc.v.ch)
      && Listed(w, s.pc.v.ch) == Listed(s, s.pc.v.ch) && |w.dev.filters| == |s.dev.filters|
      && FilterAt(w, s.pc.slot) == FilterAt(s, s.pc.slot).(flag := FlagDispatch, escaped := true)
  {
    var c := s.pc.v.ch;
    InvIsShaped(s);
    VisitedSlot(s);
    ControlChannelResult(s.dev, c, false);
    StepKeepsInv(s, ByCallback(CallControlChannel(ChannelId(Section, c), false)));
    InvIsShaped(t);
    StepKeepsInv(t, UpdateDone);
    var u := Take(t, UpdateDone);
    InvIsShaped(u);
    StepKeepsInv(u, AfterUpdate);
  }

  lemma ChannelStartedAgain(w: State, c: nat, i: nat, section: seq<bv8>, x: State)
    requires Inv(w) && !w.faulted && w.pc.Idle? && LiveSection(w.dev, c) && Listed(w, c) != [] && Listed(w, c)[0] == i
    requires 0 < |section| <= MAX_SECTION_SIZE && i < |w.dev.filters|
    requires var f := FilterAt(w, i);
      && f.status == Enabled && f.hasUpdate && !f.hasRequest && !f.crcCheck
      && !f.waitClose && f.pattern.Valid() && Matches(f.pattern, Buffer(section))
    requires x == w.(dev := ControlChannel(w.dev, ChannelId(Section, c), true).0)
    ensures Possible(x, BeginStep(c, section))
    ensures var y := Take(x, BeginStep(c, section)); Possible(y, ScanOne) && var z := Take(y, ScanOne);
      && z.pc == Updating(Visit(c, w.dev.sections.slots[c].life, section, false, false), i, FilterAt(w, i).life)
      && i < |z.dev.filters| && FilterAt(z, i).shots == FilterAt(w, i).shots + 1
      && FilterAt(z, i).life == FilterAt(w, i).life && FilterAt(z, i).continuous == FilterAt(w, i).continuous
      && z.log == w.log + [UpdateBegins(i, FilterAt(w, i).life, false, section)]
  {
    ControlChannelResult(w.dev, c, true);
    CallKeeps(w, CallControlChannel(ChannelId(Section, c), true));
    InvIsShaped(x);
    StepKeepsInv(x, BeginStep(c, section));
    var y := Take(x, BeginStep(c, section));
    InvIsShaped(y);
    assert Hit(FilterAt(y, i), section);
  }

  lemma RunsFirst(s: State, step: Step, rest: seq<Step>, m: State, t: State)
    requires Possible(s, step) && m == Take(s, step) && Runs(m, rest, t)
    ensures Runs(s, [step] + rest, t)
  {
    assert ([step] + rest)[1..] == rest;
  }

  lemma TwoSteps(s: State, t: State, u: State, a: Step, b: Step)
    requires Possible(s, a) && t == Take(s, a) && Possible(t, b) && u == Take(t, b)
    ensures Runs(s, [a, b], u)
  {
    assert Runs(u, [], u);
    RunsFirst(t, b, [], u, u);
    assert [b] + [] == [b] && [a] + [b] == [a, b];
    RunsFirst(s, a, [b], t, u);
  }

  lemma ThreeSteps(s: State, t: State, u: State, w: State, a: Step, b: Step, c: Step)
    requires Possible(s, a) && t == Take(s, a) && Possible(t, b) && u == Take(t, b) && Possible(u, c) && w == Take(u, c)
    ensures Runs(s, [a, b, c], w)
  {
    TwoSteps(t, u, w, b, c);
    assert [a] + [b, c] == [a, b, c];
    RunsFirst(s, a, [b, c], t, w);
  }

  lemma StopRun(s: State, section: seq<bv8>) returns (w: State)
    requires Inv(s) && OneShotInUpdate(s, section)
    ensures Runs(s, StopSteps(s.pc.v.ch), w)
    ensures Inv(w) && !w.faulted && w.pc.Idle? && LiveSection(w.dev, s.pc.v.ch)
    ensures Listed(w, s.pc.v.ch) == Listed(s, s.pc.v.ch) && |w.dev.filters| == |s.dev.filters|
    ensures FilterAt(w, s.pc.slot) == FilterAt(s, s.pc.slot).(flag := FlagDispatch, escaped := true)
  {
    var call := ByCallback(CallControlChannel(ChannelId(Section, s.pc.v.ch), false));
    var t := Take(s, call);
    ChannelStoppedInUpdate(s, section, t);
    var u := Take(t, UpdateDone);
    w := Take(u, AfterUpdate);
    ThreeSteps(s, t, u, w, call, UpdateDone, AfterUpdate);
  }

  lemma StartRun(w: State, c: nat, i: nat, section: seq<bv8>) returns (z: State)
    requires Inv(w) && !w.faulted && w.pc.Idle? && LiveSection(w.dev, c) && Listed(w, c) != [] && Listed(w, c)[0] == i
    requires 0 < |section| <= MAX_SECTION_SIZE && i < |w.dev.filters|
    requires var f := FilterAt(w, i);
      && f.status == Enabled && f.hasUpdate && !f.hasRequest && !f.crcCheck && f.shots == 1 && !f.continuous
      && !f.waitClose && f.pattern.Valid() && Matches(f.pattern, Buffer(section))
    ensures Runs(w, StartSteps(c, section), z) && ToldTwice(z, i) && z.dev.filters[i].life == FilterAt(w, i).life
  {
    InvIsShaped(w);
    var call := ByThread(CallControlChannel(ChannelId(Section, c), true));
    var x := Take(w, call);
    ChannelStartedAgain(w, c, i, section, x);
    var y := Take(x, BeginStep(c, section));
    z := Take(y, ScanOne);
    ThreeSteps(w, x, y, z, call, BeginStep(c, section), ScanOne);
  }

  /** From any such update the six steps exist, and the one-shot filter ends told twice on one enable. */
  lemma EscapedOneShotDeliveredAgain(s: State, section: seq<bv8>) returns (w: State, z: State)
    requires Inv(s) && OneShotInUpdate(s, section)
    ensures Runs(s, StopSteps(s.pc.v.ch), w) && Runs(w, StartSteps(s.pc.v.ch, section), z)
    ensures ToldTwice(z, s.pc.slot) && z.dev.filters[s.pc.slot].life == s.pc.life
  {
    w := StopRun(s, section);
    z := StartRun(w, s.pc.v.ch, s.pc.slot, section);
  }

  /** Slot `i` holds a one-shot filter that was told of two sections since it was enabled. */
  ghost predicate ToldTwice(s: State, i: nat) {
    && i < |s.dev.filters| && s.dev.filters[i].shots == 2 && !s.dev.filters[i].continuous
    && s.pc.Updating? && s.pc.slot == i
  }

  // Devices with one section channel and at most one filter, both in slot 0.

  function FirstId(): nat { ChannelId(Section, 0) }

  function Dev(ch: Channel, f: Filter): Device {
    var d := Opened();
    d.(sections := Pool(d.sections.slots[0 := ch], [0]), filters := d.filters[0 := f])
  }

  function Alone(ch: Channel, f: Filter, pc: Pc, log: seq<Event>, waiting: map<nat, Waiter>): State {
    State(Dev(ch, f), pc, log, waiting, map[], false, 0)
  }

  lemma FirstChannel()
    ensures AllocateChannel(Opened(), TypeCode(Section)).0 ==
      Dev(Channel(FirstId(), Disabled, [], 0, Blank, 0), BlankFilter(0))
  {
    var d := Opened();
    assert FirstFreeChannel(d.sections.slots) == Some(0);
    assert d.filters[0 := BlankFilter(0)] == d.filters;
  }

  lemma DevFinds(ch: Channel, f: Filter)
    requires ch.id == FirstId()
    ensures TypeOfCode(IdType(FirstId())) == Some(Section) && FindChannel(Dev(ch, f).sections, FirstId()) == Some(0)
    ensures |Dev(ch, f).filters| == MAX_FILTERS && Dev(ch, f).filters[0] == f && Dev(ch, f).sections.slots[0] == ch
  {
    IdDecodes(Section, 0);
    assert ListedWithId(Dev(ch, f).sections, 0, FirstId());
  }

  lemma DevAllocatesFilter(ch: Channel, f: Filter)
    requires ch.id == FirstId() && !f.Live()
    ensures AllocateFilter(Dev(ch, f), FirstId()).0 ==
      Dev(ch.(filters := ch.filters + [0], fltCnt := ch.fltCnt + 1), f.(id := 0, status := Disabled, owner := 0))
  {
    DevFinds(ch, f);
    assert FirstFreeFilter(Dev(ch, f).filters) == Some(0);
  }

  lemma DevSets(ch: Channel, f: Filter, setting: Setting)
    requires f.Live() && f.id == 0 && (setting.SetPattern? ==> setting.pattern.Valid())
    ensures SetFilter(Dev(ch, f), 0, setting).0 == Dev(ch, Apply(f, setting))
    ensures FindFilter(Dev(ch, f).filters, 0) == Some(0)
  {
    var d := Dev(ch, f);
    assert d.filters[0] == f && FindFilter(d.filters, 0) == Some(0);
    assert d.filters[0 := Apply(f, setting)] == Dev(ch, Apply(f, setting)).filters;
  }

  lemma DevControls(ch: Channel, f: Filter, enable: bool)
    requires ch.id == FirstId()
    ensures ControlChannel(Dev(ch, f), FirstId(), enable).0 ==
      Dev(ch.(status := if enable then Enabled else Disabled), f)
  {
    DevFinds(ch, f);
  }

  lemma DevFrees(ch: Channel, f: Filter)
    requires f.Live() && f.id == 0 && f.owner == 0
    ensures FreeFilter(Dev(ch, f), 0).0 ==
      Dev(ch.(filters := Remove(ch.filters, 0), fltCnt := ch.fltCnt - 1), f.Wiped())
    ensures UnlinkFilter(Dev(ch, f), 0) == FreeFilter(Dev(ch, f), 0).0
  {
    var d := Dev(ch, f);
    assert d.filters[0] == f && FindFilter(d.filters, 0) == Some(0);
  }

  lemma DevRewrites(
    ch: Channel, f: Filter, pc: Pc, log: seq<Event>, waiting: map<nat, Waiter>, g: Filter, session: Session)
    ensures WithFilter(Alone(ch, f, pc, log, waiting), 0, g) == Alone(ch, g, pc, log, waiting)
    ensures WithSession(Alone(ch, f, pc, log, waiting), 0, session) ==
      Alone(ch.(session := session), f, pc, log, waiting)
  {
    assert Dev(ch, f).filters[0 := g] == Dev(ch, g).filters;
    assert Dev(ch, f).sections.slots[0 := ch.(session := session)] == Dev(ch.(session := session), f).sections.slots;
  }

  // States a device just opened can get into.

  ghost predicate Reached(s: State) {
    exists steps :: Runs(Initial(), steps, s)
  }

  lemma {:induction false} Then(s: State, steps: seq<Step>, t: State, step: Step)
    requires Runs(s, steps, t) && Possible(t, step)
    ensures Runs(s, steps + [step], Take(t, step))
    decreases |steps|
  {
    if steps == [] {
      var u := Take(t, step);
      assert ([step])[1..] == [] && Runs(u, [], u);
      assert steps + [step] == [step];
    } else {
      Then(Take(s, steps[0]), steps[1..], t, step);
      assert (steps + [step])[1..] == steps[1..] + [step];
    }
  }

  lemma ReachedThen(s: State, step: Step, t: State)
    requires Reached(s) && Possible(s, step) && Take(s, step) == t
    ensures Reached(t)
  {
    var steps :| Runs(Initial(), steps, s);
    Then(Initial(), steps, s, step);
  }

  lemma {:induction false} ReachedBy(s: State, steps: seq<Step>, t: State)
    requires Reached(s) && Runs(s, steps, t)
    ensures Reached(t)
    decreases |steps|
  {
    if steps != [] {
      ReachedThen(s, steps[0], Take(s, steps[0]));
      ReachedBy(Take(s, steps[0]), steps[1..], t);
    }
  }

  lemma ReachedInv(s: State)
    requires Reached(s)
    ensures Inv(s)
  {
    var steps :| Runs(Initial(), steps, s);
    InitialInv();
    RunKeepsInv(Initial(), steps, s);
  }

  /** A call by another thread while no dispatch is going on. */
  lemma IdleCall(ch: Channel, f: Filter, log: seq<Event>, call: Call, ch': Channel, f': Filter)
    requires Reached(Alone(ch, f, Idle, log, map[])) && !call.CallFreeFilter?
    requires Perform(Dev(ch, f), call).0 == Dev(ch', f')
    ensures Reached(Alone(ch', f', Idle, log, map[]))
  {
    ReachedThen(Alone(ch, f, Idle, log, map[]), ByThread(call), Alone(ch', f', Idle, log, map[]));
  }

  function Chan(status: Status, filters: seq<nat>, session: Session): Channel {
    Channel(FirstId(), status, filters, |filters|, session, 0)
  }

  function Allocated(): Filter { BlankFilter(0).(id := 0, status := Disabled, owner := 0) }

  function Armed(): Filter { Allocated().(hasUpdate := true, status := Enabled) }

  lemma ReachedChannel()
    ensures Reached(Alone(Chan(Disabled, [], Blank), BlankFilter(0), Idle, [], map[]))
  {
    FirstChannel();
    assert Runs(Initial(), [], Initial());
    ReachedThen(Initial(), ByThread(CallAllocateChannel(TypeCode(Section))),
      Alone(Chan(Disabled, [], Blank), BlankFilter(0), Idle, [], map[]));
  }

  /** A channel and a filter are allocated. */
  lemma ReachedAllocated()
    ensures Reached(Alone(Chan(Disabled, [0], Blank), Allocated(), Idle, [], map[]))
  {
    var c, b := Chan(Disabled, [], Blank), BlankFilter(0);
    ReachedChannel();
    DevAllocatesFilter(c, b);
    assert c.filters + [0] == [0];
    IdleCall(c, b, [], CallAllocateFilter(FirstId()), Chan(Disabled, [0], Blank), Allocated());
  }

  /** The filter has an update callback and both are enabled. */
  lemma ReachedArmed()
    ensures Reached(Alone(Chan(Enabled, [0], Blank), Armed(), Idle, [], map[]))
  {
    var c, f := Chan(Disabled, [0], Blank), Allocated();
    var g := f.(hasUpdate := true);
    ReachedAllocated();
    DevSets(c, f, SetCallbacks(false, true));
    IdleCall(c, f, [], CallSetFilter(0, SetCallbacks(false, true)), c, g);
    DevSets(c, g, Control(true));
    IdleCall(c, g, [], CallSetFilter(0, Control(true)), c, Armed());
    DevControls(c, Armed(), true);
    IdleCall(c, Armed(), [], CallControlChannel(FirstId(), true), Chan(Enabled, [0], Blank), Armed());
  }

  /** A section arrives; a filter without conditions that is enabled is told of it. */
  ghost predicate Tellable(f: Filter) {
    && f.status == Enabled && f.hasUpdate && !f.hasRequest && !f.crcCheck && !f.waitClose && f.pattern == BlankPattern()
    && f.id == 0 && f.owner == 0
  }

  function Marked(f: Filter): Filter { f.(access := false, delivered := 0, halted := 0) }

  function Fetched(ch: Channel, section: seq<bv8>): Visit { Visit(0, ch.life, section, false, false) }

  lemma BlankMatches(section: seq<bv8>)
    ensures Matches(BlankPattern(), Buffer(section))
  {}

  lemma ReachedScan(ch: Channel, f: Filter, log: seq<Event>, section: seq<bv8>)
    requires Reached(Alone(ch, f, Idle, log, map[])) && ch.status == Enabled && ch.filters == [0]
    requires 0 < |section| <= MAX_SECTION_SIZE
    ensures Reached(Alone(ch, Marked(f), Scan(Fetched(ch, section), Some(0)), log, map[]))
  {
    var s := Alone(ch, f, Idle, log, map[]);
    assert Begin(s, 0, section).dev.filters == Dev(ch, Marked(f)).filters;
    ReachedThen(s, BeginStep(0, section), Alone(ch, Marked(f), Scan(Fetched(ch, section), Some(0)), log, map[]));
  }

  function Told(f: Filter): Filter { Telling(Marked(f)) }

  lemma ReachedUpdate(ch: Channel, f: Filter, log: seq<Event>, section: seq<bv8>)
    requires Reached(Alone(ch, f, Idle, log, map[])) && ch.status == Enabled && ch.filters == [0]
    requires 0 < |section| <= MAX_SECTION_SIZE
    requires Tellable(f)
    ensures
      var pc := Updating(Fetched(ch, section), 0, f.life);
      Reached(Alone(ch.(session := Stamped), Told(f), pc, log + [UpdateBegins(0, f.life, false, section)], map[]))
  {
    ReachedScan(ch, f, log, section);
    BlankMatches(section);
    var v := Fetched(ch, section);
    var pc := Scan(v, Some(0));
    var s := Alone(ch, Marked(f), pc, log, map[]);
    DevRewrites(ch, Marked(f), pc, log, map[], Told(f), Stamped);
    DevRewrites(ch, Told(f), pc, log, map[], Told(f), Stamped);
    assert FilterAt(s, 0) == Marked(f) && Hit(Marked(f), section);
    var log' := log + [UpdateBegins(0, f.life, false, section)];
    ReachedThen(s, ScanOne, Alone(ch.(session := Stamped), Told(f), Updating(v, 0, f.life), log', map[]));
  }

  function InUpdate(section: seq<bv8>): State {
    var ch := Chan(Enabled, [0], Stamped);
    Alone(ch, Told(Armed()), Updating(Fetched(ch, section), 0, 0), [UpdateBegins(0, 0, false, section)], map[])
  }

  lemma ReachedInUpdate(section: seq<bv8>)
    requires 0 < |section| <= MAX_SECTION_SIZE
    ensures Reached(InUpdate(section))
  {
    ReachedArmed();
    ReachedUpdate(Chan(Enabled, [0], Blank), Armed(), [], section);
    assert [] + [UpdateBegins(0, 0, false, section)] == [UpdateBegins(0, 0, false, section)];
  }

  lemma InUpdateIsOneShot(section: seq<bv8>)
    requires 0 < |section| <= MAX_SECTION_SIZE
    ensures OneShotInUpdate(InUpdate(section), section)
  {
    var s := InUpdate(section);
    BlankMatches(section);
    assert FilterAt(s, 0) == Told(Armed()) && Listed(s, 0) == [0];
  }

  /** The escape happens: the update callback stops the channel, and a one-shot filter is told again. */
  lemma StoppedChannelToldTwice(section: seq<bv8>) returns (z: State)
    requires 0 < |section| <= MAX_SECTION_SIZE
    ensures Reached(z) && ToldTwice(z, 0)
  {
    ReachedInUpdate(section);
    ReachedInv(InUpdate(section));
    InUpdateIsOneShot(section);
    var w;
    w, z := EscapedOneShotDeliveredAgain(InUpdate(section), section);
    ReachedBy(InUpdate(section), StopSteps(0), w);
    ReachedBy(w, StartSteps(0, section), z);
  }

  // The other escape: the filter is continuous while its update returns and one-shot again afterwards.

  lemma ReachedFinished(section: seq<bv8>)
    requires 0 < |section| <= MAX_SECTION_SIZE
    ensures
      var f := Apply(Told(Armed()), SetPattern(BlankPattern(), true)).(flag := FlagDispatch, access := true);
      Reached(Alone(Chan(Enabled, [0], Cleared), f, Idle, [UpdateBegins(0, 0, false, section)], map[]))
  {
    var c, log, set_ := Chan(Enabled, [0], Stamped), OneUpdate(section), SetPattern(BlankPattern(), true);
    var v := Fetched(c, section);
    var f := Apply(Told(Armed()), set_);
    var g := f.(flag := FlagDispatch);
    ReachedInUpdate(section);
    DevSets(c, Told(Armed()), set_);
    var s1 := Alone(c, f, Updating(v, 0, 0), log, map[]);
    ReachedThen(InUpdate(section), ByCallback(CallSetFilter(0, set_)), s1);
    DevRewrites(c, f, Updating(v, 0, 0), log, map[], g, Stamped);
    var s2 := Alone(c, g, Updated(v, 0, 0), log, map[]);
    ReachedThen(s1, UpdateDone, s2);
    FinishedState(section, g);
  }

  lemma FinishedState(section: seq<bv8>, g: Filter)
    requires
      var c := Chan(Enabled, [0], Stamped);
      Reached(Alone(c, g, Updated(Fetched(c, section), 0, 0), [UpdateBegins(0, 0, false, section)], map[]))
    requires g.status == Enabled && g.continuous && g.session == Stamped && g.life == 0
    ensures Reached(Alone(Chan(Enabled, [0], Cleared), g.(access := true), Idle, OneUpdate(section), map[]))
  {
    var c, d, log := Chan(Enabled, [0], Stamped), Chan(Enabled, [0], Cleared), [UpdateBegins(0, 0, false, section)];
    var v := Fetched(c, section);
    var h := g.(access := true);
    var s, t := Alone(c, g, Updated(v, 0, 0), log, map[]), Alone(d, h, Scan(v, None), log, map[]);
    DevRewrites(c, g, s.pc, log, map[], h, Cleared);
    DevRewrites(d, g, s.pc, log, map[], h, Cleared);
    assert FilterAt(s, 0) == g && s.dev.sections.slots[0] == c && Listed(s, 0) == [0];
    assert NextAfter([0], 0) == None;
    assert Take(s, AfterUpdate) == t;
    ReachedThen(s, AfterUpdate, t);
    ReachedThen(t, ScanOne, Alone(d, h, Idle, log, map[]));
  }

  /** With the channel running all along, a filter that is one-shot whenever it is told is told twice. */
  lemma ContinuousMeanwhileToldTwice(section: seq<bv8>) returns (z: State)
    requires 0 < |section| <= MAX_SECTION_SIZE
    ensures Reached(z) && ToldTwice(z, 0) && |z.dev.sections.slots| > 0 && z.dev.sections.slots[0].status == Enabled
  {
    var c, log := Chan(Enabled, [0], Cleared), [UpdateBegins(0, 0, false, section)];
    var f := Apply(Told(Armed()), SetPattern(BlankPattern(), true)).(flag := FlagDispatch, access := true);
    var g := Apply(f, SetPattern(BlankPattern(), false));
    ReachedFinished(section);
    DevSets(c, f, SetPattern(BlankPattern(), false));
    IdleCall(c, f, log, CallSetFilter(0, SetPattern(BlankPattern(), false)), c, g);
    ReachedUpdate(c, g, log, section);
    var log' := log + [UpdateBegins(0, 0, false, section)];
    z := Alone(c.(session := Stamped), Told(g), Updating(Fetched(c, section), 0, 0), log', map[]);
    assert z.dev.filters[0] == Told(g);
  }

  // A free call that waits, and a slot that does not stay the same meanwhile.

  function UpdatePc(section: seq<bv8>): Pc { Updating(Fetched(Chan(Enabled, [0], Stamped), section), 0, 0) }

  function OneUpdate(section: seq<bv8>): seq<Event> { [UpdateBegins(0, 0, false, section)] }

  lemma ReachedWaiting(section: seq<bv8>)
    requires 0 < |section| <= MAX_SECTION_SIZE
    ensures Reached(Alone(Chan(Enabled, [0], Stamped), Told(Armed()).(waitClose := true), UpdatePc(section),
      OneUpdate(section), map[1 := Waiter(0, 0)]))
  {
    var c, f := Chan(Enabled, [0], Stamped), Told(Armed());
    var g := f.(waitClose := true);
    ReachedInUpdate(section);
    DevSets(c, f, Control(true));
    DevRewrites(c, f, UpdatePc(section), OneUpdate(section), map[], g, Stamped);
    assert InUpdate(section).dev.filters[0] == f;
    assert map[][1 := Waiter(0, 0)] == map[1 := Waiter(0, 0)];
    ReachedThen(InUpdate(section), FreeBegins(1, 0),
      Alone(c, g, UpdatePc(section), OneUpdate(section), map[1 := Waiter(0, 0)]));
  }

  /** Thread 1 waits to free the filter, whose callback then frees it itself. */
  lemma ReachedFreedMeanwhile(section: seq<bv8>)
    requires 0 < |section| <= MAX_SECTION_SIZE
    ensures Reached(Alone(Chan(Enabled, [], Stamped), BlankFilter(1), UpdatePc(section), OneUpdate(section),
      map[1 := Waiter(0, 0)]))
  {
    var c, g := Chan(Enabled, [0], Stamped), Told(Armed()).(waitClose := true);
    ReachedWaiting(section);
    DevFrees(c, g);
    assert Remove([0], 0) == [];
    ReachedThen(Alone(c, g, UpdatePc(section), OneUpdate(section), map[1 := Waiter(0, 0)]),
                ByCallback(CallFreeFilter(0)),
                Alone(Chan(Enabled, [], Stamped), BlankFilter(1), UpdatePc(section), OneUpdate(section),
                  map[1 := Waiter(0, 0)]));
  }

  /** Its next look finds the slot free and follows a null pointer. */
  lemma RetryOnFreedSlotFaults(section: seq<bv8>) returns (z: State)
    requires 0 < |section| <= MAX_SECTION_SIZE
    ensures Reached(z) && z.faulted
  {
    var e := Chan(Enabled, [], Stamped);
    var s := Alone(e, BlankFilter(1), UpdatePc(section), OneUpdate(section), map[1 := Waiter(0, 0)]);
    ReachedFreedMeanwhile(section);
    assert s.dev.filters[0] == BlankFilter(1);
    z := s.(faulted := true);
    ReachedThen(s, FreeRetries(1), z);
  }

  /** If the slot was allocated again, its next look frees a filter nobody asked to free. */
  lemma RetryFreesAnotherFilter(section: seq<bv8>) returns (s: State)
    requires 0 < |section| <= MAX_SECTION_SIZE
    ensures Reached(s) && Possible(s, FreeRetries(1)) && s.waiting[1] == Waiter(0, 0)
    ensures s.dev.filters[0].Live() && s.dev.filters[0].life == 1
    ensures var t := Take(s, FreeRetries(1)); Reached(t) && |t.dev.filters| > 0 && t.dev.filters[0] == BlankFilter(2)
  {
    var d := Chan(Enabled, [0], Stamped);
    var f := BlankFilter(1).(id := 0, status := Disabled, owner := 0);
    s := ReachedReallocated(section);
    DevFrees(d, f);
    assert s.dev.filters[0] == f;
    ReachedThen(s, FreeRetries(1), Take(s, FreeRetries(1)));
  }

  lemma ReachedReallocated(section: seq<bv8>) returns (s: State)
    requires 0 < |section| <= MAX_SECTION_SIZE
    ensures s == Alone(Chan(Enabled, [0], Stamped), BlankFilter(1).(id := 0, status := Disabled, owner := 0),
      UpdatePc(section), OneUpdate(section), map[1 := Waiter(0, 0)])
    ensures Reached(s)
  {
    var e := Chan(Enabled, [], Stamped);
    s := Alone(Chan(Enabled, [0], Stamped), BlankFilter(1).(id := 0, status := Disabled, owner := 0), UpdatePc(section),
      OneUpdate(section), map[1 := Waiter(0, 0)]);
    ReachedFreedMeanwhile(section);
    DevAllocatesFilter(e, BlankFilter(1));
    assert e.filters + [0] == [0];
    ReachedThen(Alone(e, BlankFilter(1), UpdatePc(section), OneUpdate(section), map[1 := Waiter(0, 0)]),
      ByThread(CallAllocateFilter(FirstId())), s);
  }

  // A stamp written through the head of the list.

  /** The callback frees its own filter, the only one; the walk goes on at the list's head. */
  lemma FreedInCallbackStrays(section: seq<bv8>) returns (z: State)
    requires 0 < |section| <= MAX_SECTION_SIZE
    ensures Reached(z) && z.stray == 1
  {
    var c, e, f := Chan(Enabled, [0], Stamped), Chan(Enabled, [], Stamped), Told(Armed());
    ReachedInUpdate(section);
    DevFrees(c, f);
    assert Remove([0], 0) == [];
    ReachedThen(InUpdate(section), ByCallback(CallFreeFilter(0)),
      Alone(e, BlankFilter(1), UpdatePc(section), OneUpdate(section), map[]));
    z := ReachedStray(e, BlankFilter(1), section);
  }

  /** The callback stops its own filter, the last one. */
  lemma StoppedInCallbackStrays(section: seq<bv8>) returns (z: State)
    requires 0 < |section| <= MAX_SECTION_SIZE
    ensures Reached(z) && z.stray == 1
  {
    var c, f := Chan(Enabled, [0], Stamped), Told(Armed());
    ReachedInUpdate(section);
    DevSets(c, f, Control(false));
    ReachedThen(InUpdate(section), ByCallback(CallSetFilter(0, Control(false))),
                Alone(c, f.(status := Disabled), UpdatePc(section), OneUpdate(section), map[]));
    z := ReachedStray(c, f.(status := Disabled), section);
  }

  lemma ReachedStray(c: Channel, f: Filter, section: seq<bv8>) returns (z: State)
    requires Reached(Alone(c, f, UpdatePc(section), OneUpdate(section), map[]))
    requires c.status == Enabled && c.session == Stamped
    requires
      || (f.session == Blank && c.filters == [])
      || (f.session == Stamped && f.status == Disabled && c.filters == [0])
    ensures Reached(z) && z.stray == 1
  {
    var s := Alone(c, f, UpdatePc(section), OneUpdate(section), map[]);
    var g := f.(flag := FlagDispatch);
    DevRewrites(c, f, s.pc, OneUpdate(section), map[], g, Stamped);
    var t := Alone(c, g, Updated(s.pc.v, 0, 0), OneUpdate(section), map[]);
    assert FilterAt(s, 0) == f;
    ReachedThen(s, UpdateDone, t);
    ReachedInv(t);
    HeadComesNext(c, g, section);
    StrayAfterUpdate(t);
    z := Take(t, AfterUpdate);
    ReachedThen(t, AfterUpdate, z);
  }

  lemma HeadComesNext(c: Channel, f: Filter, section: seq<bv8>)
    requires c.status == Enabled && c.session == Stamped
    requires
      || (f.session == Blank && c.filters == [])
      || (f.session == Stamped && f.status == Disabled && c.filters == [0])
    ensures
      var t := Alone(c, f, Updated(UpdatePc(section).v, 0, 0), OneUpdate(section), map[]);
      Shaped(t) && ResumesAtHead(t)
  {
    var t := Alone(c, f, Updated(UpdatePc(section).v, 0, 0), OneUpdate(section), map[]);
    assert FilterAt(t, 0) == f && t.dev.sections.slots[0] == c && Listed(t, 0) == c.filters;
    assert NextAfter([0], 0) == None;
  }

  // A start or stop whose channel does not stay in its slot.

  /** Thread 1 starts or stops the channel, before or after its test. */
  function Controlling(d: Device, enable: bool, tested: bool): State {
    State(d, Idle, [], map[], map[1 := Controller(0, 0, enable, tested)], false, 0)
  }

  function Bare(): Device { Dev(Chan(Disabled, [], Blank), BlankFilter(0)) }

  /** The device after its channel was freed. */
  function Vacated(): Device { Bare().(sections := Pool(Bare().sections.slots[0 := BlankChannel(1)], [])) }

  /** ... and after another one took its slot. */
  function Retaken(): Device { Dev(Chan(Disabled, [], Blank).(life := 1), BlankFilter(0)) }

  lemma BareCleared()
    ensures FreeFilterAll(Bare(), FirstId()).0 == Bare()
  {
    DevFinds(Chan(Disabled, [], Blank), BlankFilter(0));
    var e := FreeFilterAll(Bare(), FirstId()).0;
    assert e.filters == Bare().filters && e.sections.slots == Bare().sections.slots;
  }

  lemma BareFreed()
    ensures FreeChannel(Bare(), FirstId()).0 == Vacated()
  {
    DevFinds(Chan(Disabled, [], Blank), BlankFilter(0));
    BareCleared();
    assert Remove([0], 0) == [];
  }

  lemma VacatedAllocates()
    ensures AllocateChannel(Vacated(), TypeCode(Section)).0 == Retaken()
  {
    assert FirstFreeChannel(Vacated().sections.slots) == Some(0);
    assert [] + [0] == [0];
    assert Vacated().sections.slots[0 := Chan(Disabled, [], Blank).(life := 1)] == Retaken().sections.slots;
  }

  lemma ReachedFound(enable: bool)
    ensures Reached(Controlling(Bare(), enable, false))
  {
    ReachedChannel();
    DevFinds(Chan(Disabled, [], Blank), BlankFilter(0));
    assert map[][1 := Controller(0, 0, enable, false)] == map[1 := Controller(0, 0, enable, false)];
    ReachedThen(Alone(Chan(Disabled, [], Blank), BlankFilter(0), Idle, [], map[]), ControlFinds(1, FirstId(), enable),
                Controlling(Bare(), enable, false));
  }

  lemma ReachedTested(d: Device, enable: bool)
    requires Reached(Controlling(d, enable, false)) && 0 < |d.sections.slots|
    requires GoesOn(d.sections.slots[0], enable, true)
    ensures Reached(Controlling(d, enable, true))
  {
    assert map[1 := Controller(0, 0, enable, false)][1 := Controller(0, 0, enable, true)] ==
      map[1 := Controller(0, 0, enable, true)];
    ReachedThen(Controlling(d, enable, false), ControlTests(1, true), Controlling(d, enable, true));
  }

  lemma ReachedVacated(enable: bool, tested: bool)
    requires Reached(Controlling(Bare(), enable, tested))
    ensures Reached(Controlling(Vacated(), enable, tested))
  {
    BareFreed();
    ReachedThen(Controlling(Bare(), enable, tested), ByThread(CallFreeChannel(FirstId())),
      Controlling(Vacated(), enable, tested));
  }

  lemma ActOnVacatedFaults(enable: bool)
    requires Reached(Controlling(Vacated(), enable, true))
    ensures Reached(Controlling(Vacated(), enable, true).(faulted := true))
  {
    assert !Vacated().sections.slots[0].Live();
    ReachedThen(Controlling(Vacated(), enable, true), ControlActs(1),
      Controlling(Vacated(), enable, true).(faulted := true));
  }

  /** A start whose channel is freed after the test acts on a slot that is free. */
  lemma StartOnFreedSlotFaults() returns (z: State)
    ensures Reached(z) && z.faulted
  {
    ReachedFound(true);
    assert Bare().sections.slots[0] == Chan(Disabled, [], Blank);
    ReachedTested(Bare(), true);
    ReachedVacated(true, true);
    ActOnVacatedFaults(true);
    z := Controlling(Vacated(), true, true).(faulted := true);
  }

  /** A stop does so even if the channel is freed before the test. */
  lemma StopOnFreedSlotFaults() returns (z: State)
    ensures Reached(z) && z.faulted
  {
    ReachedFound(false);
    ReachedVacated(false, false);
    assert Vacated().sections.slots[0] == BlankChannel(1);
    ReachedTested(Vacated(), false);
    ActOnVacatedFaults(false);
    z := Controlling(Vacated(), false, true).(faulted := true);
  }

  /** If another channel took the slot meanwhile, the start enables that one. */
  lemma StartEnablesAnotherChannel() returns (s: State)
    ensures Reached(s) && Possible(s, ControlActs(1)) && s.controlling[1] == Controller(0, 0, true, true)
    ensures 0 < |s.dev.sections.slots| && s.dev.sections.slots[0] == Chan(Disabled, [], Blank).(life := 1)
    ensures var t := Take(s, ControlActs(1));
      && Reached(t) && !t.faulted
      && 0 < |t.dev.sections.slots| && t.dev.sections.slots[0] == Chan(Enabled, [], Blank).(life := 1)
  {
    ReachedFound(true);
    assert Bare().sections.slots[0] == Chan(Disabled, [], Blank);
    ReachedTested(Bare(), true);
    ReachedVacated(true, true);
    VacatedAllocates();
    s := Controlling(Retaken(), true, true);
    ReachedThen(Controlling(Vacated(), true, true), ByThread(CallAllocateChannel(TypeCode(Section))), s);
    assert s.dev.sections.slots[0] == Chan(Disabled, [], Blank).(life := 1);
    ReachedThen(s, ControlActs(1), Take(s, ControlActs(1)));
  }

  // The second half of a channel free.

  function HalvesRun(): seq<Step> {
    [ByThread(CallAllocateChannel(TypeCode(Section)))] +
    [ByThread(CallFreeFilterAll(FirstId())), ByThread(CallAllocateFilter(FirstId())), DropsChannel(FirstId())]
  }

  function WithoutFilter(): State { Alone(Chan(Disabled, [], Blank), BlankFilter(0), Idle, [], map[]) }

  function WithOneFilter(): State { Alone(Chan(Disabled, [0], Blank), Allocated(), Idle, [], map[]) }

  lemma ChannelStep()
    ensures var step := ByThread(CallAllocateChannel(TypeCode(Section)));
      Possible(Initial(), step) && Take(Initial(), step) == WithoutFilter()
  {
    FirstChannel();
  }

  lemma FirstHalfStep()
    ensures var step := ByThread(CallFreeFilterAll(FirstId()));
      Possible(WithoutFilter(), step) && Take(WithoutFilter(), step) == WithoutFilter()
  {
    BareCleared();
  }

  lemma FilterStep()
    ensures var step := ByThread(CallAllocateFilter(FirstId()));
      Possible(WithoutFilter(), step) && Take(WithoutFilter(), step) == WithOneFilter()
  {
    DevAllocatesFilter(Chan(Disabled, [], Blank), BlankFilter(0));
    assert [] + [0] == [0];
  }

  lemma SecondHalfStep()
    ensures var step := DropsChannel(FirstId());
      Possible(WithOneFilter(), step) && Take(WithOneFilter(), step) == WithOneFilter().(faulted := true)
  {
    DevFinds(Chan(Disabled, [0], Blank), Allocated());
    assert !Droppable(WithOneFilter().dev, FirstId());
  }

  /** A filter is allocated between the halves, and the second half finds it. */
  lemma SecondHalfFindsFilter() returns (z: State)
    ensures Runs(Initial(), HalvesRun(), z) && z.faulted
  {
    ChannelStep();
    FirstHalfStep();
    FilterStep();
    SecondHalfStep();
    var s := WithoutFilter();
    z := WithOneFilter().(faulted := true);
    var first, filter, second := ByThread(CallFreeFilterAll(FirstId())), ByThread(CallAllocateFilter(FirstId())),
      DropsChannel(FirstId());
    ThreeSteps(s, s, WithOneFilter(), z, first, filter, second);
    RunsFirst(Initial(), ByThread(CallAllocateChannel(TypeCode(Section))), [first, filter, second], s, z);
  }
}
