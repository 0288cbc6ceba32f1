/** The section dispatcher as a step machine: its lock is dropped around user callbacks, and other
    threads, or the callbacks themselves, may free, allocate and control filters and channels meanwhile. */
module Dispatch {
  import opened SectionMatch
  import opened Device
  import Crc32

  const MAX_SECTION_SIZE: nat := 4096

  /** The dispatcher's locals for one section read from one channel. */
  datatype Visit = Visit(ch: nat, chLife: nat, section: seq<bv8>, crcKnown: bool, crcWrong: bool)

  /** Where the dispatcher is. It holds the lock exactly in `Scan`. */
  datatype Pc =
    | Idle
    | Scan(v: Visit, at: Option<nat>)
    | Requesting(v: Visit, slot: nat, life: nat)
    | Requested(v: Visit, slot: nat, life: nat, granted: bool)
    | Updating(v: Visit, slot: nat, life: nat)
    | Updated(v: Visit, slot: nat, life: nat)
  {
    predicate AtFilter() { Requesting? || Requested? || Updating? || Updated? }
    predicate InCallback() { Requesting? || Updating? }
    predicate InRequest() { Requesting? || Requested? }
    predicate InUpdate() { Updating? || Updated? }
  }

  /** A request ends granted if it supplied a buffer for the largest section; an update tells of a section. */
  datatype Event =
    | RequestBegins(slot: nat, life: nat)
    | RequestEnds(slot: nat, life: nat, granted: bool)
    | UpdateBegins(slot: nat, life: nat, buffered: bool, section: seq<bv8>)

  /** A free call that has to wait remembers its slot; `life`, the slot's when the call was made, is history. */
  datatype Waiter = Waiter(slot: nat, life: nat)

  /** A call that starts or stops a section channel remembers the slot it found; `tested` tells whether its
      tests, made without the lock, let it act. `life` is history as above. */
  datatype Controller = Controller(slot: nat, life: nat, enable: bool, tested: bool)

  /** `waiting` and `controlling` hold the threads inside such calls; nothing happens after a fault. `stray`,
      which is history, counts the stamps written through the head of a list. */
  datatype State = State(
    dev: Device, pc: Pc, log: seq<Event>, waiting: map<nat, Waiter>, controlling: map<nat, Controller>,
    faulted: bool, stray: nat)

  function Buffer(section: seq<bv8>): (b: seq<bv8>)
    ensures |b| >= MAX_SECTION_SIZE
  {
    section + seq(MAX_SECTION_SIZE, _ => 0 as bv8)
  }

  ghost predicate Hit(f: Filter, section: seq<bv8>) {
    f.status == Enabled && f.pattern.Valid() && Matches(f.pattern, Buffer(section))
  }

  function First(list: seq<nat>): (r: Option<nat>)
    ensures r.Some? ==> r.value in list
  {
    if list == [] then None else Some(list[0])
  }

  function NextAfter(list: seq<nat>, x: nat): (r: Option<nat>)
    ensures r.Some? ==> r.value in list
  {
    if list == [] then None
    else if list[0] == x then First(list[1..])
    else NextAfter(list[1..], x)
  }

  function FilterAt(s: State, i: nat): Filter
    requires i < |s.dev.filters|
  {
    s.dev.filters[i]
  }

  function WithFilter(s: State, i: nat, f: Filter): State
    requires i < |s.dev.filters|
  {
    s.(dev := s.dev.(filters := s.dev.filters[i := f]))
  }

  function WithSession(s: State, c: nat, session: Session): State
    requires c < |s.dev.sections.slots|
  {
    s.(dev := s.dev.(sections := s.dev.sections.(slots :=
      s.dev.sections.slots[c := s.dev.sections.slots[c].(session := session)])))
  }

  function Listed(s: State, c: nat): seq<nat>
    requires c < |s.dev.sections.slots|
  {
    s.dev.sections.slots[c].filters
  }

  // The dispatcher's own steps.

  /** What the functions below need of the slots they index. */
  predicate Shaped(s: State) {
    && (forall t :: t in s.waiting ==> s.waiting[t].slot < |s.dev.filters|)
    && (forall t :: t in s.controlling ==> s.controlling[t].slot < |s.dev.sections.slots|)
    && (!s.pc.Idle? ==> s.pc.v.ch < |s.dev.sections.slots|)
    && (!s.pc.Idle? ==> forall i :: i in s.dev.sections.slots[s.pc.v.ch].filters ==> i < |s.dev.filters|)
    && (s.pc.AtFilter() ==> s.pc.slot < |s.dev.filters|)
    && (s.pc.Scan? && s.pc.at.Some? ==> s.pc.at.value < |s.dev.filters|)
  }

  /** Lock, read one section, and reset the per-dispatch marks of the channel's filters. */
  function Begin(s: State, ch: nat, section: seq<bv8>): State
    requires ch < |s.dev.sections.slots|
  {
    var c := s.dev.sections.slots[ch];
    var marks := seq(|s.dev.filters|, i requires 0 <= i < |s.dev.filters| =>
      if i in c.filters then s.dev.filters[i].(access := false, delivered := 0, halted := 0) else s.dev.filters[i]);
    s.(dev := s.dev.(filters := marks), pc := Scan(Visit(ch, c.life, section, false, false), First(c.filters)))
  }

  function ScanNext(s: State, v: Visit, i: nat): State
    requires v.ch < |s.dev.sections.slots|
  {
    s.(pc := Scan(v, NextAfter(Listed(s, v.ch), i)))
  }

  /** The check shared by all CRC-checked filters of one section. */
  function CheckCrc(v: Visit): Visit {
    if v.crcKnown then v else v.(crcKnown := true, crcWrong := Crc32.Crc(v.section) != 0)
  }

  ghost function ScanStep(s: State): State
    requires Shaped(s) && s.pc.Scan?
  {
    var v := s.pc.v;
    if s.pc.at.None? then s.(pc := Idle)
    else
      var i := s.pc.at.value;
      var f := FilterAt(s, i);
      if f.status != Enabled || f.access || f.waitClose then ScanNext(s, v, i)
      else if !Hit(f, v.section) then ScanNext(WithFilter(s, i, f.(access := true)), v, i)
      else
        var v' := if f.crcCheck then CheckCrc(v) else v;
        if f.crcCheck && v'.crcWrong then ScanNext(WithFilter(s, i, f.(access := true)), v', i)
        else if f.hasRequest then
          var t := WithSession(WithFilter(s, i, Asking(f)), v.ch, Stamped);
          t.(pc := Requesting(v', i, f.life), log := s.log + [RequestBegins(i, f.life)])
        else Deliver(s, v', i, false)
  }

  /** The slot as its request callback is called. */
  function Asking(f: Filter): Filter {
    f.(flag := FlagCallback, session := Stamped, late := if f.waitClose then f.late + 1 else f.late)
  }

  /** The slot as its update callback is called. */
  function Telling(f: Filter): Filter {
    f.(flag := FlagCallback, session := Stamped, delivered := f.delivered + 1, shots := f.shots + 1,
       late := if f.waitClose then f.late + 1 else f.late)
  }

  /** Call the update callback if there is one, or finish the filter. */
  function Deliver(s: State, v: Visit, i: nat, buffered: bool): State
    requires i < |s.dev.filters| && v.ch < |s.dev.sections.slots|
  {
    var f := FilterAt(s, i);
    if f.hasUpdate then
      WithSession(WithFilter(s, i, Telling(f)), v.ch, Stamped)
        .(pc := Updating(v, i, f.life), log := s.log + [UpdateBegins(i, f.life, buffered, v.section)])
    else Finish(s, v, i)
  }

  /** A one-shot filter is disabled; the filter counts as processed. */
  function Finish(s: State, v: Visit, i: nat): State
    requires i < |s.dev.filters| && v.ch < |s.dev.sections.slots|
  {
    var f := FilterAt(s, i);
    var status := if f.status == Enabled && !f.continuous then Disabled else f.status;
    ScanNext(WithFilter(s, i, f.(status := status, access := true)), v, i)
  }

  /** Move on to a filter and clear its stamp. At the end of the list the stamp is written all the same, through
      the list's head and so behind the channel; what it hits there is not modelled, only that it happens. */
  function Resume(s: State, v: Visit, at: Option<nat>): State
    requires at.Some? ==> at.value < |s.dev.filters|
  {
    var t := s.(pc := Scan(v, at));
    if at.None? then t.(stray := s.stray + 1)
    else WithFilter(t, at.value, FilterAt(s, at.value).(session := Cleared))
  }

  predicate ChannelCheck(s: State)
    requires Shaped(s) && s.pc.AtFilter()
  {
    var c := s.dev.sections.slots[s.pc.v.ch];
    c.status == Enabled && c.session == Stamped
  }

  predicate FilterCheck(s: State)
    requires Shaped(s) && s.pc.AtFilter()
  {
    FilterAt(s, s.pc.slot).session == Stamped
  }

  /** What follows a callback when the channel check passed: the filter is carried on with, skipped, or
      given up for a new walk from the list head. `None` means carry on. */
  function Rejoin(s: State): Option<State>
    requires Shaped(s) && s.pc.AtFilter()
  {
    var v, i := s.pc.v, s.pc.slot;
    var f := FilterAt(s, i);
    if f.session == Stamped then
      if f.status == Enabled then None
      else if f.status == Free then Some(Resume(s, v, First(Listed(s, v.ch))))
      else Some(Resume(s, v, NextAfter(Listed(s, v.ch), i)))
    else Some(Resume(s, v, First(Listed(s, v.ch))))
  }

  function RequestReturns(s: State, granted: bool): State
    requires Shaped(s) && s.pc.Requesting?
  {
    var i := s.pc.slot;
    WithFilter(s, i, FilterAt(s, i).(flag := FlagDispatch))
      .(pc := Requested(s.pc.v, i, s.pc.life, granted), log := s.log + [RequestEnds(i, s.pc.life, granted)])
  }

  /** Relock after the request callback and find out what is still there. */
  function RequestedStep(s: State): State
    requires Shaped(s) && s.pc.Requested?
  {
    var v, i := s.pc.v, s.pc.slot;
    if !ChannelCheck(s) then s.(pc := Idle)
    else
      var t := WithSession(s, v.ch, Cleared);
      var r := Rejoin(t);
      if r.Some? then r.value
      else if !s.pc.granted then ScanNext(t, v, i)
      else Deliver(t, v, i, true)
  }

  function UpdateReturns(s: State): State
    requires Shaped(s) && s.pc.Updating?
  {
    var i := s.pc.slot;
    WithFilter(s, i, FilterAt(s, i).(flag := FlagDispatch)).(pc := Updated(s.pc.v, i, s.pc.life))
  }

  /** The history of a filter found stopped after its update. */
  function Noted(s: State, i: nat): State
    requires i < |s.dev.filters|
  {
    var f := FilterAt(s, i);
    if f.session == Stamped && f.status == Disabled then WithFilter(s, i, f.(halted := f.halted + 1)) else s
  }

  /** The history of a dispatch abandoned after an update. */
  function Abandoned(s: State, i: nat, life: nat): State
    requires i < |s.dev.filters|
  {
    var f := FilterAt(s, i);
    WithFilter(s, i, f.(escaped := f.escaped || f.life == life)).(pc := Idle)
  }

  function UpdatedStep(s: State): State
    requires Shaped(s) && s.pc.Updated?
  {
    var v, i := s.pc.v, s.pc.slot;
    if !ChannelCheck(s) then Abandoned(s, i, s.pc.life)
    else
      var t := WithSession(s, v.ch, Cleared);
      var r := Rejoin(Noted(t, i));
      if r.Some? then r.value else Finish(t, v, i)
  }

  // Everything that can happen.

  datatype Step =
    | BeginStep(ch: nat, section: seq<bv8>)
    | ScanOne
    | RequestDone(granted: bool)
    | AfterRequest
    | UpdateDone
    | AfterUpdate
    | ByCallback(call: Call)              // the running callback makes an API call
    | ByThread(call: Call)                // another thread makes one
    | FreeBegins(thread: nat, id: nat)    // another thread starts freeing a filter
    | FreeRetries(thread: nat)            // ... and looks again after its pause
    | DropsChannel(id: nat)               // the second half of a channel free
    | ControlFinds(thread: nat, id: nat, enable: bool) // a thread looks a channel up to start or stop it
    | ControlTests(thread: nat, pid: bool)             // ... tests it without the lock, with or without a PID set
    | ControlActs(thread: nat)                         // ... changes its status
    | ControlQuits(thread: nat)                        // ... or gives up because the driver refuses

  predicate DispatcherStep(step: Step) {
    step.BeginStep? || step.ScanOne? || step.RequestDone? || step.AfterRequest? || step.UpdateDone? || step.AfterUpdate?
  }

  predicate Possible(s: State, step: Step) {
    && Shaped(s) && !s.faulted
    && match step
       case BeginStep(ch, section) =>
         && s.pc.Idle? && ch < |s.dev.sections.slots| && s.dev.sections.slots[ch].status == Enabled
         && 0 < |section| <= MAX_SECTION_SIZE
       case ScanOne => s.pc.Scan?
       case RequestDone(_) => s.pc.Requesting?
       case AfterRequest => s.pc.Requested?
       case UpdateDone => s.pc.Updating?
       case AfterUpdate => s.pc.Updated?
       case ByCallback(_) => s.pc.InCallback()
       case ByThread(call) => !s.pc.Scan? && !call.CallFreeFilter?
       case FreeBegins(t, _) => !s.pc.Scan? && t !in s.waiting
       case FreeRetries(t) => !s.pc.Scan? && t in s.waiting
       case DropsChannel(id) => !s.pc.Scan? && TypeOfCode(IdType(id)).Some?
       case ControlFinds(t, id, _) => !s.pc.Scan? && t !in s.controlling && TypeOfCode(IdType(id)) == Some(Section)
       case ControlTests(t, _) => t in s.controlling && !s.controlling[t].tested
       case ControlActs(t) =>
         && t in s.controlling && s.controlling[t].tested
         && (s.pc.Scan? ==> !s.dev.sections.slots[s.controlling[t].slot].Live()) // a zeroed slot has no lock
       case ControlQuits(t) => t in s.controlling && s.controlling[t].tested && s.controlling[t].enable
  }

  /** The channel, if there still is one of that id, has no filters. */
  predicate Droppable(d: Device, id: nat) {
    var t := TypeOfCode(IdType(id));
    t.Some? && var c := FindChannel(d.PoolOf(t.value), id); c.Some? ==> d.PoolOf(t.value).slots[c.value].filters == []
  }

  /** One look of a free call at its slot, under the lock. */
  function TryFree(s: State, t: nat, w: Waiter): State
    requires w.slot < |s.dev.filters|
  {
    var r := LookToFree(s.dev, w.slot, false);
    match r.1
    case Waits => s.(dev := r.0, waiting := s.waiting[t := w])
    case Frees => s.(dev := r.0, waiting := s.waiting - {t})
    case Faults => s.(faulted := true)
  }

  function SecondHalf(s: State, id: nat): State
    requires TypeOfCode(IdType(id)).Some?
  {
    if Droppable(s.dev, id) then s.(dev := DropChannel(s.dev, TypeOfCode(IdType(id)).value, id).0)
    else s.(faulted := true)
  }

  /** The status of the slot found is changed; on a slot not in use this breaks the tables. */
  function Act(s: State, t: nat): State
    requires t in s.controlling && s.controlling[t].slot < |s.dev.sections.slots|
  {
    var k := s.controlling[t];
    if s.dev.sections.slots[k.slot].Live() then
      s.(dev := SetChannelStatus(s.dev, k.slot, k.enable), controlling := s.controlling - {t})
    else s.(faulted := true)
  }

  ghost function Take(s: State, step: Step): State
    requires Possible(s, step)
  {
    match step
    case BeginStep(ch, section) => Begin(s, ch, section)
    case ScanOne => ScanStep(s)
    case RequestDone(granted) => RequestReturns(s, granted)
    case AfterRequest => RequestedStep(s)
    case UpdateDone => UpdateReturns(s)
    case AfterUpdate => UpdatedStep(s)
    case ByCallback(call) => s.(dev := Perform(s.dev, call).0)
    case ByThread(call) => s.(dev := Perform(s.dev, call).0)
    case FreeBegins(t, id) =>
      var r := FindFilter(s.dev.filters, id);
      if r.None? then s else TryFree(s, t, Waiter(r.value, FilterAt(s, r.value).life))
    case FreeRetries(t) => TryFree(s, t, s.waiting[t])
    case DropsChannel(id) => SecondHalf(s, id)
    case ControlFinds(t, id, enable) =>
      var r := FindChannel(s.dev.sections, id);
      if r.None? then s
      else s.(controlling := s.controlling[t := Controller(r.value, s.dev.sections.slots[r.value].life, enable, false)])
    case ControlTests(t, pid) =>
      var k := s.controlling[t];
      if GoesOn(s.dev.sections.slots[k.slot], k.enable, pid) then
        s.(controlling := s.controlling[t := k.(tested := true)])
      else s.(controlling := s.controlling - {t})
    case ControlActs(t) => Act(s, t)
    case ControlQuits(t) => s.(controlling := s.controlling - {t})
  }

  function Initial(): State {
    State(Opened(), Idle, [], map[], map[], false, 0)
  }
}
