/** Channels and section filters of one demux device: the slot tables, the lists threaded through
    them and the calls that allocate, free and control them, each taken as one atomic step. */
module Device {
  import opened SectionMatch

  const MAX_FILTERS: nat := 176

  datatype Option<T> = None | Some(value: T)

  datatype ChannelType = Section | Record | Service | Stream

  function TypeCode(t: ChannelType): nat {
    match t
    case Section => 1
    case Record => 2
    case Service => 3
    case Stream => 4
  }

  function TypeOfCode(code: nat): Option<ChannelType> {
    if code == 1 then Some(Section)
    else if code == 2 then Some(Record)
    else if code == 3 then Some(Service)
    else if code == 4 then Some(Stream)
    else None
  }

  function Capacity(t: ChannelType): nat {
    match t
    case Section => 32
    case Record => 96
    case Service => 16
    case Stream => 10
  }

  // Channel ids carry the type above bit 16 and the slot index below it.

  function ChannelId(t: ChannelType, index: nat): nat {
    TypeCode(t) * 0x1_0000 + index % 0x1_0000
  }

  function IdType(id: nat): nat {
    id / 0x1_0000 % 0x1_0000
  }

  function IdIndex(id: nat): nat {
    id % 0x1_0000
  }

  datatype Status = Free | Disabled | Enabled

  /** The stamp the dispatcher leaves around a callback; a wiped slot carries `Blank`. */
  datatype Session = Blank | Stamped | Cleared

  datatype FilterFlag = FlagInit | FlagCallback | FlagDispatch

  /** A filter slot. The fields after `session` are history, not code: `life` counts how often the
      slot was wiped, `late` the callbacks begun after `waitClose` was set, `delivered` and `halted`
      the updates begun and the updates found stopped afterwards in the current dispatch, `shots`
      the updates begun since the filter was last enabled, and `escaped` whether since then the filter
      was continuous at any time or an update ended with the dispatch being abandoned. */
  datatype Filter = Filter(
    id: nat, status: Status, pattern: Pattern, continuous: bool, crcCheck: bool,
    hasRequest: bool, hasUpdate: bool, access: bool, flag: FilterFlag, waitClose: bool,
    owner: nat, session: Session,
    life: nat, late: nat, delivered: nat, halted: nat, shots: nat, escaped: bool)
  {
    predicate Live() { status != Free }

    /** The slot zeroed for its next use. */
    function Wiped(): Filter {
      BlankFilter(life + 1)
    }
  }

  function BlankFilter(life: nat): Filter {
    Filter(
      0, Free, BlankPattern(), false, false, false, false, false, FlagInit, false, 0, Blank,
      life, 0, 0, 0, 0, false)
  }

  function BlankPattern(): (p: Pattern)
    ensures p.Valid()
  {
    var zeros := seq(MAX_FILTER_SIZE, _ => 0 as bv8);
    Pattern(0, zeros, zeros, zeros)
  }

  datatype Channel = Channel(id: nat, status: Status, filters: seq<nat>, fltCnt: int, session: Session, life: nat) {
    predicate Live() { status != Free }

    function Wiped(): Channel {
      BlankChannel(life + 1)
    }
  }

  function BlankChannel(life: nat): Channel {
    Channel(0, Free, [], 0, Blank, life)
  }

  /** One type's slot array and the list of its allocated slots, oldest first. */
  datatype Pool = Pool(slots: seq<Channel>, order: seq<nat>)

  datatype Device = Device(sections: Pool, records: Pool, services: Pool, streams: Pool, filters: seq<Filter>) {
    function PoolOf(t: ChannelType): Pool {
      match t
      case Section => sections
      case Record => records
      case Service => services
      case Stream => streams
    }

    function WithPool(t: ChannelType, p: Pool): Device {
      match t
      case Section => this.(sections := p)
      case Record => this.(records := p)
      case Service => this.(services := p)
      case Stream => this.(streams := p)
    }
  }

  function BlankPool(t: ChannelType): Pool {
    Pool(seq(Capacity(t), _ => BlankChannel(0)), [])
  }

  function Opened(): Device {
    Device(BlankPool(Section), BlankPool(Record), BlankPool(Service), BlankPool(Stream),
           seq(MAX_FILTERS, _ => BlankFilter(0)))
  }

  datatype Error = BadChannelType | NoChannel | NoFilter | Invalid

  datatype Answer = Ok(id: nat) | Done | Fail(error: Error)

  // Searches, as the loops over the arrays and the lists make them.

  predicate ChannelTaken(ch: Channel) {
    ch.status != Free && ch.id != 0
  }

  /** The first slot of the array an allocation may take. */
  function FirstFreeChannel(slots: seq<Channel>, from: nat := 0): (r: Option<nat>)
    requires from <= |slots|
    ensures r.None? ==> forall k :: from <= k < |slots| ==> ChannelTaken(slots[k])
    ensures r.Some? ==> from <= r.value < |slots| && !ChannelTaken(slots[r.value])
    ensures r.Some? ==> forall k :: from <= k < r.value ==> ChannelTaken(slots[k])
    decreases |slots| - from
  {
    if from == |slots| then None
    else if slots[from].status == Free || slots[from].id == 0 then Some(from)
    else FirstFreeChannel(slots, from + 1)
  }

  function FirstFreeFilter(filters: seq<Filter>, from: nat := 0): (r: Option<nat>)
    requires from <= |filters|
    ensures r.None? ==> forall k :: from <= k < |filters| ==> filters[k].Live()
    ensures r.Some? ==> from <= r.value < |filters| && !filters[r.value].Live()
    ensures r.Some? ==> forall k :: from <= k < r.value ==> filters[k].Live()
    decreases |filters| - from
  {
    if from == |filters| then None
    else if filters[from].status == Free then Some(from)
    else FirstFreeFilter(filters, from + 1)
  }

  predicate ListedWithId(p: Pool, k: nat, id: nat)
    requires k < |p.order|
  {
    p.order[k] < |p.slots| && p.slots[p.order[k]].id == id
  }

  /** The first listed slot that carries the id. */
  function FindChannel(p: Pool, id: nat, from: nat := 0): (r: Option<nat>)
    requires from <= |p.order|
    ensures r.None? ==> forall k :: from <= k < |p.order| ==> !ListedWithId(p, k, id)
    ensures r.Some? ==> exists k :: from <= k < |p.order| && p.order[k] == r.value && ListedWithId(p, k, id)
    decreases |p.order| - from
  {
    if from == |p.order| then None
    else if ListedWithId(p, from, id) then Some(p.order[from])
    else FindChannel(p, id, from + 1)
  }

  /** The first live slot that carries the id. */
  function FindFilter(filters: seq<Filter>, id: nat, from: nat := 0): (r: Option<nat>)
    requires from <= |filters|
    ensures r.None? ==> forall k :: from <= k < |filters| && filters[k].Live() ==> filters[k].id != id
    ensures r.Some? ==> from <= r.value < |filters| && filters[r.value].Live() && filters[r.value].id == id
    decreases |filters| - from
  {
    if from == |filters| then None
    else if filters[from].id == id && filters[from].status != Free then Some(from)
    else FindFilter(filters, id, from + 1)
  }

  function Remove(s: seq<nat>, x: nat): seq<nat> {
    if s == [] then [] else (if s[0] == x then [] else [s[0]]) + Remove(s[1..], x)
  }

  // The calls.

  function AllocateChannel(d: Device, code: nat): (r: (Device, Answer)) {
    match TypeOfCode(code)
    case None => (d, Fail(BadChannelType))
    case Some(t) =>
      var p := d.PoolOf(t);
      match FirstFreeChannel(p.slots)
      case None => (d, Fail(NoChannel))
      case Some(i) =>
        var ch := p.slots[i].(id := ChannelId(t, i), status := Disabled, filters := [], fltCnt := 0);
        (d.WithPool(t, Pool(p.slots[i := ch], p.order + [i])), Ok(ch.id))
  }

  /** Every filter on the list is wiped, and the list is left empty. */
  function WipeListed(filters: seq<Filter>, listed: seq<nat>): seq<Filter> {
    seq(|filters|, i requires 0 <= i < |filters| => if i in listed then filters[i].Wiped() else filters[i])
  }

  function ClearChannel(d: Device, c: nat): Device
    requires c < |d.sections.slots|
  {
    var ch := d.sections.slots[c];
    d.(filters := WipeListed(d.filters, ch.filters),
       sections := d.sections.(slots := d.sections.slots[c := ch.(filters := [], fltCnt := ch.fltCnt - |ch.filters|)]))
  }

  function FreeFilterAll(d: Device, id: nat): (r: (Device, Answer)) {
    if TypeOfCode(IdType(id)) != Some(Section) then (d, Fail(BadChannelType))
    else
      match FindChannel(d.sections, id)
      case None => (d, Fail(NoChannel))
      case Some(c) => (ClearChannel(d, c), Done)
  }

  /** The second half of freeing a channel: unlink it and zero its slot. */
  function DropChannel(d: Device, t: ChannelType, id: nat): (r: (Device, Answer)) {
    var p := d.PoolOf(t);
    match FindChannel(p, id)
    case None => (d, Fail(NoChannel))
    case Some(c) => (d.WithPool(t, Pool(p.slots[c := p.slots[c].Wiped()], Remove(p.order, c))), Done)
  }

  function FreeChannel(d: Device, id: nat): (r: (Device, Answer)) {
    match TypeOfCode(IdType(id))
    case None => (d, Fail(BadChannelType))
    case Some(t) => DropChannel(FreeFilterAll(d, id).0, t, id)
  }

  function AllocateFilter(d: Device, id: nat): (r: (Device, Answer)) {
    if TypeOfCode(IdType(id)) != Some(Section) then (d, Fail(BadChannelType))
    else
      match FindChannel(d.sections, id)
      case None => (d, Fail(NoChannel))
      case Some(c) =>
        match FirstFreeFilter(d.filters)
        case None => (d, Fail(NoFilter))
        case Some(i) => (LinkFilter(d, c, i), Ok(i))
  }

  function LinkFilter(d: Device, c: nat, i: nat): Device
    requires c < |d.sections.slots| && i < |d.filters|
  {
    var ch := d.sections.slots[c];
    var linked := ch.(filters := ch.filters + [i], fltCnt := ch.fltCnt + 1);
    d.(filters := d.filters[i := d.filters[i].(id := i, status := Disabled, owner := c)],
       sections := d.sections.(slots := d.sections.slots[c := linked]))
  }

  /** What a free call does once it no longer has to wait. */
  function UnlinkFilter(d: Device, i: nat): Device
    requires i < |d.filters|
  {
    var c := d.filters[i].owner;
    var wiped := d.(filters := d.filters[i := d.filters[i].Wiped()]);
    if d.filters[i].Live() && c < |d.sections.slots| then
      var ch := d.sections.slots[c];
      var shorter := ch.(filters := Remove(ch.filters, i), fltCnt := ch.fltCnt - 1);
      wiped.(sections := d.sections.(slots := d.sections.slots[c := shorter]))
    else
      d
  }

  /** What a free call does at a look at its slot: it waits for a callback of another thread, frees the
      filter, or follows the null channel pointer of a slot that is not in use. */
  datatype Look = Waits | Frees | Faults

  /** One look at slot `i` under the lock; the dispatcher's own thread never waits. */
  function LookToFree(d: Device, i: nat, own: bool): (r: (Device, Look))
    requires i < |d.filters|
  {
    var f := d.filters[i];
    if !own && f.flag == FlagCallback then (d.(filters := d.filters[i := f.(waitClose := true)]), Waits)
    else if f.Live() then (UnlinkFilter(d, i), Frees)
    else (d, Faults)
  }

  function FreeFilter(d: Device, id: nat): (r: (Device, Answer)) {
    match FindFilter(d.filters, id)
    case None => (d, Fail(NoFilter))
    case Some(i) => (UnlinkFilter(d, i), Done)
  }

  /** A setter of one live filter. */
  datatype Setting =
    | Control(enable: bool)
    | SetPattern(pattern: Pattern, continuous: bool)
    | SetCrcCheck(on: bool)
    | SetCallbacks(request: bool, update: bool)

  function Apply(f: Filter, s: Setting): Filter
    requires s.SetPattern? ==> s.pattern.Valid()
  {
    match s
    case Control(enable) =>
      if enable then f.(status := Enabled, shots := 0, escaped := f.continuous) else f.(status := Disabled)
    case SetPattern(pattern, continuous) =>
      f.(pattern := pattern, continuous := continuous, escaped := f.escaped || continuous)
    case SetCrcCheck(on) => f.(crcCheck := on)
    case SetCallbacks(request, update) => f.(hasRequest := request, hasUpdate := update)
  }

  function SetFilter(d: Device, id: nat, s: Setting): (r: (Device, Answer)) {
    if s.SetPattern? && !s.pattern.Valid() then (d, Fail(Invalid))
    else
      match FindFilter(d.filters, id)
      case None => (d, Fail(NoFilter))
      case Some(i) => (d.(filters := d.filters[i := Apply(d.filters[i], s)]), Done)
  }

  function SetChannelStatus(d: Device, c: nat, enable: bool): Device
    requires c < |d.sections.slots|
  {
    var ch := d.sections.slots[c].(status := if enable then Enabled else Disabled);
    d.(sections := d.sections.(slots := d.sections.slots[c := ch]))
  }

  /** What the call that starts or stops a channel tests first: a start goes on if the channel is not running and
      has a PID, which a zeroed slot has not; a stop goes on unless the channel is stopped. */
  predicate GoesOn(ch: Channel, enable: bool, pid: bool) {
    if enable then ch.status == Disabled && pid else ch.status != Disabled
  }

  /** Starting or stopping a channel that is allocated and has a PID. */
  function ControlChannel(d: Device, id: nat, enable: bool): (r: (Device, Answer)) {
    match TypeOfCode(IdType(id))
    case None => (d, Fail(BadChannelType))
    case Some(t) =>
      var p := d.PoolOf(t);
      match FindChannel(p, id)
      case None => (d, Fail(NoChannel))
      case Some(c) =>
        (d.WithPool(t, p.(slots := p.slots[c := p.slots[c].(status := if enable then Enabled else Disabled)])), Done)
  }

  datatype Call =
    | CallAllocateChannel(code: nat)
    | CallFreeChannel(chId: nat)
    | CallControlChannel(chId: nat, enable: bool)
    | CallAllocateFilter(chId: nat)
    | CallFreeFilter(fltId: nat)
    | CallFreeFilterAll(chId: nat)
    | CallSetFilter(fltId: nat, setting: Setting)

  function Perform(d: Device, c: Call): (r: (Device, Answer)) {
    match c
    case CallAllocateChannel(code) => AllocateChannel(d, code)
    case CallFreeChannel(id) => FreeChannel(d, id)
    case CallControlChannel(id, enable) => ControlChannel(d, id, enable)
    case CallAllocateFilter(id) => AllocateFilter(d, id)
    case CallFreeFilter(id) => FreeFilter(d, id)
    case CallFreeFilterAll(id) => FreeFilterAll(d, id)
    case CallSetFilter(id, s) => SetFilter(d, id, s)
  }
}
