/** What every interleaving of the dispatcher, its callbacks and other threads keeps. */
module DispatchSafety {
  import opened Device
  import opened Slots
  import opened Dispatch

  /** The dispatcher's visit still concerns this incarnation of the slot. */
  ghost predicate OnFilter(pc: Pc, i: nat, f: Filter) {
    pc.AtFilter() && pc.slot == i && pc.life == f.life
  }

  /** A filter that did not escape, and so was one-shot throughout, was delivered at most once since it was
      enabled; while it is enabled it was not delivered at all, or is being delivered now. */
  predicate ShotsOk(f: Filter, updating: bool) {
    && (f.continuous ==> f.escaped)
    && (!f.escaped ==> f.shots <= 1 && (f.status == Enabled && !updating ==> f.shots == 0))
  }

  /** A slot not freed since a free call began to wait for it is live and marked; its life never goes back. */
  ghost predicate WaiterOk(f: Filter, w: Waiter) {
    w.life <= f.life && (w.life == f.life ==> f.Live() && f.waitClose)
  }

  ghost predicate WaitersInv(d: Device, waiting: map<nat, Waiter>) {
    forall t :: t in waiting ==> waiting[t].slot < |d.filters| && WaiterOk(d.filters[waiting[t].slot], waiting[t])
  }

  /** A channel not freed since a control call found it is still in its slot. */
  ghost predicate ControllerOk(c: Channel, k: Controller) {
    k.life <= c.life && (k.life == c.life ==> c.Live())
  }

  ghost predicate ControllersInv(d: Device, controlling: map<nat, Controller>) {
    forall t :: t in controlling ==>
      controlling[t].slot < |d.sections.slots| && ControllerOk(d.sections.slots[controlling[t].slot], controlling[t])
  }

  ghost predicate FilterInv(pc: Pc, i: nat, f: Filter) {
    && (f.flag == FlagCallback <==> OnFilter(pc, i, f) && pc.InCallback())
    && (!f.Live() ==> f.(flag := FlagInit) == BlankFilter(f.life))
    && (!f.waitClose ==> f.late == 0)
    && f.late <= 1
    && f.delivered <= f.halted + 1
    && ShotsOk(f, OnFilter(pc, i, f) && pc.InUpdate())
    && (pc.AtFilter() && pc.slot == i ==> pc.life <= f.life && (f.session == Stamped <==> pc.life == f.life))
    && (OnFilter(pc, i, f) ==> f.Live() && f.owner == pc.v.ch && !f.access)
    && (OnFilter(pc, i, f) && pc.InRequest() ==> f.late == 0)
  }

  /** The dispatch's own channel: its stamp tells whether it was freed, and its filters are delivered at
      most once each, not counting those found stopped after their own update. */
  ghost predicate ChannelInv(d: Device, pc: Pc) {
    !pc.Idle? ==>
      && pc.v.ch < |d.sections.slots|
      && var c := d.sections.slots[pc.v.ch];
      && pc.v.chLife <= c.life
      && (pc.AtFilter() ==> (c.session == Stamped <==> pc.v.chLife == c.life))
      && (pc.Scan? ==> pc.v.chLife == c.life && c.Live() && (pc.at.Some? ==> pc.at.value in c.filters))
      && (pc.AtFilter() ==>
            pc.slot < |d.filters| && (OnFilter(pc, pc.slot, d.filters[pc.slot]) ==> pc.v.chLife == c.life))
      && (pc.v.chLife == c.life ==>
            c.Live() && forall i :: i in c.filters && i < |d.filters| ==> DeliveredOnce(pc, i, d.filters[i]))
  }

  ghost predicate DeliveredOnce(pc: Pc, i: nat, f: Filter) {
    f.delivered <= f.halted + if f.access || (OnFilter(pc, i, f) && pc.InUpdate()) then 1 else 0
  }

  /** The log ends with a request of that incarnation and its end. */
  ghost predicate EndsWithRequest(log: seq<Event>, slot: nat, life: nat, granted: bool) {
    && |log| >= 2 && log[|log| - 2] == RequestBegins(slot, life)
    && log[|log| - 1] == RequestEnds(slot, life, granted)
  }

  /** An update that hands over a requested buffer follows that very request, which was granted. */
  ghost predicate LogInv(log: seq<Event>, pc: Pc) {
    && (forall k :: 0 <= k < |log| && log[k].UpdateBegins? && log[k].buffered ==>
          EndsWithRequest(log[..k], log[k].slot, log[k].life, true))
    && (pc.Requesting? ==> log != [] && log[|log| - 1] == RequestBegins(pc.slot, pc.life))
    && (pc.Requested? ==> EndsWithRequest(log, pc.slot, pc.life, pc.granted))
  }

  lemma LogGrows(log: seq<Event>, pc: Pc, e: Event, pc': Pc)
    requires LogInv(log, pc) && (pc'.Requesting? ==> e == RequestBegins(pc'.slot, pc'.life))
    requires pc'.Requested? ==> EndsWithRequest(log + [e], pc'.slot, pc'.life, pc'.granted)
    requires e.UpdateBegins? && e.buffered ==> EndsWithRequest(log, e.slot, e.life, true)
    ensures LogInv(log + [e], pc')
  {
    var more := log + [e];
    forall k | 0 <= k < |more| && more[k].UpdateBegins? && more[k].buffered
      ensures EndsWithRequest(more[..k], more[k].slot, more[k].life, true)
    {
      if k < |log| {
        assert more[..k] == log[..k];
      } else {
        assert more[..k] == log;
      }
    }
  }

  ghost predicate Inv(s: State) {
    && Owned(s.dev)
    && WaitersInv(s.dev, s.waiting)
    && ControllersInv(s.dev, s.controlling)
    && (forall i {:trigger FilterInv(s.pc, i, s.dev.filters[i])} ::
          0 <= i < |s.dev.filters| ==> FilterInv(s.pc, i, s.dev.filters[i]))
    && ChannelInv(s.dev, s.pc)
    && LogInv(s.log, s.pc)
  }

  lemma InvIsShaped(s: State)
    requires Inv(s)
    ensures Shaped(s)
  {
    if !s.pc.Idle? {
      assert ListOwned(s.dev, s.pc.v.ch);
    }
  }

  lemma InitialInv()
    ensures Inv(Initial())
  {
    OpenedIsOwned();
  }

  // What an API call may do to the slots, whoever makes it.

  /** Wiped, and perhaps allocated again: no trace of an earlier use. */
  ghost predicate Fresh(g: Filter) {
    && g.session == Blank && g.flag == FlagInit && !g.access && !g.waitClose
    && g.late == g.delivered == g.halted == 0
    && ShotsOk(g, false)
    && (!g.Live() ==> g == BlankFilter(g.life))
  }

  ghost predicate FilterSteady(f: Filter, g: Filter) {
    && f.life <= g.life
    && (f.life == g.life ==>
          && g.session == f.session && g.flag == f.flag && g.access == f.access
          && g.waitClose == f.waitClose && g.late == f.late && g.delivered == f.delivered && g.halted == f.halted
          && (f.Live() ==> g.Live() && g.owner == f.owner)
          && (!g.Live() ==> g == f)
          && (forall u :: ShotsOk(f, u) ==> ShotsOk(g, u)))
    && (f.life < g.life ==> Fresh(g))
  }

  ghost predicate ChannelSteady(b: Channel, c: Channel) {
    && b.life <= c.life
    && (b.life == c.life ==> c.session == b.session && (b.Live() ==> c.Live()))
    && (b.life < c.life ==> c.session == Blank)
  }

  ghost predicate Steady(d: Device, e: Device) {
    && |e.filters| == |d.filters| && |e.sections.slots| == |d.sections.slots|
    && (forall i :: 0 <= i < |d.filters| ==> FilterSteady(d.filters[i], e.filters[i]))
    && (forall i :: 0 <= i < |d.filters| ==> AnchorSteady(d, e, i))
    && (forall c :: 0 <= c < |d.sections.slots| ==> ChannelSteady(d.sections.slots[c], e.sections.slots[c]))
    && (forall c :: 0 <= c < |d.sections.slots| && d.sections.slots[c].life == e.sections.slots[c].life ==>
          ListSteady(d, e, c))
  }

  /** A filter that was not freed keeps its channel from being freed. */
  ghost predicate AnchorSteady(d: Device, e: Device, i: nat)
    requires i < |d.filters| && i < |e.filters|
  {
    var c := d.filters[i].owner;
    d.filters[i].Live() && d.filters[i].life == e.filters[i].life ==>
      c < |d.sections.slots| && c < |e.sections.slots| && d.sections.slots[c].life == e.sections.slots[c].life
  }

  /** A list gains only filters that were free before or were freed meanwhile. */
  ghost predicate ListSteady(d: Device, e: Device, c: nat)
    requires c < |d.sections.slots| && c < |e.sections.slots|
  {
    forall i :: i in e.sections.slots[c].filters && i < |d.filters| ==>
      || i in d.sections.slots[c].filters || !d.filters[i].Live()
      || (i < |e.filters| && d.filters[i].life < e.filters[i].life)
  }

  lemma SteadyTrans(d: Device, e: Device, g: Device)
    requires Steady(d, e) && Steady(e, g)
    ensures Steady(d, g)
  {
    forall i | 0 <= i < |d.filters| ensures FilterSteady(d.filters[i], g.filters[i]) && AnchorSteady(d, g, i) {
      assert FilterSteady(d.filters[i], e.filters[i]) && FilterSteady(e.filters[i], g.filters[i]);
      assert AnchorSteady(d, e, i) && AnchorSteady(e, g, i);
    }
    forall c | 0 <= c < |d.sections.slots| ensures ChannelSteady(d.sections.slots[c], g.sections.slots[c]) {
      assert ChannelSteady(d.sections.slots[c], e.sections.slots[c]);
      assert ChannelSteady(e.sections.slots[c], g.sections.slots[c]);
    }
    forall c | 0 <= c < |d.sections.slots| && d.sections.slots[c].life == g.sections.slots[c].life
      ensures ListSteady(d, g, c)
    {
      ListTrans(d, e, g, c);
    }
  }

  lemma ListTrans(d: Device, e: Device, g: Device, c: nat)
    requires Steady(d, e) && Steady(e, g)
    requires c < |d.sections.slots| && d.sections.slots[c].life == g.sections.slots[c].life
    ensures ListSteady(d, g, c)
  {
    assert ChannelSteady(d.sections.slots[c], e.sections.slots[c]);
    assert ChannelSteady(e.sections.slots[c], g.sections.slots[c]);
    assert ListSteady(d, e, c) && ListSteady(e, g, c);
    forall i | i in g.sections.slots[c].filters && i < |d.filters|
      ensures i in d.sections.slots[c].filters || !d.filters[i].Live() || d.filters[i].life < g.filters[i].life
    {
      assert FilterSteady(d.filters[i], e.filters[i]) && FilterSteady(e.filters[i], g.filters[i]);
    }
  }

  lemma UnlinkSteady(d: Device, i: nat)
    requires Owned(d) && i < |d.filters|
    ensures Steady(d, UnlinkFilter(d, i))
  {
    PlacedEverywhere(d);
    if d.filters[i].Live() {
      assert ListOwned(d, d.filters[i].owner);
      RemoveKeeps(d.sections.slots[d.filters[i].owner].filters, i);
    }
  }

  lemma PlacedEverywhere(d: Device)
    requires Owned(d)
    ensures forall i :: 0 <= i < |d.filters| && d.filters[i].Live() ==> d.filters[i].owner < |d.sections.slots|
  {
    forall i | 0 <= i < |d.filters| && d.filters[i].Live() ensures d.filters[i].owner < |d.sections.slots| {
      assert FilterPlaced(d, i);
    }
  }

  lemma ClearSteady(d: Device, c: nat)
    requires Owned(d) && c < |d.sections.slots|
    ensures Steady(d, ClearChannel(d, c))
  {
    var e := ClearChannel(d, c);
    forall i | 0 <= i < |d.filters| ensures FilterSteady(d.filters[i], e.filters[i]) && AnchorSteady(d, e, i) {
      assert FilterPlaced(d, i);
    }
    forall b | 0 <= b < |d.sections.slots|
      ensures ChannelSteady(d.sections.slots[b], e.sections.slots[b]) && ListSteady(d, e, b)
    {}
  }

  lemma FreeFilterAllSteady(d: Device, id: nat)
    requires Owned(d)
    ensures Steady(d, FreeFilterAll(d, id).0)
  {
    PlacedEverywhere(d);
    var c := FindChannel(d.sections, id);
    if TypeOfCode(IdType(id)) == Some(Section) && c.Some? {
      ClearSteady(d, c.value);
    }
  }

  lemma DropSteady(d: Device, t: ChannelType, id: nat)
    requires Owned(d)
    requires var c := FindChannel(d.PoolOf(t), id); c.Some? ==> d.PoolOf(t).slots[c.value].filters == []
    ensures Steady(d, DropChannel(d, t, id).0)
  {
    PlacedEverywhere(d);
    var e := DropChannel(d, t, id).0;
    forall i | 0 <= i < |d.filters| ensures AnchorSteady(d, e, i) {
      assert FilterPlaced(d, i);
    }
  }

  lemma AllocateChannelSteady(d: Device, code: nat)
    requires Owned(d)
    ensures Steady(d, AllocateChannel(d, code).0)
  {
    PlacedEverywhere(d);
    var t := TypeOfCode(code);
    if t.Some? {
      var p := d.PoolOf(t.value);
      assert PoolOwned(t.value, p);
      var r := FirstFreeChannel(p.slots);
      if r.Some? {
        assert SlotNamed(t.value, p.slots[r.value], r.value);
      }
    }
  }

  lemma FreeChannelSteady(d: Device, id: nat)
    requires Owned(d)
    ensures Steady(d, FreeChannel(d, id).0)
  {
    var t := TypeOfCode(IdType(id));
    if t.None? {
      PlacedEverywhere(d);
    } else {
      var e := FreeFilterAll(d, id).0;
      FreeFilterAllSteady(d, id);
      FreeFilterAllKeeps(d, id);
      FreeFilterAllEmpties(d, t.value, id);
      DropSteady(e, t.value, id);
      SteadyTrans(d, e, FreeChannel(d, id).0);
    }
  }

  lemma FreeFilterAllEmpties(d: Device, t: ChannelType, id: nat)
    requires Owned(d) && TypeOfCode(IdType(id)) == Some(t)
    ensures var p := FreeFilterAll(d, id).0.PoolOf(t);
      var c := FindChannel(p, id); c.Some? ==> p.slots[c.value].filters == []
  {
    var e := FreeFilterAll(d, id).0;
    FreeFilterAllKeeps(d, id);
    assert PoolOwned(t, e.PoolOf(t)) && PoolOwned(t, d.PoolOf(t));
    FindChannelNamed(t, e.PoolOf(t), id);
    FindChannelNamed(t, d.PoolOf(t), id);
  }

  lemma AllocateFilterSteady(d: Device, id: nat)
    requires Owned(d)
    ensures Steady(d, AllocateFilter(d, id).0)
  {
    PlacedEverywhere(d);
  }

  lemma ApplySteady(f: Filter, s: Setting)
    requires f.Live() && (s.SetPattern? ==> s.pattern.Valid())
    ensures FilterSteady(f, Apply(f, s)) && Apply(f, s).Live()
    ensures Apply(f, s).life == f.life && Apply(f, s).owner == f.owner
  {
    var g := Apply(f, s);
    forall u | ShotsOk(f, u) ensures ShotsOk(g, u) {
      ApplyShots(f, s, u);
    }
    match s
    case Control(_) =>
    case SetPattern(_, _) =>
    case SetCrcCheck(_) =>
    case SetCallbacks(_, _) =>
  }

  lemma ApplyShots(f: Filter, s: Setting, updating: bool)
    requires ShotsOk(f, updating) && (s.SetPattern? ==> s.pattern.Valid())
    ensures ShotsOk(Apply(f, s), updating)
  {}

  lemma ReplaceSteady(d: Device, i: nat, g: Filter)
    requires Owned(d) && i < |d.filters| && FilterSteady(d.filters[i], g) && g.life == d.filters[i].life
    ensures Steady(d, d.(filters := d.filters[i := g]))
  {
    PlacedEverywhere(d);
  }

  lemma SetFilterSteady(d: Device, id: nat, s: Setting)
    requires Owned(d)
    ensures Steady(d, SetFilter(d, id, s).0)
  {
    PlacedEverywhere(d);
    var r := FindFilter(d.filters, id);
    if r.Some? && (s.SetPattern? ==> s.pattern.Valid()) {
      ApplySteady(d.filters[r.value], s);
      ReplaceSteady(d, r.value, Apply(d.filters[r.value], s));
    }
  }

  lemma ControlChannelSteady(d: Device, id: nat, enable: bool)
    requires Owned(d)
    ensures Steady(d, ControlChannel(d, id, enable).0)
  {
    PlacedEverywhere(d);
  }

  lemma CallSteady(d: Device, c: Call)
    requires Owned(d)
    ensures Steady(d, Perform(d, c).0)
  {
    match c
    case CallAllocateChannel(code) => AllocateChannelSteady(d, code);
    case CallFreeChannel(id) => FreeChannelSteady(d, id);
    case CallControlChannel(id, enable) => ControlChannelSteady(d, id, enable);
    case CallAllocateFilter(id) => AllocateFilterSteady(d, id);
    case CallFreeFilter(id) =>
      var r := FindFilter(d.filters, id);
      if r.Some? {
        UnlinkSteady(d, r.value);
      } else {
        PlacedEverywhere(d);
      }
    case CallFreeFilterAll(id) => FreeFilterAllSteady(d, id);
    case CallSetFilter(id, s) => SetFilterSteady(d, id, s);
  }

  lemma SameLifeFilterInv(pc: Pc, i: nat, f: Filter, g: Filter)
    requires FilterInv(pc, i, f) && FilterSteady(f, g) && f.life == g.life
    ensures FilterInv(pc, i, g)
    ensures DeliveredOnce(pc, i, f) ==> DeliveredOnce(pc, i, g)
    ensures !f.Live() ==> DeliveredOnce(pc, i, g)
  {
    assert ShotsOk(g, OnFilter(pc, i, f) && pc.InUpdate());
  }

  lemma NewLifeFilterInv(pc: Pc, i: nat, f: Filter, g: Filter)
    requires FilterInv(pc, i, f) && FilterSteady(f, g) && f.life < g.life
    ensures FilterInv(pc, i, g) && DeliveredOnce(pc, i, g)
  {
    assert !OnFilter(pc, i, g);
  }

  lemma SteadyFilterInv(pc: Pc, i: nat, f: Filter, g: Filter)
    requires FilterInv(pc, i, f) && FilterSteady(f, g)
    ensures FilterInv(pc, i, g)
    ensures DeliveredOnce(pc, i, f) ==> DeliveredOnce(pc, i, g)
    ensures !f.Live() || f.life < g.life ==> DeliveredOnce(pc, i, g)
  {
    if f.life == g.life {
      SameLifeFilterInv(pc, i, f, g);
    } else {
      NewLifeFilterInv(pc, i, f, g);
    }
  }

  lemma SteadyWaiters(d: Device, e: Device, waiting: map<nat, Waiter>)
    requires Steady(d, e) && WaitersInv(d, waiting)
    ensures WaitersInv(e, waiting)
  {
    forall t | t in waiting ensures WaiterOk(e.filters[waiting[t].slot], waiting[t]) {
      assert FilterSteady(d.filters[waiting[t].slot], e.filters[waiting[t].slot]);
    }
  }

  lemma SteadyControllers(d: Device, e: Device, controlling: map<nat, Controller>)
    requires Steady(d, e) && ControllersInv(d, controlling)
    ensures ControllersInv(e, controlling)
  {
    forall t | t in controlling ensures ControllerOk(e.sections.slots[controlling[t].slot], controlling[t]) {
      assert ChannelSteady(d.sections.slots[controlling[t].slot], e.sections.slots[controlling[t].slot]);
    }
  }

  lemma SteadyKeepsInv(s: State, e: Device)
    requires Inv(s) && !s.pc.Scan? && Steady(s.dev, e) && Owned(e)
    ensures Inv(s.(dev := e))
  {
    var pc, d := s.pc, s.dev;
    SteadyWaiters(d, e, s.waiting);
    SteadyControllers(d, e, s.controlling);
    forall i | 0 <= i < |e.filters| ensures FilterInv(pc, i, e.filters[i]) {
      SteadyFilterInv(pc, i, d.filters[i], e.filters[i]);
    }
    if !pc.Idle? {
      var c := pc.v.ch;
      assert ChannelSteady(d.sections.slots[c], e.sections.slots[c]);
      assert FilterSteady(d.filters[pc.slot], e.filters[pc.slot]);
      assert AnchorSteady(d, e, pc.slot);
      assert FilterInv(pc, pc.slot, d.filters[pc.slot]);
      if pc.v.chLife == e.sections.slots[c].life {
        assert ListSteady(d, e, c);
        forall i | i in e.sections.slots[c].filters && i < |e.filters| ensures DeliveredOnce(pc, i, e.filters[i]) {
          SteadyFilterInv(pc, i, d.filters[i], e.filters[i]);
        }
      }
    }
  }
}
