/** Every step of the dispatcher keeps the invariant, hence every run does. */
module DispatchSteps {
  import opened Device
  import opened Slots
  import opened Dispatch
  import opened DispatchSafety

  /** The dispatcher's own writes: stamps of allocated channels, and filter fields that say nothing about ownership. */
  ghost predicate Alike(d: Device, e: Device) {
    && e.records == d.records && e.services == d.services && e.streams == d.streams
    && e.sections.order == d.sections.order
    && |e.sections.slots| == |d.sections.slots| && |e.filters| == |d.filters|
    && (forall c :: 0 <= c < |d.sections.slots| ==> AlikeChannel(d.sections.slots[c], e.sections.slots[c]))
    && (forall i :: 0 <= i < |d.filters| ==> AlikeFilter(d.filters[i], e.filters[i]))
  }

  ghost predicate AlikeChannel(b: Channel, c: Channel) {
    c == b.(session := c.session) && (b.Live() || c.session == b.session)
  }

  ghost predicate AlikeFilter(f: Filter, g: Filter) {
    g.id == f.id && g.Live() == f.Live() && g.owner == f.owner && g.pattern == f.pattern && g.life == f.life
    && (f.waitClose ==> g.waitClose)
  }

  lemma AlikeOwned(d: Device, e: Device)
    requires Owned(d) && Alike(d, e)
    ensures Owned(e)
  {
    forall t ensures PoolOwned(t, e.PoolOf(t)) {
      assert PoolOwned(t, d.PoolOf(t));
      if t == Section {
        forall c | 0 <= c < |e.sections.slots| ensures SlotNamed(Section, e.sections.slots[c], c) {
          assert SlotNamed(Section, d.sections.slots[c], c) && AlikeChannel(d.sections.slots[c], e.sections.slots[c]);
        }
        forall c: nat ensures c in e.sections.order <==> c < |e.sections.slots| && e.sections.slots[c].Live() {
          assert c < |d.sections.slots| ==> AlikeChannel(d.sections.slots[c], e.sections.slots[c]);
        }
      }
    }
    forall i | 0 <= i < |e.filters| ensures e.filters[i].pattern.Valid() && FilterPlaced(e, i) {
      assert FilterPlaced(d, i) && AlikeFilter(d.filters[i], e.filters[i]);
      var c := d.filters[i].owner;
      assert d.filters[i].Live() ==> AlikeChannel(d.sections.slots[c], e.sections.slots[c]);
    }
    forall c | 0 <= c < |e.sections.slots| ensures ListOwned(e, c) {
      assert ListOwned(d, c) && AlikeChannel(d.sections.slots[c], e.sections.slots[c]);
      forall i: nat | i in e.sections.slots[c].filters
        ensures i < |e.filters| && e.filters[i].Live() && e.filters[i].owner == c
      {
        assert AlikeFilter(d.filters[i], e.filters[i]);
      }
    }
  }

  lemma AlikePending(s: State, e: Device)
    requires Alike(s.dev, e) && WaitersInv(s.dev, s.waiting) && ControllersInv(s.dev, s.controlling)
    ensures WaitersInv(e, s.waiting) && ControllersInv(e, s.controlling)
  {
    forall t | t in s.waiting ensures WaiterOk(e.filters[s.waiting[t].slot], s.waiting[t]) {
      assert AlikeFilter(s.dev.filters[s.waiting[t].slot], e.filters[s.waiting[t].slot]);
    }
    forall t | t in s.controlling ensures ControllerOk(e.sections.slots[s.controlling[t].slot], s.controlling[t]) {
      assert AlikeChannel(s.dev.sections.slots[s.controlling[t].slot], e.sections.slots[s.controlling[t].slot]);
    }
  }

  // While the lock is held the dispatcher stands on some filter of the list, or at its head.

  ghost predicate OnList(d: Device, c: nat, at: Option<nat>) {
    at.Some? ==> c < |d.sections.slots| && at.value in d.sections.slots[c].filters
  }

  /** A slot the dispatcher is not visiting does not see it move. */
  lemma OtherFilter(pc: Pc, pc': Pc, k: nat, f: Filter)
    requires FilterInv(pc, k, f)
    requires !(pc.AtFilter() && pc.slot == k) && !(pc'.AtFilter() && pc'.slot == k)
    ensures FilterInv(pc', k, f)
    ensures DeliveredOnce(pc, k, f) ==> DeliveredOnce(pc', k, f)
  {
    assert !OnFilter(pc, k, f) && !OnFilter(pc', k, f);
  }

  lemma MoveKeeps(s: State, v: Visit, at: Option<nat>, v': Visit, at': Option<nat>)
    requires Inv(s.(pc := Scan(v, at))) && v'.ch == v.ch && v'.chLife == v.chLife && OnList(s.dev, v.ch, at')
    ensures Inv(s.(pc := Scan(v', at')))
  {
    var pc, pc' := Scan(v, at), Scan(v', at');
    forall i | 0 <= i < |s.dev.filters| ensures FilterInv(pc', i, s.dev.filters[i]) {
      assert FilterInv(pc, i, s.dev.filters[i]);
    }
    var listed := s.dev.sections.slots[v.ch].filters;
    forall i | i in listed && i < |s.dev.filters| ensures DeliveredOnce(pc', i, s.dev.filters[i]) {
      assert DeliveredOnce(pc, i, s.dev.filters[i]);
    }
  }

  lemma TouchKeeps(s: State, v: Visit, at: Option<nat>, i: nat, g: Filter)
    requires Inv(s.(pc := Scan(v, at))) && i < |s.dev.filters|
    requires AlikeFilter(s.dev.filters[i], g)
    requires FilterInv(Scan(v, at), i, g) && DeliveredOnce(Scan(v, at), i, g)
    ensures Inv(WithFilter(s, i, g).(pc := Scan(v, at)))
  {
    var pc, t := Scan(v, at), WithFilter(s, i, g).(pc := Scan(v, at));
    AlikeOwned(s.dev, t.dev);
    AlikePending(s, t.dev);
    forall k | 0 <= k < |t.dev.filters| ensures FilterInv(pc, k, t.dev.filters[k]) {
      assert FilterInv(pc, k, s.dev.filters[k]);
    }
  }

  /** Leave the visit of `pc.slot` with the lock held, the slot rewritten as `g`. */
  function Leave(s: State, g: Filter, at: Option<nat>): State
    requires Shaped(s) && s.pc.AtFilter()
  {
    WithSession(WithFilter(s, s.pc.slot, g), s.pc.v.ch, Cleared).(pc := Scan(s.pc.v, at))
  }

  lemma LeaveKeeps(s: State, g: Filter, at: Option<nat>)
    requires Inv(s) && Shaped(s) && s.pc.AtFilter() && ChannelCheck(s)
    requires AlikeFilter(FilterAt(s, s.pc.slot), g) && OnList(s.dev, s.pc.v.ch, at)
    requires FilterInv(Scan(s.pc.v, at), s.pc.slot, g)
    requires s.pc.slot in Listed(s, s.pc.v.ch) ==> DeliveredOnce(Scan(s.pc.v, at), s.pc.slot, g)
    ensures Inv(Leave(s, g, at))
  {
    var i := s.pc.slot;
    var t := Leave(s, g, at);
    AlikeOwned(s.dev, t.dev);
    AlikePending(s, t.dev);
    forall k | 0 <= k < |t.dev.filters| && k != i
      ensures FilterInv(t.pc, k, t.dev.filters[k])
      ensures DeliveredOnce(s.pc, k, s.dev.filters[k]) ==> DeliveredOnce(t.pc, k, t.dev.filters[k])
    {
      OtherFilter(s.pc, t.pc, k, s.dev.filters[k]);
    }
  }

  lemma ResumeKeeps(s: State, v: Visit, at: Option<nat>)
    requires Inv(s.(pc := Scan(v, at))) && (at.Some? ==> at.value < |s.dev.filters|)
    ensures Inv(Resume(s, v, at))
  {
    if at.Some? {
      var i := at.value;
      var f := FilterAt(s, i);
      assert FilterInv(Scan(v, at), i, f) && DeliveredOnce(Scan(v, at), i, f);
      assert ListOwned(s.dev, v.ch);
      TouchKeeps(s, v, at, i, f.(session := Cleared));
    }
  }

  /** Enter a callback of filter `i`, rewritten as `g`: both stamps are set and the lock is dropped. */
  lemma EnterKeeps(s: State, v: Visit, i: nat, g: Filter, pc: Pc, log: seq<Event>)
    requires Inv(s.(pc := Scan(v, Some(i)))) && i < |s.dev.filters| && v.ch < |s.dev.sections.slots|
    requires AlikeFilter(FilterAt(s, i), g) && g.session == Stamped
    requires pc.InCallback() && pc.v == v && pc.slot == i && pc.life == g.life
    requires FilterInv(pc, i, g) && DeliveredOnce(pc, i, g) && LogInv(log, pc)
    ensures Inv(WithSession(WithFilter(s, i, g), v.ch, Stamped).(pc := pc, log := log))
  {
    var scan := Scan(v, Some(i));
    var t := WithSession(WithFilter(s, i, g), v.ch, Stamped).(pc := pc, log := log);
    AlikeOwned(s.dev, t.dev);
    AlikePending(s, t.dev);
    forall k | 0 <= k < |t.dev.filters| && k != i
      ensures FilterInv(pc, k, t.dev.filters[k])
      ensures DeliveredOnce(scan, k, s.dev.filters[k]) ==> DeliveredOnce(pc, k, t.dev.filters[k])
    {
      OtherFilter(scan, pc, k, s.dev.filters[k]);
    }
  }

  lemma UpdateEntered(v: Visit, i: nat, f: Filter, at: Option<nat>)
    requires FilterInv(Scan(v, at), i, f) && DeliveredOnce(Scan(v, at), i, f)
    requires f.status == Enabled && f.owner == v.ch && !f.access && f.late == 0
    ensures
      var g := Telling(f);
      FilterInv(Updating(v, i, f.life), i, g) && DeliveredOnce(Updating(v, i, f.life), i, g)
  {}

  lemma RequestEntered(v: Visit, i: nat, f: Filter, at: Option<nat>)
    requires FilterInv(Scan(v, at), i, f) && DeliveredOnce(Scan(v, at), i, f)
    requires f.status == Enabled && f.owner == v.ch && !f.access && !f.waitClose
    ensures
      var g := Asking(f);
      FilterInv(Requesting(v, i, f.life), i, g) && DeliveredOnce(Requesting(v, i, f.life), i, g)
  {}

  /** Standing on filter `i` with the lock held, call its update callback or finish it. */
  lemma DeliverKeeps(s: State, v: Visit, i: nat, buffered: bool)
    requires Inv(s.(pc := Scan(v, Some(i)))) && i < |s.dev.filters| && v.ch < |s.dev.sections.slots|
    requires var f := FilterAt(s, i); f.status == Enabled && !f.access && f.late == 0
    requires buffered ==> EndsWithRequest(s.log, i, FilterAt(s, i).life, true)
    ensures Inv(Deliver(s, v, i, buffered))
  {
    var f := FilterAt(s, i);
    if f.hasUpdate {
      assert ListOwned(s.dev, v.ch);
      UpdateEntered(v, i, f, Some(i));
      var event := UpdateBegins(i, f.life, buffered, v.section);
      LogGrows(s.log, Scan(v, Some(i)), event, Updating(v, i, f.life));
      EnterKeeps(s, v, i, Telling(f), Updating(v, i, f.life), s.log + [event]);
    } else {
      FinishKeeps(s, v, i);
    }
  }

  lemma FinishedFilter(pc: Pc, i: nat, f: Filter)
    requires FilterInv(pc, i, f) && DeliveredOnce(pc, i, f) && pc.Scan? && f.Live()
    ensures var g := f.(status := if f.status == Enabled && !f.continuous then Disabled else f.status, access := true);
      AlikeFilter(f, g) && FilterInv(pc, i, g) && DeliveredOnce(pc, i, g)
  {}

  lemma FinishKeeps(s: State, v: Visit, i: nat)
    requires Inv(s.(pc := Scan(v, Some(i)))) && i < |s.dev.filters| && v.ch < |s.dev.sections.slots|
    ensures Inv(Finish(s, v, i))
  {
    var f := FilterAt(s, i);
    var pc := Scan(v, Some(i));
    assert FilterInv(pc, i, f) && DeliveredOnce(pc, i, f);
    var g := f.(status := if f.status == Enabled && !f.continuous then Disabled else f.status, access := true);
    assert ListOwned(s.dev, v.ch);
    FinishedFilter(pc, i, f);
    TouchKeeps(s, v, Some(i), i, g);
    MoveKeeps(WithFilter(s, i, g), v, Some(i), v, NextAfter(Listed(s, v.ch), i));
  }

  lemma RequestKeeps(s: State, v: Visit, i: nat)
    requires Inv(s.(pc := Scan(v, Some(i)))) && i < |s.dev.filters| && v.ch < |s.dev.sections.slots|
    requires var f := FilterAt(s, i); f.status == Enabled && !f.access && !f.waitClose
    ensures
      var f := FilterAt(s, i);
      Inv(WithSession(WithFilter(s, i, Asking(f)), v.ch, Stamped)
        .(pc := Requesting(v, i, f.life), log := s.log + [RequestBegins(i, f.life)]))
  {
    var f := FilterAt(s, i);
    assert ListOwned(s.dev, v.ch);
    assert FilterInv(Scan(v, Some(i)), i, f);
    RequestEntered(v, i, f, Some(i));
    LogGrows(s.log, Scan(v, Some(i)), RequestBegins(i, f.life), Requesting(v, i, f.life));
    EnterKeeps(s, v, i, Asking(f), Requesting(v, i, f.life), s.log + [RequestBegins(i, f.life)]);
  }

  /** The filter the scan stands on does not get the section: it is marked and passed. */
  lemma MarkAndPassKeeps(s: State, v: Visit, i: nat)
    requires Inv(s.(pc := Scan(v, Some(i)))) && i < |s.dev.filters| && v.ch < |s.dev.sections.slots|
    ensures Inv(ScanNext(WithFilter(s, i, FilterAt(s, i).(access := true)), v, i))
  {
    var pc, f := Scan(v, Some(i)), FilterAt(s, i);
    assert FilterInv(pc, i, f) && DeliveredOnce(pc, i, f);
    assert ListOwned(s.dev, v.ch);
    TouchKeeps(s, v, Some(i), i, f.(access := true));
    MoveKeeps(WithFilter(s, i, f.(access := true)), v, Some(i), v, NextAfter(Listed(s, v.ch), i));
  }

  /** ... or it does, unless the shared check of the section fails for it. */
  lemma HitKeeps(s: State, v: Visit, i: nat)
    requires Inv(s) && Shaped(s) && s.pc == Scan(v, Some(i))
    requires var f := FilterAt(s, i); f.status == Enabled && !f.access && !f.waitClose && Hit(f, v.section)
    ensures Inv(ScanStep(s))
  {
    var f := FilterAt(s, i);
    var v' := if f.crcCheck then CheckCrc(v) else v;
    assert FilterInv(s.pc, i, f);
    MoveKeeps(s, v, Some(i), v', Some(i));
    if f.crcCheck && v'.crcWrong {
      MarkAndPassKeeps(s, v', i);
    } else if f.hasRequest {
      RequestKeeps(s, v', i);
    } else {
      DeliverKeeps(s, v', i, false);
    }
  }

  lemma ScanKeeps(s: State)
    requires Inv(s) && Shaped(s) && s.pc.Scan?
    ensures Inv(ScanStep(s))
  {
    var v, at := s.pc.v, s.pc.at;
    if at.None? {
      EndKeeps(s);
    } else {
      var i := at.value;
      var f := FilterAt(s, i);
      if f.status != Enabled || f.access || f.waitClose {
        MoveKeeps(s, v, at, v, NextAfter(Listed(s, v.ch), i));
      } else if Hit(f, v.section) {
        HitKeeps(s, v, i);
      } else {
        MarkAndPassKeeps(s, v, i);
      }
    }
  }

  /** Ending the dispatch while standing on the list. */
  lemma EndKeeps(s: State)
    requires Inv(s) && s.pc.Scan?
    ensures Inv(s.(pc := Idle))
  {
    forall k | 0 <= k < |s.dev.filters| ensures FilterInv(Idle, k, s.dev.filters[k]) {
      assert FilterInv(s.pc, k, s.dev.filters[k]);
    }
  }

  lemma BeginKeeps(s: State, ch: nat, section: seq<bv8>)
    requires Inv(s) && s.pc.Idle? && ch < |s.dev.sections.slots| && s.dev.sections.slots[ch].status == Enabled
    ensures Inv(Begin(s, ch, section))
  {
    var t := Begin(s, ch, section);
    AlikeOwned(s.dev, t.dev);
    AlikePending(s, t.dev);
    assert ListOwned(s.dev, ch);
    forall k | 0 <= k < |t.dev.filters| ensures FilterInv(t.pc, k, t.dev.filters[k]) {
      assert FilterInv(s.pc, k, s.dev.filters[k]);
      BegunFilter(s.pc, t.pc, k, s.dev.filters[k]);
    }
  }

  lemma BegunFilter(pc: Pc, pc': Pc, k: nat, f: Filter)
    requires FilterInv(pc, k, f) && pc.Idle? && pc'.Scan?
    ensures FilterInv(pc', k, f)
    ensures f.Live() ==> FilterInv(pc', k, f.(access := false, delivered := 0, halted := 0))
  {}

  lemma RequestReturnsKeeps(s: State, granted: bool)
    requires Inv(s) && Shaped(s) && s.pc.Requesting?
    ensures Inv(RequestReturns(s, granted))
  {
    var pc, event := Requested(s.pc.v, s.pc.slot, s.pc.life, granted), RequestEnds(s.pc.slot, s.pc.life, granted);
    LogGrows(s.log, s.pc, event, pc);
    ReturnKeeps(s, pc, s.log + [event]);
  }

  lemma UpdateReturnsKeeps(s: State)
    requires Inv(s) && Shaped(s) && s.pc.Updating?
    ensures Inv(UpdateReturns(s))
  {
    ReturnKeeps(s, Updated(s.pc.v, s.pc.slot, s.pc.life), s.log);
  }

  /** The flag write after a callback goes to whatever incarnation the slot holds by then. */
  lemma ReturnKeeps(s: State, pc: Pc, log: seq<Event>)
    requires Inv(s) && Shaped(s) && s.pc.InCallback() && pc.AtFilter() && !pc.InCallback() && LogInv(log, pc)
    requires pc.InRequest() == s.pc.InRequest() && pc.v == s.pc.v && pc.slot == s.pc.slot && pc.life == s.pc.life
    ensures Inv(WithFilter(s, s.pc.slot, FilterAt(s, s.pc.slot).(flag := FlagDispatch)).(pc := pc, log := log))
  {
    var t := WithFilter(s, s.pc.slot, FilterAt(s, s.pc.slot).(flag := FlagDispatch)).(pc := pc, log := log);
    AlikeOwned(s.dev, t.dev);
    AlikePending(s, t.dev);
    forall k | 0 <= k < |t.dev.filters|
      ensures FilterInv(t.pc, k, t.dev.filters[k])
      ensures DeliveredOnce(s.pc, k, s.dev.filters[k]) ==> DeliveredOnce(t.pc, k, t.dev.filters[k])
    {
      ReturnedOne(s, pc, k);
    }
    ReturnedChannel(s.dev, s.pc, t.dev, pc);
  }

  lemma ReturnedOne(s: State, pc: Pc, k: nat)
    requires Shaped(s) && s.pc.InCallback() && pc.AtFilter() && !pc.InCallback() && k < |s.dev.filters|
    requires pc.InRequest() == s.pc.InRequest() && pc.v == s.pc.v && pc.slot == s.pc.slot && pc.life == s.pc.life
    requires FilterInv(s.pc, k, s.dev.filters[k])
    ensures
      var g := if k == s.pc.slot then s.dev.filters[k].(flag := FlagDispatch) else s.dev.filters[k];
      FilterInv(pc, k, g) && (DeliveredOnce(s.pc, k, s.dev.filters[k]) ==> DeliveredOnce(pc, k, g))
  {
    if k == s.pc.slot {
      ReturnedFilter(s.pc, pc, k, s.dev.filters[k]);
    } else {
      OtherFilter(s.pc, pc, k, s.dev.filters[k]);
    }
  }

  lemma ReturnedChannel(d: Device, pc: Pc, e: Device, pc': Pc)
    requires ChannelInv(d, pc) && pc.AtFilter() && pc'.AtFilter()
    requires pc'.v == pc.v && pc'.slot == pc.slot && pc'.life == pc.life
    requires e.sections == d.sections && |e.filters| == |d.filters|
    requires e.filters[pc.slot].life == d.filters[pc.slot].life
    requires forall k :: 0 <= k < |d.filters| && DeliveredOnce(pc, k, d.filters[k]) ==>
      DeliveredOnce(pc', k, e.filters[k])
    ensures ChannelInv(e, pc')
  {}

  lemma ReturnedFilter(pc: Pc, pc': Pc, i: nat, f: Filter)
    requires FilterInv(pc, i, f) && pc.InCallback() && pc'.AtFilter() && !pc'.InCallback()
    requires pc'.InRequest() == pc.InRequest() && pc'.v == pc.v && pc'.slot == pc.slot == i && pc'.life == pc.life
    ensures FilterInv(pc', i, f.(flag := FlagDispatch))
    ensures DeliveredOnce(pc, i, f) ==> DeliveredOnce(pc', i, f.(flag := FlagDispatch))
  {}

  lemma AbandonKeeps(s: State, g: Filter)
    requires Inv(s) && Shaped(s) && s.pc.AtFilter() && !s.pc.InCallback()
    requires AlikeFilter(FilterAt(s, s.pc.slot), g) && FilterInv(Idle, s.pc.slot, g)
    ensures Inv(WithFilter(s, s.pc.slot, g).(pc := Idle))
  {
    var t := WithFilter(s, s.pc.slot, g).(pc := Idle);
    AlikeOwned(s.dev, t.dev);
    AlikePending(s, t.dev);
    forall k | 0 <= k < |t.dev.filters| && k != s.pc.slot ensures FilterInv(t.pc, k, t.dev.filters[k]) {
      OtherFilter(s.pc, t.pc, k, s.dev.filters[k]);
    }
  }

  /** The slot a callback was made for, seen again under the lock: the stamp is there exactly when the
      slot was not freed meanwhile, and then the filter is still live and on its list. */
  lemma VisitedSlot(s: State)
    requires Inv(s) && Shaped(s) && s.pc.AtFilter()
    ensures var f := FilterAt(s, s.pc.slot);
      && FilterInv(s.pc, s.pc.slot, f)
      && (FilterCheck(s) <==> f.life == s.pc.life)
      && (FilterCheck(s) ==> f.Live() && s.pc.slot in Listed(s, s.pc.v.ch))
  {
    var f := FilterAt(s, s.pc.slot);
    assert FilterInv(s.pc, s.pc.slot, f) && FilterPlaced(s.dev, s.pc.slot);
  }

  lemma UnlessUpdated(pc: Pc, pc': Pc, i: nat, f: Filter)
    requires FilterInv(pc, i, f) && pc.AtFilter() && !pc.InCallback() && pc.slot == i && !pc'.AtFilter()
    requires pc.InRequest() || f.life != pc.life
    ensures FilterInv(pc', i, f)
    ensures DeliveredOnce(pc, i, f) ==> DeliveredOnce(pc', i, f)
  {}

  /** Skipping a stopped filter, or walking again from the list head. */
  lemma RejoinKeeps(s: State, g: Filter)
    requires Inv(s) && Shaped(s) && s.pc.AtFilter() && ChannelCheck(s)
    requires AlikeFilter(FilterAt(s, s.pc.slot), g) && g.session == FilterAt(s, s.pc.slot).session
    requires g.session == Stamped ==> g.status == Disabled
    requires FilterInv(Scan(s.pc.v, None), s.pc.slot, g)
    requires s.pc.slot in Listed(s, s.pc.v.ch) ==> DeliveredOnce(Scan(s.pc.v, None), s.pc.slot, g)
    ensures var t := WithFilter(WithSession(s, s.pc.v.ch, Cleared), s.pc.slot, g);
      Shaped(t) && Rejoin(t).Some? && Inv(Rejoin(t).value)
  {
    var v, i := s.pc.v, s.pc.slot;
    var t := WithFilter(WithSession(s, v.ch, Cleared), i, g);
    var at := if g.session == Stamped then NextAfter(Listed(s, v.ch), i) else First(Listed(s, v.ch));
    LeaveKeeps(s, g, None);
    var u := Leave(s, g, None);
    MoveKeeps(u, v, None, v, at);
    assert u.(pc := Scan(v, at)) == t.(pc := Scan(v, at));
    assert ListOwned(s.dev, v.ch);
    ResumeKeeps(t, v, at);
    assert Rejoin(t) == Some(Resume(t, v, at));
  }

  lemma SameFilter(s: State, i: nat)
    requires i < |s.dev.filters|
    ensures WithFilter(s, i, FilterAt(s, i)) == s
  {
    assert s.dev.filters[i := s.dev.filters[i]] == s.dev.filters;
  }

  lemma AfterRequestKeeps(s: State)
    requires Inv(s) && Shaped(s) && s.pc.Requested?
    ensures Inv(RequestedStep(s))
  {
    var v, i := s.pc.v, s.pc.slot;
    var f := FilterAt(s, i);
    VisitedSlot(s);
    UnlessUpdated(s.pc, Idle, i, f);
    UnlessUpdated(s.pc, Scan(v, Some(i)), i, f);
    UnlessUpdated(s.pc, Scan(v, None), i, f);
    SameFilter(s, i);
    if !ChannelCheck(s) {
      AbandonKeeps(s, f);
    } else {
      var t := WithSession(s, v.ch, Cleared);
      SameFilter(t, i);
      if FilterCheck(s) && f.status == Enabled {
        LeaveKeeps(s, f, Some(i));
        if s.pc.granted {
          DeliverKeeps(t, v, i, true);
        } else {
          MoveKeeps(t, v, Some(i), v, NextAfter(Listed(t, v.ch), i));
        }
      } else {
        RejoinKeeps(s, f);
      }
    }
  }

  /** The filter is still there and enabled: it is finished. */
  lemma AfterUpdateFinishes(s: State)
    requires Inv(s) && Shaped(s) && s.pc.Updated? && ChannelCheck(s) && FilterCheck(s)
    requires FilterAt(s, s.pc.slot).status == Enabled
    ensures Inv(UpdatedStep(s))
  {
    var v, i := s.pc.v, s.pc.slot;
    var f := FilterAt(s, i);
    VisitedSlot(s);
    assert DeliveredOnce(s.pc, i, f);
    var at := NextAfter(Listed(s, v.ch), i);
    var g := f.(status := if !f.continuous then Disabled else f.status, access := true);
    LeaveKeeps(s, g, at);
    assert Finish(WithSession(s, v.ch, Cleared), v, i) == Leave(s, g, at);
  }

  lemma AfterUpdateRejoins(s: State)
    requires Inv(s) && Shaped(s) && s.pc.Updated? && ChannelCheck(s)
    requires !FilterCheck(s) || FilterAt(s, s.pc.slot).status != Enabled
    ensures Inv(UpdatedStep(s))
  {
    var v, i := s.pc.v, s.pc.slot;
    var f := FilterAt(s, i);
    VisitedSlot(s);
    SameFilter(WithSession(s, v.ch, Cleared), i);
    if !FilterCheck(s) {
      UnlessUpdated(s.pc, Scan(v, None), i, f);
      RejoinKeeps(s, f);
    } else {
      assert DeliveredOnce(s.pc, i, f);
      RejoinKeeps(s, f.(halted := f.halted + 1));
    }
  }

  lemma AfterUpdateKeeps(s: State)
    requires Inv(s) && Shaped(s) && s.pc.Updated?
    ensures Inv(UpdatedStep(s))
  {
    var i := s.pc.slot;
    var f := FilterAt(s, i);
    if !ChannelCheck(s) {
      VisitedSlot(s);
      AbandonKeeps(s, f.(escaped := f.escaped || f.life == s.pc.life));
    } else if FilterCheck(s) && f.status == Enabled {
      AfterUpdateFinishes(s);
    } else {
      AfterUpdateRejoins(s);
    }
  }

  /** Marking a filter whose callback runs. */
  lemma MarkKeeps(s: State, t: nat, w: Waiter)
    requires Inv(s) && !s.pc.Scan? && w.slot < |s.dev.filters|
    requires var f := FilterAt(s, w.slot); f.flag == FlagCallback && w.life <= f.life && f.Live()
    ensures Inv(TryFree(s, t, w))
  {
    var r := TryFree(s, t, w);
    AlikeOwned(s.dev, r.dev);
    AlikePending(s, r.dev);
    forall k | 0 <= k < |r.dev.filters| ensures FilterInv(r.pc, k, r.dev.filters[k]) {
      assert FilterInv(s.pc, k, s.dev.filters[k]);
    }
    assert FilterInv(s.pc, w.slot, FilterAt(s, w.slot));
    if s.pc.v.chLife == s.dev.sections.slots[s.pc.v.ch].life {
      forall k | k in s.dev.sections.slots[s.pc.v.ch].filters && k < |r.dev.filters|
        ensures DeliveredOnce(r.pc, k, r.dev.filters[k])
      {
        assert DeliveredOnce(s.pc, k, s.dev.filters[k]);
      }
    }
  }

  lemma TryFreeKeeps(s: State, t: nat, w: Waiter)
    requires Inv(s) && !s.pc.Scan? && w.slot < |s.dev.filters| && w.life <= FilterAt(s, w.slot).life
    ensures Inv(TryFree(s, t, w))
  {
    var i := w.slot;
    var f := FilterAt(s, i);
    assert FilterInv(s.pc, i, f);
    if f.flag == FlagCallback {
      MarkKeeps(s, t, w);
    } else if f.Live() {
      UnlinkFilterKeeps(s.dev, i);
      UnlinkSteady(s.dev, i);
      SteadyKeepsInv(s, UnlinkFilter(s.dev, i));
    }
  }

  lemma DropKeeps(s: State, id: nat)
    requires Inv(s) && !s.pc.Scan? && TypeOfCode(IdType(id)).Some?
    ensures Inv(SecondHalf(s, id))
  {
    if Droppable(s.dev, id) {
      var t := TypeOfCode(IdType(id)).value;
      DropChannelKeeps(s.dev, t, id);
      DropSteady(s.dev, t, id);
      SteadyKeepsInv(s, DropChannel(s.dev, t, id).0);
    }
  }

  lemma FindsKeeps(s: State, t: nat, id: nat, enable: bool)
    requires Inv(s) && Possible(s, ControlFinds(t, id, enable))
    ensures Inv(Take(s, ControlFinds(t, id, enable)))
  {
    assert PoolOwned(Section, s.dev.PoolOf(Section));
    FindChannelNamed(Section, s.dev.sections, id);
  }

  lemma ActKeeps(s: State, t: nat)
    requires Inv(s) && Possible(s, ControlActs(t))
    ensures Inv(Act(s, t))
  {
    var k := s.controlling[t];
    if s.dev.sections.slots[k.slot].Live() {
      var e := SetChannelStatus(s.dev, k.slot, k.enable);
      SetStatusIsCall(s.dev, k.slot, k.enable);
      ControlChannelSteady(s.dev, ChannelId(Section, k.slot), k.enable);
      SteadyKeepsInv(s, e);
    }
  }

  lemma CallKeeps(s: State, call: Call)
    requires Inv(s) && !s.pc.Scan?
    ensures Inv(s.(dev := Perform(s.dev, call).0))
  {
    CallKeepsOwnership(s.dev, call);
    CallSteady(s.dev, call);
    SteadyKeepsInv(s, Perform(s.dev, call).0);
  }

  lemma DispatcherKeepsInv(s: State, step: Step)
    requires Inv(s) && Possible(s, step) && DispatcherStep(step)
    ensures Inv(Take(s, step))
  {
    match step
    case BeginStep(ch, section) => BeginKeeps(s, ch, section);
    case ScanOne => ScanKeeps(s);
    case RequestDone(granted) => RequestReturnsKeeps(s, granted);
    case AfterRequest => AfterRequestKeeps(s);
    case UpdateDone => UpdateReturnsKeeps(s);
    case AfterUpdate => AfterUpdateKeeps(s);
  }

  lemma FreeKeepsInv(s: State, step: Step)
    requires Inv(s) && Possible(s, step) && (step.FreeBegins? || step.FreeRetries?)
    ensures Inv(Take(s, step))
  {
    if step.FreeRetries? {
      TryFreeKeeps(s, step.thread, s.waiting[step.thread]);
    } else {
      var r := FindFilter(s.dev.filters, step.id);
      if r.Some? {
        TryFreeKeeps(s, step.thread, Waiter(r.value, FilterAt(s, r.value).life));
      }
    }
  }

  lemma StepKeepsInv(s: State, step: Step)
    requires Inv(s) && Possible(s, step)
    ensures Inv(Take(s, step))
  {
    if DispatcherStep(step) {
      DispatcherKeepsInv(s, step);
    } else {
      match step
      case ByCallback(call) => CallKeeps(s, call);
      case ByThread(call) => CallKeeps(s, call);
      case DropsChannel(id) => DropKeeps(s, id);
      case ControlFinds(t, id, enable) => FindsKeeps(s, t, id, enable);
      case ControlTests(_, _) => TestKeeps(s, step);
      case ControlActs(t) => ActKeeps(s, t);
      case ControlQuits(_) => TestKeeps(s, step);
      case _ => FreeKeepsInv(s, step);
    }
  }

  lemma TestKeeps(s: State, step: Step)
    requires Inv(s) && Possible(s, step) && (step.ControlTests? || step.ControlQuits?)
    ensures Inv(Take(s, step))
  {}

  /** `s'` is reached from `s` by these steps. */
  ghost predicate Runs(s: State, steps: seq<Step>, s': State)
    decreases |steps|
  {
    if steps == [] then s' == s
    else Possible(s, steps[0]) && Runs(Take(s, steps[0]), steps[1..], s')
  }

  lemma {:induction false} RunKeepsInv(s: State, steps: seq<Step>, s': State)
    requires Inv(s) && Runs(s, steps, s')
    ensures Inv(s')
    decreases |steps|
  {
    if steps != [] {
      StepKeepsInv(s, steps[0]);
      RunKeepsInv(Take(s, steps[0]), steps[1..], s');
    }
  }
}
