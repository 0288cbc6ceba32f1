/** What callers are told, and what the calls do to the slot the answer or the id names. */
module SlotAnswers {
  import opened Sequences
  import opened SectionMatch
  import opened Device
  import opened Slots

  /** The id names the slot of a channel of the type. */
  ghost predicate Names(d: Device, t: ChannelType, id: nat, i: nat) {
    i < |d.PoolOf(t).slots| && d.PoolOf(t).slots[i].Live() && id == ChannelId(t, i)
  }

  /** There is a channel of that id. */
  ghost predicate Known(d: Device, id: nat) {
    && TypeOfCode(IdType(id)).Some?
    && var t := TypeOfCode(IdType(id)).value; Names(d, t, id, IdIndex(id))
  }

  lemma FindKnown(d: Device, id: nat, t: ChannelType)
    requires Owned(d) && TypeOfCode(IdType(id)) == Some(t)
    ensures FindChannel(d.PoolOf(t), id) == if Known(d, id) then Some(IdIndex(id)) else None
  {
    assert PoolOwned(t, d.PoolOf(t));
    FindChannelNamed(t, d.PoolOf(t), id);
  }

  // Allocation.

  /** One slot of a pool changed, and it is the last on the list now. */
  ghost predicate OnlySlot(p: Pool, q: Pool, i: nat) {
    && i < |p.slots| == |q.slots| && q.order == p.order + [i]
    && forall k :: 0 <= k < |p.slots| && k != i ==> q.slots[k] == p.slots[k]
  }

  ghost predicate OtherPoolsSame(d: Device, e: Device, t: ChannelType) {
    forall u :: u != t ==> e.PoolOf(u) == d.PoolOf(u)
  }

  /** A new channel is told by an id that finds it: the first slot of its type that was free, now stopped and last on
      the list, with nothing else changed. */
  lemma AllocatedChannelIs(d: Device, code: nat)
    requires Owned(d)
    ensures
      var r := AllocateChannel(d, code); var e, answer := r.0, r.1;
      && (answer == Fail(BadChannelType) <==> TypeOfCode(code).None?)
      && (!answer.Ok? ==> e == d)
      && (answer.Ok? ==>
            var t, i := TypeOfCode(code), IdIndex(answer.id);
            && t.Some? && TypeOfCode(IdType(answer.id)) == t
            && var p, q := d.PoolOf(t.value), e.PoolOf(t.value);
            && OnlySlot(p, q, i) && OtherPoolsSame(d, e, t.value) && e.filters == d.filters
            && !p.slots[i].Live() && (forall k :: 0 <= k < i ==> p.slots[k].Live())
            && q.slots[i].status == Disabled && q.slots[i].filters == [] && q.slots[i].fltCnt == 0
            && q.slots[i].id == answer.id && FindChannel(q, answer.id) == Some(i))
  {
    var kind := TypeOfCode(code);
    if kind.Some? {
      var t := kind.value;
      var p := d.PoolOf(t);
      assert PoolOwned(t, p);
      var r := FirstFreeChannel(p.slots);
      if r.Some? {
        var i := r.value;
        assert SlotNamed(t, p.slots[i], i);
        IdDecodes(t, i);
        AllocateChannelKeeps(d, code);
        var e := AllocateChannel(d, code).0;
        FindKnown(e, ChannelId(t, i), t);
      }
    }
  }

  /** A new filter is told by the number of its slot, the first that was free, which is stopped now, is found by that
      number and is the last of the channel's list; nothing else changes. */
  lemma AllocatedFilterIs(d: Device, id: nat)
    requires Owned(d)
    ensures
      var r := AllocateFilter(d, id); var e, answer := r.0, r.1;
      && (answer == Fail(BadChannelType) <==> TypeOfCode(IdType(id)) != Some(Section))
      && (answer == Fail(NoChannel) <==> TypeOfCode(IdType(id)) == Some(Section) && !Known(d, id))
      && (!answer.Ok? ==> e == d)
      && (answer.Ok? ==>
            var c, i := IdIndex(id), answer.id;
            && Known(d, id) && i < |d.filters|
            && !d.filters[i].Live() && (forall k :: 0 <= k < i ==> d.filters[k].Live())
            && e.filters == d.filters[i := d.filters[i].(id := i, status := Disabled, owner := c)]
            && FindFilter(e.filters, i) == Some(i)
            && OtherPoolsSame(d, e, Section) && e.sections.order == d.sections.order
            && |e.sections.slots| == |d.sections.slots|
            && var ch := d.sections.slots[c];
            && e.sections.slots[c] == ch.(filters := ch.filters + [i], fltCnt := |ch.filters| + 1)
            && forall k :: 0 <= k < |d.sections.slots| && k != c ==> e.sections.slots[k] == d.sections.slots[k])
  {
    if TypeOfCode(IdType(id)) == Some(Section) {
      FindKnown(d, id, Section);
      AllocateFilterKeeps(d, id);
      var r := FirstFreeFilter(d.filters);
      if Known(d, id) && r.Some? {
        FindFilterNamed(AllocateFilter(d, id).0, r.value);
      }
    }
  }

  // Calls on what is there already.

  /** The answer to a call on a channel. */
  ghost function ChannelAnswer(d: Device, id: nat): Answer {
    if TypeOfCode(IdType(id)).None? then Fail(BadChannelType) else if Known(d, id) then Done else Fail(NoChannel)
  }

  ghost predicate OneChannel(d: Device, e: Device, id: nat, ch: Channel)
    requires Known(d, id)
  {
    var t, i := TypeOfCode(IdType(id)).value, IdIndex(id);
    e == d.WithPool(t, d.PoolOf(t).(slots := d.PoolOf(t).slots[i := ch]))
  }

  /** Starting or stopping changes the status of the channel named, if there is one, and nothing else. */
  lemma ControlledChannelIs(d: Device, id: nat, enable: bool)
    requires Owned(d)
    ensures
      var r := ControlChannel(d, id, enable);
      && r.1 == ChannelAnswer(d, id) && (r.1 != Done ==> r.0 == d)
      && (r.1 == Done ==>
            var ch := d.PoolOf(TypeOfCode(IdType(id)).value).slots[IdIndex(id)];
            OneChannel(d, r.0, id, ch.(status := if enable then Enabled else Disabled)))
  {
    var t := TypeOfCode(IdType(id));
    if t.Some? {
      FindKnown(d, id, t.value);
    }
  }

  /** Freeing a channel of any type: its slot is wiped and off the list, so that the id names nothing, and no other
      channel changes. */
  lemma FreedChannelIs(d: Device, id: nat)
    requires Owned(d)
    ensures
      var r := FreeChannel(d, id);
      && r.1 == ChannelAnswer(d, id) && !Known(r.0, id) && (r.1 != Done ==> r.0 == d)
      && (r.1 == Done ==>
            var t, i := TypeOfCode(IdType(id)).value, IdIndex(id);
            var p, q := d.PoolOf(t), r.0.PoolOf(t);
            && q.slots == p.slots[i := p.slots[i].Wiped()] && q.order == Remove(p.order, i)
            && OtherPoolsSame(d, r.0, t))
  {
    var t := TypeOfCode(IdType(id));
    if t.Some? {
      var e := FreeFilterAll(d, id).0;
      FreeFilterAllKeeps(d, id);
      FindKnown(d, id, t.value);
      FindKnown(e, id, t.value);
      ClearedStaysKnown(d, id);
      if Known(d, id) {
        ClearedPool(d, id, t.value);
      }
    }
  }

  lemma ClearedPool(d: Device, id: nat, t: ChannelType)
    requires Owned(d) && TypeOfCode(IdType(id)) == Some(t) && Known(d, id)
    ensures
      var e, i := FreeFilterAll(d, id).0, IdIndex(id);
      && OtherPoolsSame(d, e, t) && e.PoolOf(t).order == d.PoolOf(t).order && |e.PoolOf(t).slots| == |d.PoolOf(t).slots|
      && e.PoolOf(t).slots[i].life == d.PoolOf(t).slots[i].life
      && forall k :: 0 <= k < |d.PoolOf(t).slots| && k != i ==> e.PoolOf(t).slots[k] == d.PoolOf(t).slots[k]
  {
    if t == Section {
      FindKnown(d, id, Section);
    }
  }

  lemma ClearedStaysKnown(d: Device, id: nat)
    requires Owned(d)
    ensures Known(FreeFilterAll(d, id).0, id) <==> Known(d, id)
    ensures !Known(d, id) ==> FreeFilterAll(d, id).0 == d
  {
    if TypeOfCode(IdType(id)) == Some(Section) {
      FindKnown(d, id, Section);
    }
  }

  /** Freeing all filters of a channel: its list is empty, exactly the filters on it are wiped, nothing else changes. */
  lemma FreedFiltersAre(d: Device, id: nat)
    requires Owned(d)
    ensures
      var r := FreeFilterAll(d, id);
      && r.1 == (if TypeOfCode(IdType(id)) != Some(Section) then Fail(BadChannelType)
                 else if Known(d, id) then Done else Fail(NoChannel))
      && (r.1 != Done ==> r.0 == d)
      && (r.1 == Done ==>
            var c := IdIndex(id); var l := d.sections.slots[c].filters;
            && OtherPoolsSame(d, r.0, Section) && r.0.sections.order == d.sections.order
            && r.0.sections.slots == d.sections.slots[c := d.sections.slots[c].(filters := [], fltCnt := 0)]
            && |r.0.filters| == |d.filters|
            && forall i :: 0 <= i < |d.filters| ==>
                 r.0.filters[i] == if i in l then d.filters[i].Wiped() else d.filters[i])
  {
    if TypeOfCode(IdType(id)) == Some(Section) {
      FindKnown(d, id, Section);
      if Known(d, id) {
        assert PoolOwned(Section, d.PoolOf(Section)) && SlotNamed(Section, d.sections.slots[IdIndex(id)], IdIndex(id));
      }
    }
  }

  /** What a setting leaves in the filter found by the id: what was asked for, the rest of the settings as they were. */
  ghost predicate Took(f: Filter, s: Setting, g: Filter) {
    && g.id == f.id && g.owner == f.owner && g.life == f.life && g.session == f.session
    && g.flag == f.flag && g.waitClose == f.waitClose && g.access == f.access
    && g.status == (if s.Control? then (if s.enable then Enabled else Disabled) else f.status)
    && g.pattern == (if s.SetPattern? then s.pattern else f.pattern)
    && g.continuous == (if s.SetPattern? then s.continuous else f.continuous)
    && g.crcCheck == (if s.SetCrcCheck? then s.on else f.crcCheck)
    && g.hasRequest == (if s.SetCallbacks? then s.request else f.hasRequest)
    && g.hasUpdate == (if s.SetCallbacks? then s.update else f.hasUpdate)
  }

  lemma ApplyTakes(f: Filter, s: Setting)
    requires s.SetPattern? ==> s.pattern.Valid()
    ensures Took(f, s, Apply(f, s))
  {
    match s
    case Control(_) =>
    case SetPattern(_, _) =>
    case SetCrcCheck(_) =>
    case SetCallbacks(_, _) =>
  }

  /** A setter changes exactly the setting given of exactly the filter named, if that is live. */
  lemma SetFilterIs(d: Device, id: nat, s: Setting)
    requires Owned(d)
    ensures
      var r := SetFilter(d, id, s);
      && r.1 == (if s.SetPattern? && !s.pattern.Valid() then Fail(Invalid)
                 else if id < |d.filters| && d.filters[id].Live() then Done else Fail(NoFilter))
      && (r.1 != Done ==> r.0 == d)
      && (r.1 == Done ==>
            && r.0.filters == d.filters[id := r.0.filters[id]] && r.0 == d.(filters := r.0.filters)
            && FindFilter(r.0.filters, id) == Some(id) && Took(d.filters[id], s, r.0.filters[id]))
  {
    FindFilterNamed(d, id);
    if !(s.SetPattern? && !s.pattern.Valid()) && id < |d.filters| && d.filters[id].Live() {
      ApplyTakes(d.filters[id], s);
      SetFilterKeeps(d, id, s);
      FindFilterNamed(SetFilter(d, id, s).0, id);
    }
  }

  /** A free that need not wait: the answer says whether there was such a filter; `FreeFilterUnlinks` says the rest. */
  lemma FreedFilterIs(d: Device, id: nat)
    requires Owned(d)
    ensures
      var r, live := FreeFilter(d, id), id < |d.filters| && d.filters[id].Live();
      && r.1 == (if live then Done else Fail(NoFilter)) && (!live ==> r.0 == d)
      && (live ==> FindFilter(r.0.filters, id) == None && OtherPoolsSame(d, r.0, Section))
  {
    FindFilterNamed(d, id);
    CallKeepsOwnership(d, CallFreeFilter(id));
    FindFilterNamed(FreeFilter(d, id).0, id);
    if id < |d.filters| {
      assert FilterPlaced(d, id);
    }
  }

  /** The dispatcher's own thread frees a live filter at its first look; another thread waits exactly if the filter
      is in its callback, and then only marks it. */
  lemma LookIs(d: Device, i: nat, own: bool)
    requires Owned(d) && i < |d.filters| && d.filters[i].Live()
    ensures
      var r, busy := LookToFree(d, i, own), d.filters[i].flag == FlagCallback;
      && (own || !busy ==> r == (FreeFilter(d, i).0, Frees))
      && (!own && busy ==> r == (d.(filters := d.filters[i := d.filters[i].(waitClose := true)]), Waits))
  {
    FindFilterNamed(d, i);
  }

  /** What a device just opened has room for, and the first id it gives out for each type. */
  lemma Limits()
    ensures
      var d := Opened();
      && |d.sections.slots| == 32 && |d.records.slots| == 96 && |d.services.slots| == 16 && |d.streams.slots| == 10
      && |d.filters| == 176 && MAX_FILTER_SIZE == 18
      && AllocateChannel(d, 1).1 == Ok(0x1_0000) && AllocateChannel(d, 2).1 == Ok(0x2_0000)
      && AllocateChannel(d, 3).1 == Ok(0x3_0000) && AllocateChannel(d, 4).1 == Ok(0x4_0000)
      && AllocateChannel(d, 0).1 == Fail(BadChannelType) && AllocateChannel(d, 5).1 == Fail(BadChannelType)
  {
    var d := Opened();
    assert FirstFreeChannel(d.PoolOf(Section).slots) == Some(0) && FirstFreeChannel(d.PoolOf(Record).slots) == Some(0);
    assert FirstFreeChannel(d.PoolOf(Service).slots) == Some(0) && FirstFreeChannel(d.PoolOf(Stream).slots) == Some(0);
  }
}
