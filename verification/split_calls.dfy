/** Calls that drop their lock on the way, with other calls getting in between. */
module SplitCalls {
  import opened Device
  import opened Slots

  // Freeing a channel takes the lock twice: once to free its filters, once to drop the channel.

  /** The call with other calls getting in between its halves. */
  function SplitFreeChannel(d: Device, c: nat, between: seq<Call>): Device {
    DropChannel(BetweenHalves(d, c, between), Section, ChannelId(Section, c)).0
  }

  function BetweenHalves(d: Device, c: nat, between: seq<Call>): Device {
    PerformAll(FreeFilterAll(d, ChannelId(Section, c)).0, between)
  }

  ghost predicate HasFilter(d: Device, c: nat) {
    LiveSection(d, c) && d.sections.slots[c].filters != []
  }

  lemma DropWithFilterBreaks(d: Device, c: nat)
    requires Owned(d) && HasFilter(d, c)
    ensures !Owned(DropChannel(d, Section, ChannelId(Section, c)).0)
  {
    FindLiveSection(d, c);
    var i := d.sections.slots[c].filters[0];
    assert ListOwned(d, c) && i in d.sections.slots[c].filters;
    var r := DropChannel(d, Section, ChannelId(Section, c)).0;
    assert r.filters == d.filters && !r.sections.slots[c].Live();
    assert i < |r.filters| && !FilterPlaced(r, i);
  }

  /** The split call keeps the invariant exactly when its second half does not find a filter on the channel. */
  lemma SplitFreeKeepsOwnershipIff(d: Device, c: nat, between: seq<Call>)
    requires Owned(d) && c < Capacity(Section)
    ensures var m := BetweenHalves(d, c, between);
      Owned(SplitFreeChannel(d, c, between)) <==> !HasFilter(m, c)
  {
    var id := ChannelId(Section, c);
    FreeFilterAllKeeps(d, id);
    HistoryKeepsOwnership(FreeFilterAll(d, id).0, between);
    var m := BetweenHalves(d, c, between);
    assert PoolOwned(Section, m.PoolOf(Section));
    IdDecodes(Section, c);
    FindChannelNamed(Section, m.sections, id);
    if HasFilter(m, c) {
      DropWithFilterBreaks(m, c);
    } else {
      DropChannelKeeps(m, Section, id);
    }
  }

  // What a caller can see to: whether filters are allocated on a channel that is being freed.

  /** No call but a filter allocation makes a list longer. */
  lemma OtherCallKeepsEmpty(d: Device, call: Call, c: nat)
    requires c < |d.sections.slots| && d.sections.slots[c].filters == [] && !call.CallAllocateFilter?
    ensures var e := Perform(d, call).0; c < |e.sections.slots| && e.sections.slots[c].filters == []
  {
    match call
    case CallFreeChannel(id) =>
      var e := FreeFilterAll(d, id).0;
      assert c < |e.sections.slots| && e.sections.slots[c].filters == [];
    case _ =>
  }

  lemma CallKeepsEmpty(d: Device, call: Call, c: nat)
    requires Owned(d) && c < |d.sections.slots| && d.sections.slots[c].filters == []
    requires call != CallAllocateFilter(ChannelId(Section, c))
    ensures var e := Perform(d, call).0; c < |e.sections.slots| && e.sections.slots[c].filters == []
  {
    if call.CallAllocateFilter? {
      OtherChannelFound(d, call.chId, c);
    } else {
      OtherCallKeepsEmpty(d, call, c);
    }
  }

  lemma OtherChannelFound(d: Device, id: nat, c: nat)
    requires Owned(d) && c < |d.sections.slots| && id != ChannelId(Section, c)
    ensures FindChannel(d.sections, id) != Some(c)
  {
    assert PoolOwned(Section, d.PoolOf(Section));
    FindChannelNamed(Section, d.sections, id);
    assert SlotNamed(Section, d.sections.slots[c], c);
  }

  lemma {:induction false} CallsKeepEmpty(d: Device, calls: seq<Call>, c: nat)
    requires Owned(d) && c < |d.sections.slots| && d.sections.slots[c].filters == []
    requires forall k :: 0 <= k < |calls| ==> calls[k] != CallAllocateFilter(ChannelId(Section, c))
    ensures var e := PerformAll(d, calls); c < |e.sections.slots| && e.sections.slots[c].filters == []
    decreases |calls|
  {
    if calls != [] {
      CallKeepsEmpty(d, calls[0], c);
      CallKeepsOwnership(d, calls[0]);
      CallsKeepEmpty(Perform(d, calls[0]).0, calls[1..], c);
    }
  }

  lemma FreedListIsEmpty(d: Device, c: nat)
    requires Owned(d) && c < Capacity(Section)
    ensures var e := FreeFilterAll(d, ChannelId(Section, c)).0;
      c < |e.sections.slots| && e.sections.slots[c].filters == []
  {
    assert PoolOwned(Section, d.PoolOf(Section)) && SlotNamed(Section, d.sections.slots[c], c);
    if d.sections.slots[c].Live() {
      FindLiveSection(d, c);
    }
  }

  /** As long as nobody allocates a filter on a channel that is being freed, whatever other calls get in
      between, the split call keeps the invariant. */
  lemma SplitFreeKeepsOwnership(d: Device, c: nat, between: seq<Call>)
    requires Owned(d) && c < Capacity(Section)
    requires forall k :: 0 <= k < |between| ==> between[k] != CallAllocateFilter(ChannelId(Section, c))
    ensures Owned(SplitFreeChannel(d, c, between))
  {
    FreedListIsEmpty(d, c);
    FreeFilterAllKeeps(d, ChannelId(Section, c));
    CallsKeepEmpty(FreeFilterAll(d, ChannelId(Section, c)).0, between, c);
    SplitFreeKeepsOwnershipIff(d, c, between);
  }

  lemma AllocatedOn(d: Device, c: nat, i: nat)
    requires Owned(d) && LiveSection(d, c) && i < |d.filters| && !d.filters[i].Live()
    ensures HasFilter(AllocateFilter(d, ChannelId(Section, c)).0, c)
  {
    FindLiveSection(d, c);
  }

  lemma ClearedStays(d: Device, c: nat, i: nat)
    requires LiveSection(d, c) && i < |d.filters| && !d.filters[i].Live()
    ensures var e := ClearChannel(d, c); LiveSection(e, c) && i < |e.filters| && !e.filters[i].Live()
  {}

  /** One filter allocated on it in between, which works whenever a slot is left, breaks the invariant. */
  lemma SplitFreeBreaks(d: Device, c: nat, i: nat)
    requires Owned(d) && LiveSection(d, c) && i < |d.filters| && !d.filters[i].Live()
    ensures !Owned(SplitFreeChannel(d, c, [CallAllocateFilter(ChannelId(Section, c))]))
  {
    var call := CallAllocateFilter(ChannelId(Section, c));
    AllocatedBetween(d, c, i);
    LiveSectionInRange(d, c);
    SplitFreeKeepsOwnershipIff(d, c, [call]);
  }

  lemma AllocatedBetween(d: Device, c: nat, i: nat)
    requires Owned(d) && LiveSection(d, c) && i < |d.filters| && !d.filters[i].Live()
    ensures HasFilter(BetweenHalves(d, c, [CallAllocateFilter(ChannelId(Section, c))]), c)
  {
    OneCallBetween(d, c, CallAllocateFilter(ChannelId(Section, c)));
    ClearChannelKeeps(d, c);
    ClearedStays(d, c, i);
    AllocatedOn(ClearChannel(d, c), c, i);
  }

  lemma OneCallBetween(d: Device, c: nat, call: Call)
    requires Owned(d) && LiveSection(d, c)
    ensures BetweenHalves(d, c, [call]) == Perform(ClearChannel(d, c), call).0
  {
    ClearedChannelFound(d, c);
    OneCall(ClearChannel(d, c), call);
  }

  lemma LiveSectionInRange(d: Device, c: nat)
    requires Owned(d) && LiveSection(d, c)
    ensures c < Capacity(Section)
  {
    assert PoolOwned(Section, d.PoolOf(Section));
  }

  lemma OneCall(d: Device, call: Call)
    ensures PerformAll(d, [call]) == Perform(d, call).0
  {
    assert [call][1..] == [];
  }

  /** ... as it does on a device just opened, with one channel. */
  lemma SplitFreeBreaksAfterOpening()
    ensures
      var d := AllocateChannel(Opened(), TypeCode(Section)).0;
      Owned(d) && LiveSection(d, 0) && !Owned(SplitFreeChannel(d, 0, [CallAllocateFilter(ChannelId(Section, 0))]))
  {
    var d := AllocateChannel(Opened(), TypeCode(Section)).0;
    OpenedIsOwned();
    AllocateChannelKeeps(Opened(), TypeCode(Section));
    assert FirstFreeChannel(Opened().sections.slots) == Some(0);
    assert !d.filters[0].Live();
    SplitFreeBreaks(d, 0, 0);
  }

  // Starting or stopping a channel finds its slot under the lock, tests the slot without it and then acts on it.

  /** The call on the channel in slot `c`, with other calls getting in before its test and after it. */
  function SplitControl(d: Device, c: nat, enable: bool, pid: bool, before: seq<Call>, after: seq<Call>): Device {
    var m := PerformAll(d, before);
    var n := PerformAll(m, after);
    if c < |m.sections.slots| && GoesOn(m.sections.slots[c], enable, pid) && c < |n.sections.slots| then
      SetChannelStatus(n, c, enable)
    else n
  }

  /** With nothing getting in between, a start enables a channel that has a PID and leaves one without as it is; a
      stop disables it. */
  lemma UndisturbedControlIs(d: Device, c: nat, enable: bool, pid: bool)
    requires LiveSection(d, c)
    ensures
      var r, ch := SplitControl(d, c, enable, pid, [], []), d.sections.slots[c];
      && r.sections.slots == d.sections.slots[c := r.sections.slots[c]]
      && r == d.(sections := d.sections.(slots := r.sections.slots))
      && r.sections.slots[c] == ch.(status := if !enable then Disabled else if pid then Enabled else ch.status)
  {}

  lemma SetStatusOfFreeSlotBreaks(d: Device, c: nat, enable: bool)
    requires Owned(d) && c < |d.sections.slots| && !d.sections.slots[c].Live()
    ensures !Owned(SetChannelStatus(d, c, enable))
  {
    assert PoolOwned(Section, d.PoolOf(Section));
    var e := SetChannelStatus(d, c, enable);
    assert c !in e.sections.order && e.sections.slots[c].Live();
    assert !PoolOwned(Section, e.PoolOf(Section));
  }

  lemma SectionsStay(d: Device, calls: seq<Call>)
    requires Owned(d)
    ensures var e := PerformAll(d, calls); Owned(e) && |e.sections.slots| == |d.sections.slots|
  {
    HistoryKeepsOwnership(d, calls);
    var e := PerformAll(d, calls);
    assert PoolOwned(Section, d.PoolOf(Section)) && PoolOwned(Section, e.PoolOf(Section));
  }

  /** The split call keeps the invariant exactly if its test ends it or there is a channel in the slot when it
      acts; in the latter case it is the call made then. */
  lemma SplitControlKeepsOwnershipIff(d: Device, c: nat, enable: bool, pid: bool, before: seq<Call>, after: seq<Call>)
    requires Owned(d) && LiveSection(d, c)
    ensures
      var m := PerformAll(d, before); var n := PerformAll(m, after);
      var r := SplitControl(d, c, enable, pid, before, after);
      && c < |m.sections.slots| == |n.sections.slots|
      && var acts := GoesOn(m.sections.slots[c], enable, pid);
      && (Owned(r) <==> (acts ==> LiveSection(n, c)))
      && (Owned(r) ==> r == if acts then ControlChannel(n, ChannelId(Section, c), enable).0 else n)
  {
    var m := PerformAll(d, before);
    var n := PerformAll(m, after);
    SectionsStay(d, before);
    SectionsStay(m, after);
    if LiveSection(n, c) {
      SetStatusIsCall(n, c, enable);
    } else {
      SetStatusOfFreeSlotBreaks(n, c, enable);
    }
  }

  /** A start that finds its slot freed at its test does nothing. */
  lemma StartOfFreedSlotIsHarmless(d: Device, c: nat, pid: bool, before: seq<Call>, after: seq<Call>)
    requires Owned(d) && LiveSection(d, c) && !LiveSection(PerformAll(d, before), c)
    ensures SplitControl(d, c, true, pid, before, after) == PerformAll(PerformAll(d, before), after)
    ensures Owned(SplitControl(d, c, true, pid, before, after))
  {
    SplitControlKeepsOwnershipIff(d, c, true, pid, before, after);
  }

  lemma FreedInBetween(d: Device, c: nat)
    requires Owned(d) && LiveSection(d, c)
    ensures !LiveSection(PerformAll(d, [CallFreeChannel(ChannelId(Section, c))]), c)
  {
    OneCall(d, CallFreeChannel(ChannelId(Section, c)));
    FreeChannelFreesItsFilters(d, c);
  }

  /** Freeing the channel after the test leaves a slot that is in use and on no list. */
  lemma SplitControlBreaks(d: Device, c: nat, enable: bool, pid: bool)
    requires Owned(d) && LiveSection(d, c) && GoesOn(d.sections.slots[c], enable, pid)
    ensures !Owned(SplitControl(d, c, enable, pid, [], [CallFreeChannel(ChannelId(Section, c))]))
  {
    FreedInBetween(d, c);
    SplitControlKeepsOwnershipIff(d, c, enable, pid, [], [CallFreeChannel(ChannelId(Section, c))]);
  }

  /** A stop breaks the tables also if the channel is freed before its test, which a zeroed slot passes. */
  lemma SplitStopBreaks(d: Device, c: nat, pid: bool)
    requires Owned(d) && LiveSection(d, c)
    ensures !Owned(SplitControl(d, c, false, pid, [CallFreeChannel(ChannelId(Section, c))], []))
  {
    FreedInBetween(d, c);
    SplitControlKeepsOwnershipIff(d, c, false, pid, [CallFreeChannel(ChannelId(Section, c))], []);
  }

  // What a caller can see to: whether the channel found is freed meanwhile.

  /** Slot `c` still holds the channel it held in `d`. */
  ghost predicate SameHolder(d: Device, e: Device, c: nat) {
    LiveSection(d, c) && LiveSection(e, c) && e.sections.slots[c].life == d.sections.slots[c].life
  }

  /** Slot `c` was wiped since `d`, once at least. */
  ghost predicate Wiped(d: Device, e: Device, c: nat) {
    c < |d.sections.slots| && c < |e.sections.slots| && e.sections.slots[c].life > d.sections.slots[c].life
  }

  lemma CallKeepsHolder(d: Device, call: Call, c: nat)
    requires Owned(d) && LiveSection(d, c) && call != CallFreeChannel(ChannelId(Section, c))
    ensures SameHolder(d, Perform(d, call).0, c)
  {
    if call.CallFreeChannel? {
      OtherChannelStays(d, call.chId, c);
    } else {
      assert PoolOwned(Section, d.PoolOf(Section)) && SlotNamed(Section, d.sections.slots[c], c);
      OtherCallKeepsHolder(d, call, c);
    }
  }

  lemma OtherCallKeepsHolder(d: Device, call: Call, c: nat)
    requires LiveSection(d, c) && d.sections.slots[c].id != 0 && !call.CallFreeChannel?
    ensures SameHolder(d, Perform(d, call).0, c)
  {}

  lemma OtherChannelStays(d: Device, id: nat, c: nat)
    requires Owned(d) && LiveSection(d, c) && id != ChannelId(Section, c)
    ensures SameHolder(d, FreeChannel(d, id).0, c)
  {
    var e := FreeFilterAll(d, id).0;
    FreeFilterAllKeeps(d, id);
    assert SameHolder(d, e, c);
    OtherChannelFound(e, id, c);
  }

  ghost predicate NotYounger(d: Device, e: Device, c: nat) {
    c < |d.sections.slots| && c < |e.sections.slots| && e.sections.slots[c].life >= d.sections.slots[c].life
  }

  lemma LivesGrow(d: Device, call: Call, c: nat)
    requires c < |d.sections.slots|
    ensures NotYounger(d, Perform(d, call).0, c)
  {
    if call.CallFreeChannel? {
      FreeGrowsLives(d, call.chId, c);
    }
  }

  lemma FreeGrowsLives(d: Device, id: nat, c: nat)
    requires c < |d.sections.slots|
    ensures NotYounger(d, FreeChannel(d, id).0, c)
  {
    var e := FreeFilterAll(d, id).0;
    assert NotYounger(d, e, c);
  }

  lemma {:induction false} LivesGrowOverCalls(d: Device, calls: seq<Call>, c: nat)
    requires c < |d.sections.slots|
    ensures NotYounger(d, PerformAll(d, calls), c)
    decreases |calls|
  {
    if calls != [] {
      LivesGrow(d, calls[0], c);
      LivesGrowOverCalls(Perform(d, calls[0]).0, calls[1..], c);
    }
  }

  /** A slot in use keeps its channel over a history exactly if no call in it frees that channel. */
  lemma {:induction false} HolderKeptIff(d: Device, calls: seq<Call>, c: nat)
    requires Owned(d) && LiveSection(d, c)
    ensures SameHolder(d, PerformAll(d, calls), c) <==> CallFreeChannel(ChannelId(Section, c)) !in calls
    ensures !SameHolder(d, PerformAll(d, calls), c) ==> Wiped(d, PerformAll(d, calls), c)
    decreases |calls|
  {
    if calls != [] {
      var e := Perform(d, calls[0]).0;
      assert calls == [calls[0]] + calls[1..];
      if calls[0] == CallFreeChannel(ChannelId(Section, c)) {
        FreeChannelFreesItsFilters(d, c);
        LivesGrowOverCalls(e, calls[1..], c);
      } else {
        CallKeepsHolder(d, calls[0], c);
        CallKeepsOwnership(d, calls[0]);
        HolderKeptIff(e, calls[1..], c);
      }
    }
  }

  /** A call that goes on acts on the channel it found exactly if nobody frees that channel meanwhile, and then it
      is the call made at its end. */
  lemma SplitControlIsCall(d: Device, c: nat, enable: bool, pid: bool, before: seq<Call>, after: seq<Call>)
    requires Owned(d) && LiveSection(d, c)
    ensures
      var m := PerformAll(d, before); var n := PerformAll(m, after);
      var r := SplitControl(d, c, enable, pid, before, after);
      && c < |m.sections.slots|
      && (SameHolder(d, n, c) <==> CallFreeChannel(ChannelId(Section, c)) !in before + after)
      && var goesOn := GoesOn(m.sections.slots[c], enable, pid);
      && (SameHolder(d, n, c) ==>
            Owned(r) && r == if goesOn then ControlChannel(n, ChannelId(Section, c), enable).0 else n)
  {
    PerformAppended(d, before, after);
    HolderKeptIff(d, before + after, c);
    SplitControlKeepsOwnershipIff(d, c, enable, pid, before, after);
  }

  lemma {:induction false} PerformAppended(d: Device, a: seq<Call>, b: seq<Call>)
    ensures PerformAll(d, a + b) == PerformAll(PerformAll(d, a), b)
    decreases |a|
  {
    if a == [] {
      assert a + b == b;
    } else {
      assert (a + b)[1..] == a[1..] + b;
      PerformAppended(Perform(d, a[0]).0, a[1..], b);
    }
  }

  /** A channel freed and another one allocated after the test: the tables stay consistent, and the start enables
      a channel nobody asked to start. */
  lemma SplitStartHitsAnother()
    ensures
      var d, id := AllocateChannel(Opened(), TypeCode(Section)).0, ChannelId(Section, 0);
      var after := [CallFreeChannel(id), CallAllocateChannel(TypeCode(Section))];
      var r := SplitControl(d, 0, true, true, [], after);
      && Owned(d) && LiveSection(d, 0) && Owned(r) && Wiped(d, r, 0)
      && PerformAll(d, after).sections.slots[0].status == Disabled && r.sections.slots[0].status == Enabled
  {
    var d, id := AllocateChannel(Opened(), TypeCode(Section)).0, ChannelId(Section, 0);
    var free, allocate := CallFreeChannel(id), CallAllocateChannel(TypeCode(Section));
    OpenedIsOwned();
    AllocateChannelKeeps(Opened(), TypeCode(Section));
    assert FirstFreeChannel(Opened().sections.slots) == Some(0);
    FreeChannelFreesItsFilters(d, 0);
    var e := FreeChannel(d, id).0;
    assert FirstFreeChannel(e.sections.slots) == Some(0);
    assert [free, allocate] == [free] + [allocate];
    PerformAppended(d, [free], [allocate]);
    OneCall(d, free);
    OneCall(e, allocate);
    SplitControlKeepsOwnershipIff(d, 0, true, true, [], [free, allocate]);
  }
}
