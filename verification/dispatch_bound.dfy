/** One dispatch ends, although it walks from the list head again whenever a filter was freed under it:
    as long as nobody allocates a filter, every step it takes lowers a rank that nothing else raises. */
module DispatchBound {
  import opened Sequences
  import opened Device
  import opened Slots
  import opened Dispatch
  import opened DispatchSafety
  import opened DispatchSteps

  /** Enough for a walk over each of the shorter lists a restart may find. */
  function Restarts(n: nat): nat {
    if n == 0 then 0 else Restarts(n - 1) + 5 * n
  }

  lemma {:induction false} RestartsGrow(m: nat, n: nat)
    requires m < n
    ensures Restarts(n) >= Restarts(m) + 5 * (m + 1)
  {
    if m < n - 1 {
      RestartsGrow(m, n - 1);
    }
  }

  /** How many entries are left from `x` on. */
  function Left(list: seq<nat>, x: nat): nat {
    if list == [] then 0 else if list[0] == x then |list| else Left(list[1..], x)
  }

  function LeftAt(list: seq<nat>, at: Option<nat>): nat {
    if at.None? then 0 else Left(list, at.value)
  }

  lemma {:induction false} LeftAfter(list: seq<nat>, x: nat)
    requires Distinct(list) && x in list
    ensures LeftAt(list, NextAfter(list, x)) == Left(list, x) - 1
    ensures 0 < Left(list, x) <= |list|
  {
    if list[0] == x {
      if list[1..] != [] {
        var y := list[1];
        assert y != list[0] && NextAfter(list, x) == Some(y);
        assert Left(list, y) == Left(list[1..], y) == |list[1..]|;
      }
    } else {
      assert Distinct(list[1..]) && x in list[1..];
      LeftAfter(list[1..], x);
      var n := NextAfter(list[1..], x);
      if n.Some? {
        assert n.value in list[1..];
        assert n.value != list[0];
      }
    }
  }

  lemma {:induction false} LeftAfterRemove(list: seq<nat>, y: nat, x: nat)
    requires x in list && x != y
    ensures Left(Remove(list, y), x) <= Left(list, x)
    ensures |Remove(list, y)| <= |list|
  {
    RemoveShrinks(list, y);
    if list[0] == x {
      assert Remove(list, y) == [x] + Remove(list[1..], y);
    } else {
      LeftAfterRemove(list[1..], y, x);
      var rest := Remove(list[1..], y);
      if list[0] == y {
        assert Remove(list, y) == rest;
      } else {
        assert Remove(list, y) == [list[0]] + rest;
        assert ([list[0]] + rest)[1..] == rest;
      }
    }
  }

  lemma {:induction false} RemoveShrinks(list: seq<nat>, y: nat)
    ensures |Remove(list, y)| <= |list|
  {
    if list != [] {
      RemoveShrinks(list[1..], y);
    }
  }

  function StageOf(pc: Pc): nat {
    match pc
    case Requesting(_, _, _) => 4
    case Requested(_, _, _, _) => 3
    case Updating(_, _, _) => 2
    case Updated(_, _, _) => 1
    case _ => 0
  }

  function RankOf(pc: Pc, list: seq<nat>, chLife: nat, fltLife: nat): int {
    if pc.Idle? then 0
    else if chLife != pc.v.chLife then StageOf(pc)
    else if pc.Scan? then Restarts(|list|) + 5 * LeftAt(list, pc.at) + 1
    else if fltLife == pc.life then Restarts(|list|) + 5 * (Left(list, pc.slot) - 1) + 1 + StageOf(pc)
    else Restarts(|list|) + 5 * |list| + 1 + StageOf(pc)
  }

  /** What is left to do for the dispatch in progress, at most. */
  function Rank(s: State): int
    requires Shaped(s)
  {
    if s.pc.Idle? then 0
    else
      RankOf(s.pc, Listed(s, s.pc.v.ch), s.dev.sections.slots[s.pc.v.ch].life,
             if s.pc.AtFilter() then FilterAt(s, s.pc.slot).life else 0)
  }

  // Calls other than a filter allocation only shorten lists.

  ghost predicate Shrinks(d: Device, e: Device, c: nat)
    requires c < |d.sections.slots| && c < |e.sections.slots| && |d.filters| == |e.filters|
  {
    var list, list' := d.sections.slots[c].filters, e.sections.slots[c].filters;
    || (list' == list && SameLives(d, e, list))
    || list' == []
    || exists y :: list' == Remove(list, y) && SameLives(d, e, Remove(list, y))
  }

  ghost predicate SameLives(d: Device, e: Device, list: seq<nat>)
    requires |d.filters| == |e.filters|
  {
    forall i :: i in list && i < |d.filters| ==> e.filters[i].life == d.filters[i].life
  }

  lemma UnlinkShrinks(d: Device, i: nat, c: nat)
    requires Owned(d) && i < |d.filters| && c < |d.sections.slots|
    ensures Shrinks(d, UnlinkFilter(d, i), c)
  {
    var list := d.sections.slots[c].filters;
    assert FilterPlaced(d, i) && ListOwned(d, c);
    RemoveKeeps(list, i);
    if d.filters[i].Live() && d.filters[i].owner == c {
      var e := UnlinkFilter(d, i);
      assert SameLives(d, e, Remove(list, i));
      assert e.sections.slots[c].filters == Remove(list, i);
    }
  }

  lemma ClearShrinks(d: Device, b: nat, c: nat)
    requires Owned(d) && b < |d.sections.slots| && c < |d.sections.slots|
    ensures Shrinks(d, ClearChannel(d, b), c)
  {
    assert ListOwned(d, c) && ListOwned(d, b);
    if b != c {
      forall i | i in d.sections.slots[c].filters && i < |d.filters|
        ensures ClearChannel(d, b).filters[i].life == d.filters[i].life
      {
        assert i !in d.sections.slots[b].filters;
      }
    }
  }

  lemma FreeFilterAllShrinks(d: Device, id: nat, c: nat)
    requires Owned(d) && c < |d.sections.slots|
    ensures Shrinks(d, FreeFilterAll(d, id).0, c)
  {
    var b := FindChannel(d.sections, id);
    if TypeOfCode(IdType(id)) == Some(Section) && b.Some? {
      ClearShrinks(d, b.value, c);
    }
  }

  lemma CallShrinks(d: Device, call: Call, c: nat)
    requires Owned(d) && !call.CallAllocateFilter? && LiveSection(d, c)
    requires Steady(d, Perform(d, call).0)
    ensures Perform(d, call).0.sections.slots[c].life == d.sections.slots[c].life ==> Shrinks(d, Perform(d, call).0, c)
  {
    if Perform(d, call).0.sections.slots[c].life == d.sections.slots[c].life {
      match call
      case CallAllocateChannel(code) => AllocateChannelShrinks(d, code, c);
      case CallFreeChannel(id) => FreeChannelShrinks(d, id, c);
      case CallControlChannel(id, enable) => ControlChannelShrinks(d, id, enable, c);
      case CallFreeFilter(id) =>
        var r := FindFilter(d.filters, id);
        if r.Some? {
          UnlinkShrinks(d, r.value, c);
        }
      case CallFreeFilterAll(id) => FreeFilterAllShrinks(d, id, c);
      case CallSetFilter(id, setting) => SetFilterShrinks(d, id, setting, c);
    }
  }

  lemma ControlChannelShrinks(d: Device, id: nat, enable: bool, c: nat)
    requires Owned(d) && LiveSection(d, c)
    requires var e := ControlChannel(d, id, enable).0;
      |e.sections.slots| == |d.sections.slots| && |e.filters| == |d.filters|
    ensures Shrinks(d, ControlChannel(d, id, enable).0, c)
  {}

  lemma SetFilterShrinks(d: Device, id: nat, s: Setting, c: nat)
    requires Owned(d) && LiveSection(d, c)
    requires var e := SetFilter(d, id, s).0; |e.sections.slots| == |d.sections.slots| && |e.filters| == |d.filters|
    ensures Shrinks(d, SetFilter(d, id, s).0, c)
  {
    var e := SetFilter(d, id, s).0;
    assert e.sections == d.sections;
    assert SameLives(d, e, d.sections.slots[c].filters);
  }

  lemma AllocateChannelShrinks(d: Device, code: nat, c: nat)
    requires Owned(d) && c < |d.sections.slots|
    requires |AllocateChannel(d, code).0.sections.slots| == |d.sections.slots| && d.sections.slots[c].Live()
    ensures Shrinks(d, AllocateChannel(d, code).0, c)
  {
    assert PoolOwned(Section, d.PoolOf(Section));
    assert SlotNamed(Section, d.sections.slots[c], c);
    IdDecodes(Section, c);
  }

  lemma FreeChannelShrinks(d: Device, id: nat, c: nat)
    requires Owned(d) && c < |d.sections.slots|
    requires |FreeChannel(d, id).0.sections.slots| == |d.sections.slots|
    requires |FreeChannel(d, id).0.filters| == |d.filters|
    requires FreeChannel(d, id).0.sections.slots[c].life == d.sections.slots[c].life
    ensures Shrinks(d, FreeChannel(d, id).0, c)
  {
    FreeFilterAllShrinks(d, id, c);
    var e := FreeFilterAll(d, id).0;
    var t := TypeOfCode(IdType(id));
    if t.Some? {
      assert FreeChannel(d, id).0.filters == e.filters;
      assert FreeChannel(d, id).0.sections.slots[c].filters == e.sections.slots[c].filters;
    }
  }

  lemma ShrinkLowersRank(pc: Pc, d: Device, e: Device, c: nat)
    requires pc.AtFilter() && c < |d.sections.slots| && c < |e.sections.slots| && |d.filters| == |e.filters|
    requires d.sections.slots[c].life == e.sections.slots[c].life && Shrinks(d, e, c) && pc.slot < |d.filters|
    requires Distinct(d.sections.slots[c].filters)
    requires d.filters[pc.slot].life == pc.life ==> pc.slot in d.sections.slots[c].filters
    requires e.filters[pc.slot].life == pc.life ==>
      d.filters[pc.slot].life == pc.life && pc.slot in e.sections.slots[c].filters
    ensures RankOf(pc, e.sections.slots[c].filters, e.sections.slots[c].life, e.filters[pc.slot].life) <=
      RankOf(pc, d.sections.slots[c].filters, d.sections.slots[c].life, d.filters[pc.slot].life)
  {
    var x, list, list' := pc.slot, d.sections.slots[c].filters, e.sections.slots[c].filters;
    var y: nat := 0;
    if list' != list {
      y :| list' == [] || (list' == Remove(list, y) && SameLives(d, e, Remove(list, y)));
    }
    ShorterListLowersRank(pc, list, list', y, d.sections.slots[c].life, d.filters[x].life, e.filters[x].life);
  }

  /** The rank on a list that is the same, emptied, or lacks one entry. */
  lemma ShorterListLowersRank(pc: Pc, list: seq<nat>, list': seq<nat>, y: nat, chLife: nat, life: nat, life': nat)
    requires pc.AtFilter() && Distinct(list) && (list' == list || list' == [] || list' == Remove(list, y))
    requires life == pc.life ==> pc.slot in list
    requires life' == pc.life ==> life == pc.life && pc.slot in list'
    requires pc.slot in list' ==> life' == life
    ensures RankOf(pc, list', chLife, life') <= RankOf(pc, list, chLife, life)
  {
    var x := pc.slot;
    if list' != list {
      RemoveKeeps(list, y);
      RemoveShrinks(list, y);
      if |list'| < |list| {
        RestartsGrow(|list'|, |list|);
      }
    }
    if life == pc.life {
      LeftAfter(list, x);
      if life' == pc.life && list' != list {
        LeftAfterRemove(list, y, x);
      }
    }
  }

  lemma VisitFacts(s: State)
    requires Inv(s) && Shaped(s) && s.pc.AtFilter()
    ensures var f := FilterAt(s, s.pc.slot);
      && s.pc.life <= f.life
      && (f.life == s.pc.life ==>
            s.pc.slot in Listed(s, s.pc.v.ch) && s.dev.sections.slots[s.pc.v.ch].life == s.pc.v.chLife)
      && (s.dev.sections.slots[s.pc.v.ch].life == s.pc.v.chLife ==> LiveSection(s.dev, s.pc.v.ch))
      && Distinct(Listed(s, s.pc.v.ch))
  {
    assert FilterInv(s.pc, s.pc.slot, FilterAt(s, s.pc.slot)) && FilterPlaced(s.dev, s.pc.slot);
    assert ListOwned(s.dev, s.pc.v.ch);
  }

  lemma DeviceStepKeepsRank(s: State, e: Device)
    requires Inv(s) && Shaped(s) && s.pc.AtFilter() && Inv(s.(dev := e)) && Shaped(s.(dev := e)) && Steady(s.dev, e)
    requires LiveSection(s.dev, s.pc.v.ch) && e.sections.slots[s.pc.v.ch].life == s.dev.sections.slots[s.pc.v.ch].life
      ==> Shrinks(s.dev, e, s.pc.v.ch)
    ensures Rank(s.(dev := e)) <= Rank(s)
  {
    var c, d := s.pc.v.ch, s.dev;
    VisitFacts(s);
    VisitFacts(s.(dev := e));
    assert FilterSteady(d.filters[s.pc.slot], e.filters[s.pc.slot]);
    assert ChannelSteady(d.sections.slots[c], e.sections.slots[c]);
    if d.sections.slots[c].life == s.pc.v.chLife {
      if e.sections.slots[c].life == d.sections.slots[c].life {
        ShrinkLowersRank(s.pc, d, e, c);
      } else {
        RestartsPositive(s);
      }
    }
  }

  lemma RestartsPositive(s: State)
    requires Inv(s) && Shaped(s) && s.pc.AtFilter()
    ensures Rank(s) >= StageOf(s.pc)
  {
    VisitFacts(s);
    if FilterAt(s, s.pc.slot).life == s.pc.life {
      LeftAfter(Listed(s, s.pc.v.ch), s.pc.slot);
    }
  }

  /** The environment, short of allocating filters. */
  predicate Quietly(step: Step) {
    && !step.BeginStep?
    && (step.ByCallback? || step.ByThread? ==> !step.call.CallAllocateFilter?)
  }

  lemma OutsideKeepsRank(s: State, step: Step)
    requires Inv(s) && Possible(s, step) && Quietly(step) && !DispatcherStep(step)
    ensures Inv(Take(s, step)) && Shaped(Take(s, step)) && Rank(Take(s, step)) <= Rank(s)
  {
    StepKeepsInv(s, step);
    InvIsShaped(Take(s, step));
    if !s.pc.AtFilter() {
      OutsideScan(s, step);
    } else if step.ByCallback? || step.ByThread? {
      CallKeepsRank(s, step.call);
    } else if step.DropsChannel? {
      DropKeepsRank(s, step.id);
    } else if step.ControlActs? {
      ActKeepsRank(s, step.thread);
    } else if step.FreeBegins? || step.FreeRetries? {
      FreeKeepsRank(s, step);
    } else {
      SameDevice(s, step);
    }
  }

  lemma SameDevice(s: State, step: Step)
    requires Possible(s, step) && (step.ControlFinds? || step.ControlTests? || step.ControlQuits?)
    ensures Take(s, step).dev == s.dev && Take(s, step).pc == s.pc
  {
  }

  /** While the dispatcher holds the lock nothing changes the tables. */
  lemma OutsideScan(s: State, step: Step)
    requires Inv(s) && Possible(s, step) && !DispatcherStep(step) && !s.pc.AtFilter()
    ensures Take(s, step).pc == s.pc && (s.pc.Scan? ==> Take(s, step).dev == s.dev)
  {}

  lemma FreeKeepsRank(s: State, step: Step)
    requires Inv(s) && Possible(s, step) && s.pc.AtFilter() && (step.FreeBegins? || step.FreeRetries?)
    ensures Shaped(Take(s, step)) && Rank(Take(s, step)) <= Rank(s)
  {
    if step.FreeRetries? {
      TryFreeKeepsRank(s, step.thread, s.waiting[step.thread]);
    } else {
      var r := FindFilter(s.dev.filters, step.id);
      if r.Some? {
        TryFreeKeepsRank(s, step.thread, Waiter(r.value, FilterAt(s, r.value).life));
      }
    }
  }

  lemma ActKeepsRank(s: State, t: nat)
    requires Inv(s) && Possible(s, ControlActs(t)) && s.pc.AtFilter()
    ensures Shaped(Act(s, t)) && Rank(Act(s, t)) <= Rank(s)
  {
    var k := s.controlling[t];
    ActKeeps(s, t);
    InvIsShaped(Act(s, t));
    if s.dev.sections.slots[k.slot].Live() {
      SetStatusIsCall(s.dev, k.slot, k.enable);
      CallKeepsRank(s, CallControlChannel(ChannelId(Section, k.slot), k.enable));
    }
  }

  lemma CallKeepsRank(s: State, call: Call)
    requires Inv(s) && Shaped(s) && s.pc.AtFilter() && !call.CallAllocateFilter?
    ensures Shaped(s.(dev := Perform(s.dev, call).0)) && Rank(s.(dev := Perform(s.dev, call).0)) <= Rank(s)
  {
    var e := Perform(s.dev, call).0;
    CallKeeps(s, call);
    InvIsShaped(s.(dev := e));
    CallSteady(s.dev, call);
    if LiveSection(s.dev, s.pc.v.ch) {
      CallShrinks(s.dev, call, s.pc.v.ch);
    }
    DeviceStepKeepsRank(s, e);
  }

  lemma TryFreeKeepsRank(s: State, t: nat, w: Waiter)
    requires Inv(s) && Shaped(s) && s.pc.AtFilter() && w.slot < |s.dev.filters| && w.life <= FilterAt(s, w.slot).life
    ensures Shaped(TryFree(s, t, w)) && Rank(TryFree(s, t, w)) <= Rank(s)
  {
    var i := w.slot;
    TryFreeKeeps(s, t, w);
    InvIsShaped(TryFree(s, t, w));
    if FilterAt(s, i).flag != FlagCallback && FilterAt(s, i).Live() {
      UnlinkKeepsRank(s, i);
    }
  }

  lemma UnlinkKeepsRank(s: State, i: nat)
    requires Inv(s) && Shaped(s) && s.pc.AtFilter() && i < |s.dev.filters|
    ensures var t := s.(dev := UnlinkFilter(s.dev, i)); Shaped(t) && Rank(t) <= Rank(s)
  {
    var e := UnlinkFilter(s.dev, i);
    UnlinkSteady(s.dev, i);
    UnlinkShrinks(s.dev, i, s.pc.v.ch);
    UnlinkFilterKeeps(s.dev, i);
    SteadyKeepsInv(s, e);
    InvIsShaped(s.(dev := e));
    DeviceStepKeepsRank(s, e);
  }

  lemma DropKeepsRank(s: State, id: nat)
    requires Inv(s) && Shaped(s) && s.pc.AtFilter() && TypeOfCode(IdType(id)).Some?
    ensures Shaped(SecondHalf(s, id)) && Rank(SecondHalf(s, id)) <= Rank(s)
  {
    DropKeeps(s, id);
    InvIsShaped(SecondHalf(s, id));
    if Droppable(s.dev, id) {
      var t := TypeOfCode(IdType(id)).value;
      DropSteady(s.dev, t, id);
      DropLists(s.dev, t, id);
      DropChannelKeeps(s.dev, t, id);
      DroppedDevice(s, DropChannel(s.dev, t, id).0);
    }
  }

  /** The second half changes no filter, and the lists of the channel it wipes only. */
  lemma DropLists(d: Device, t: ChannelType, id: nat)
    ensures SameLists(d, DropChannel(d, t, id).0)
  {}

  ghost predicate SameLists(d: Device, e: Device) {
    && e.filters == d.filters && |e.sections.slots| == |d.sections.slots|
    && forall c :: 0 <= c < |d.sections.slots| && d.sections.slots[c].life == e.sections.slots[c].life ==>
         e.sections.slots[c].filters == d.sections.slots[c].filters
  }

  lemma DroppedDevice(s: State, e: Device)
    requires Inv(s) && Shaped(s) && s.pc.AtFilter() && Steady(s.dev, e) && Owned(e)
    requires SameLists(s.dev, e)
    ensures Shaped(s.(dev := e)) && Rank(s.(dev := e)) <= Rank(s)
  {
    SteadyKeepsInv(s, e);
    InvIsShaped(s.(dev := e));
    DeviceStepKeepsRank(s, e);
  }

  lemma DispatcherLowersRank(s: State, step: Step)
    requires Inv(s) && Possible(s, step) && DispatcherStep(step) && !step.BeginStep?
    ensures Inv(Take(s, step)) && Shaped(Take(s, step)) && Rank(Take(s, step)) < Rank(s)
  {
    StepKeepsInv(s, step);
    InvIsShaped(Take(s, step));
    match step
    case ScanOne => ScanLowersRank(s);
    case RequestDone(granted) => RestartsPositive(s);
    case AfterRequest =>
      VisitIsKnown(s);
      RequestedLowersRank(s);
    case UpdateDone => RestartsPositive(s);
    case AfterUpdate =>
      VisitIsKnown(s);
      UpdatedLowersRank(s);
  }

  lemma ScanLowersRank(s: State)
    requires Inv(s) && Shaped(s) && s.pc.Scan? && Shaped(ScanStep(s))
    ensures Rank(ScanStep(s)) < Rank(s)
  {
    assert ListOwned(s.dev, s.pc.v.ch);
    ScanMovesOn(s);
  }

  lemma ScanMovesOn(s: State)
    requires Shaped(s) && s.pc.Scan? && Shaped(ScanStep(s)) && Distinct(Listed(s, s.pc.v.ch))
    requires s.dev.sections.slots[s.pc.v.ch].life == s.pc.v.chLife
    requires s.pc.at.Some? ==> s.pc.at.value in Listed(s, s.pc.v.ch)
    ensures Rank(ScanStep(s)) < Rank(s)
  {
    if s.pc.at.Some? {
      var i, v := s.pc.at.value, s.pc.v;
      LeftAfter(Listed(s, v.ch), i);
      var f := FilterAt(s, i);
      var v' := if f.crcCheck then CheckCrc(v) else v;
      SameFilter(s, i);
      if f.status != Enabled || f.access || f.waitClose {
        PassLowersRank(s, v, i, f);
      } else if !Hit(f, v.section) {
        PassLowersRank(s, v, i, f.(access := true));
      } else if f.crcCheck && v'.crcWrong {
        PassLowersRank(s, v', i, f.(access := true));
      } else if f.hasRequest {
        AskLowersRank(s, v', i);
      } else {
        DeliverLowersRank(s, v', i);
      }
    }
  }

  lemma PassLowersRank(s: State, v: Visit, i: nat, g: Filter)
    requires Shaped(s) && s.pc.Scan? && s.pc.at == Some(i)
    requires s.dev.sections.slots[s.pc.v.ch].life == s.pc.v.chLife
    requires v.ch == s.pc.v.ch && v.chLife == s.pc.v.chLife
    requires LeftAt(Listed(s, v.ch), NextAfter(Listed(s, v.ch), i)) == Left(Listed(s, v.ch), i) - 1
    ensures var t := ScanNext(WithFilter(s, i, g), v, i); Shaped(t) ==> Rank(t) < Rank(s)
  {}

  lemma AskLowersRank(s: State, v: Visit, i: nat)
    requires Shaped(s) && s.pc.Scan? && s.pc.at == Some(i)
    requires s.dev.sections.slots[s.pc.v.ch].life == s.pc.v.chLife
    requires v.ch == s.pc.v.ch && v.chLife == s.pc.v.chLife
    ensures
      var f := FilterAt(s, i);
      var t := WithSession(WithFilter(s, i, Asking(f)), v.ch, Stamped)
        .(pc := Requesting(v, i, f.life), log := s.log + [RequestBegins(i, f.life)]);
      Shaped(t) ==> Rank(t) < Rank(s)
  {}

  lemma DeliverLowersRank(s: State, v: Visit, i: nat)
    requires Shaped(s) && s.pc.Scan? && s.pc.at == Some(i)
    requires s.dev.sections.slots[s.pc.v.ch].life == s.pc.v.chLife
    requires v.ch == s.pc.v.ch && v.chLife == s.pc.v.chLife
    requires LeftAt(Listed(s, v.ch), NextAfter(Listed(s, v.ch), i)) == Left(Listed(s, v.ch), i) - 1
    ensures Shaped(Deliver(s, v, i, false)) ==> Rank(Deliver(s, v, i, false)) < Rank(s)
  {}

  /** What the steps after a callback need to know of the visit. */
  ghost predicate VisitKnown(s: State)
    requires Shaped(s) && s.pc.AtFilter()
  {
    && Rank(s) >= StageOf(s.pc) && Distinct(Listed(s, s.pc.v.ch))
    && (FilterCheck(s) <==> FilterAt(s, s.pc.slot).life == s.pc.life)
    && (FilterCheck(s) ==> FilterAt(s, s.pc.slot).Live() && s.pc.slot in Listed(s, s.pc.v.ch))
    && (ChannelCheck(s) ==> s.dev.sections.slots[s.pc.v.ch].life == s.pc.v.chLife)
  }

  lemma VisitIsKnown(s: State)
    requires Inv(s) && Shaped(s) && s.pc.AtFilter()
    ensures VisitKnown(s)
  {
    VisitedSlot(s);
    VisitFacts(s);
    RestartsPositive(s);
  }

  /** Going on with the next filter, or from the list head if the visited one was freed. */
  lemma MovesOnLowersRank(s: State, u: State)
    requires Shaped(s) && s.pc.AtFilter() && !s.pc.InCallback() && VisitKnown(s) && ChannelCheck(s)
    requires Shaped(u) && u.pc.Scan? && u.pc.v == s.pc.v && Listed(u, s.pc.v.ch) == Listed(s, s.pc.v.ch)
    requires u.dev.sections.slots[s.pc.v.ch].life == s.dev.sections.slots[s.pc.v.ch].life
    requires u.pc.at ==
      if FilterCheck(s) then NextAfter(Listed(s, s.pc.v.ch), s.pc.slot) else First(Listed(s, s.pc.v.ch))
    ensures Rank(u) < Rank(s)
  {
    FromHead(s);
    if FilterCheck(s) {
      LeftAfter(Listed(s, s.pc.v.ch), s.pc.slot);
    }
  }

  /** Where the steps after a callback lead, the channel being there. */
  lemma RejoinMovesOn(s: State, t: State)
    requires Shaped(s) && s.pc.AtFilter() && VisitKnown(s) && Shaped(t) && t.pc == s.pc
    requires t.dev.sections.slots[s.pc.v.ch].filters == Listed(s, s.pc.v.ch)
    requires t.dev.sections.slots[s.pc.v.ch].life == s.dev.sections.slots[s.pc.v.ch].life
    requires FilterAt(t, s.pc.slot).session == FilterAt(s, s.pc.slot).session
    requires FilterAt(t, s.pc.slot).status == FilterAt(s, s.pc.slot).status
    requires Rejoin(t).Some?
    ensures
      var u := Rejoin(t).value;
      && u.pc.Scan? && u.pc.v == s.pc.v && |u.dev.sections.slots| == |t.dev.sections.slots|
      && u.dev.sections == t.dev.sections
      && u.pc.at == if FilterCheck(s) then NextAfter(Listed(s, s.pc.v.ch), s.pc.slot) else First(Listed(s, s.pc.v.ch))
  {}

  lemma RequestedLowersRank(s: State)
    requires Shaped(s) && s.pc.Requested? && VisitKnown(s) && Shaped(RequestedStep(s))
    ensures Rank(RequestedStep(s)) < Rank(s)
  {
    if ChannelCheck(s) {
      var u, t := RequestedStep(s), WithSession(s, s.pc.v.ch, Cleared);
      if Rejoin(t).Some? {
        RejoinMovesOn(s, t);
        MovesOnLowersRank(s, u);
      } else if u.pc.Scan? {
        MovesOnLowersRank(s, u);
      }
    }
  }

  lemma UpdatedLowersRank(s: State)
    requires Shaped(s) && s.pc.Updated? && VisitKnown(s) && Shaped(UpdatedStep(s))
    ensures Rank(UpdatedStep(s)) < Rank(s)
  {
    if ChannelCheck(s) {
      var i, t := s.pc.slot, WithSession(s, s.pc.v.ch, Cleared);
      if Rejoin(Noted(t, i)).Some? {
        RejoinMovesOn(s, Noted(t, i));
      }
      MovesOnLowersRank(s, UpdatedStep(s));
    }
  }

  lemma FromHead(s: State)
    requires Shaped(s) && s.pc.AtFilter()
    ensures LeftAt(Listed(s, s.pc.v.ch), First(Listed(s, s.pc.v.ch))) == |Listed(s, s.pc.v.ch)|
  {}

  function DispatcherSteps(steps: seq<Step>): nat {
    if steps == [] then 0 else (if DispatcherStep(steps[0]) then 1 else 0) + DispatcherSteps(steps[1..])
  }

  /** However calls that allocate no filter interleave with a dispatch, the dispatcher takes no more
      steps than the rank it starts with; the rest is not its doing. */
  lemma {:induction false} DispatchIsBounded(s: State, steps: seq<Step>, t: State)
    requires Inv(s) && Shaped(s) && Runs(s, steps, t) && forall k :: 0 <= k < |steps| ==> Quietly(steps[k])
    ensures Inv(t) && Shaped(t) && 0 <= Rank(t) && DispatcherSteps(steps) + Rank(t) <= Rank(s)
    decreases |steps|
  {
    if steps == [] {
      RankIsNatural(s);
    } else {
      if DispatcherStep(steps[0]) {
        DispatcherLowersRank(s, steps[0]);
      } else {
        OutsideKeepsRank(s, steps[0]);
      }
      DispatchIsBounded(Take(s, steps[0]), steps[1..], t);
    }
  }

  lemma RankIsNatural(s: State)
    requires Inv(s) && Shaped(s)
    ensures Rank(s) >= 0
  {
    if s.pc.AtFilter() {
      RestartsPositive(s);
    }
  }

  /** A dispatch that begins with `n` filters listed takes at most this many steps. */
  lemma RankAtBegin(s: State, ch: nat, section: seq<bv8>)
    requires Inv(s) && s.pc.Idle? && ch < |s.dev.sections.slots| && s.dev.sections.slots[ch].status == Enabled
    ensures Inv(Begin(s, ch, section)) && Shaped(Begin(s, ch, section))
    ensures var n := |Listed(s, ch)|; Rank(Begin(s, ch, section)) == Restarts(n) + 5 * n + 1
  {
    BeginKeeps(s, ch, section);
    InvIsShaped(Begin(s, ch, section));
  }
}
