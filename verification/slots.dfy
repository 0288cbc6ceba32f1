/** Who owns which slot: the invariant of the slot tables, kept by every call and every history of calls. */
module Slots {
  import opened Sequences
  import opened Device

  lemma {:induction false} RemoveKeeps(s: seq<nat>, x: nat)
    requires Distinct(s)
    ensures Distinct(Remove(s, x))
    ensures forall y :: y in Remove(s, x) <==> y in s && y != x
    ensures |Remove(s, x)| == |s| - if x in s then 1 else 0
  {
    if s != [] {
      assert Distinct(s[1..]);
      assert s == [s[0]] + s[1..];
      RemoveKeeps(s[1..], x);
      var rest := Remove(s[1..], x);
      assert s[0] !in s[1..];
      assert s[0] !in rest;
      assert Distinct([s[0]] + rest);
    }
  }

  /** One type's table: the list holds exactly the allocated slots, once each, and their ids name them. */
  ghost predicate PoolOwned(t: ChannelType, p: Pool) {
    && |p.slots| == Capacity(t)
    && Distinct(p.order)
    && (forall i: nat :: i in p.order <==> i < |p.slots| && p.slots[i].Live())
    && (forall i :: 0 <= i < |p.slots| ==> SlotNamed(t, p.slots[i], i))
  }

  ghost predicate SlotNamed(t: ChannelType, ch: Channel, i: nat) {
    && (ch.Live() ==> ch.id == ChannelId(t, i))
    && (!ch.Live() ==> ch.id == 0 && ch.session == Blank)
    && (!ch.Live() || t != Section ==> ch.filters == [])
    && ch.fltCnt == |ch.filters|
  }

  /** A live filter is on the list of the live channel it points back to, and names itself. */
  ghost predicate FilterPlaced(d: Device, i: nat)
    requires i < |d.filters|
  {
    var f := d.filters[i];
    f.Live() ==>
      && f.id == i
      && f.owner < |d.sections.slots|
      && d.sections.slots[f.owner].Live()
      && i in d.sections.slots[f.owner].filters
  }

  /** A channel's list holds only live filters that point back to it, once each. */
  ghost predicate ListOwned(d: Device, c: nat)
    requires c < |d.sections.slots|
  {
    var listed := d.sections.slots[c].filters;
    && Distinct(listed)
    && (forall i: nat :: i in listed ==> i < |d.filters| && d.filters[i].Live() && d.filters[i].owner == c)
  }

  ghost predicate FiltersOwned(d: Device) {
    && |d.filters| == MAX_FILTERS
    && (forall i :: 0 <= i < |d.filters| ==> d.filters[i].pattern.Valid())
    && (forall i {:trigger FilterPlaced(d, i)} :: 0 <= i < |d.filters| ==> FilterPlaced(d, i))
    && (forall c {:trigger ListOwned(d, c)} :: 0 <= c < |d.sections.slots| ==> ListOwned(d, c))
  }

  ghost predicate Owned(d: Device) {
    && (forall t :: PoolOwned(t, d.PoolOf(t)))
    && FiltersOwned(d)
  }

  lemma OpenedIsOwned()
    ensures Owned(Opened())
  {}

  // Ids.

  /** An id decodes to the type and the slot it was made from. */
  lemma IdDecodes(t: ChannelType, i: nat)
    requires i < Capacity(t)
    ensures TypeOfCode(IdType(ChannelId(t, i))) == Some(t)
    ensures IdIndex(ChannelId(t, i)) == i
    ensures ChannelId(t, i) != 0
  {}

  /** Looking an id up in an owned table finds the slot the id names, or nothing when it is not allocated. */
  lemma FindChannelNamed(t: ChannelType, p: Pool, id: nat)
    requires PoolOwned(t, p)
    ensures var r := FindChannel(p, id);
      if IdIndex(id) < Capacity(t) && id == ChannelId(t, IdIndex(id)) && p.slots[IdIndex(id)].Live()
      then r == Some(IdIndex(id))
      else r == None
  {
    if IdIndex(id) < Capacity(t) && id == ChannelId(t, IdIndex(id)) && p.slots[IdIndex(id)].Live() {
      assert IdIndex(id) in p.order;
      var k :| 0 <= k < |p.order| && p.order[k] == IdIndex(id);
      assert SlotNamed(t, p.slots[p.order[k]], p.order[k]);
      assert ListedWithId(p, k, id);
    }
    var r := FindChannel(p, id);
    if r.Some? {
      var k :| 0 <= k < |p.order| && p.order[k] == r.value && ListedWithId(p, k, id);
      assert p.order[k] in p.order;
      IdDecodes(t, r.value);
    }
  }

  lemma FindFilterNamed(d: Device, id: nat)
    requires FiltersOwned(d)
    ensures FindFilter(d.filters, id) == if id < MAX_FILTERS && d.filters[id].Live() then Some(id) else None
  {
    if id < MAX_FILTERS {
      assert FilterPlaced(d, id);
    }
    var r := FindFilter(d.filters, id);
    if r.Some? {
      assert FilterPlaced(d, r.value);
    }
  }

  // Each call keeps the invariant.

  lemma OtherPools(d: Device, t: ChannelType, p: Pool)
    requires forall u :: PoolOwned(u, d.PoolOf(u))
    requires PoolOwned(t, p)
    ensures forall u :: PoolOwned(u, d.WithPool(t, p).PoolOf(u))
  {
    forall u ensures PoolOwned(u, d.WithPool(t, p).PoolOf(u)) {
      assert PoolOwned(u, d.PoolOf(u));
      assert d.WithPool(t, p).PoolOf(u) == if u == t then p else d.PoolOf(u);
    }
  }

  lemma AllocateChannelKeeps(d: Device, code: nat)
    requires Owned(d)
    ensures Owned(AllocateChannel(d, code).0)
  {
    var t := TypeOfCode(code);
    if t.Some? {
      var p := d.PoolOf(t.value);
      assert PoolOwned(t.value, p);
      var r := FirstFreeChannel(p.slots);
      if r.Some? {
        var i := r.value;
        assert SlotNamed(t.value, p.slots[i], i);
        IdDecodes(t.value, i);
        var d' := AllocateChannel(d, code).0;
        var p' := d'.PoolOf(t.value);
        assert !p.slots[i].Live();
        assert i !in p.order;
        assert PoolOwned(t.value, p') by {
          forall k: nat ensures k in p'.order <==> k < |p'.slots| && p'.slots[k].Live() {
            assert k in p'.order <==> k in p.order || k == i;
          }
        }
        OtherPools(d, t.value, p');
        forall k | 0 <= k < |d'.filters| ensures FilterPlaced(d', k) {
          assert FilterPlaced(d, k);
        }
        forall c | 0 <= c < |d'.sections.slots| ensures ListOwned(d', c) {
          assert ListOwned(d, c);
        }
      }
    }
  }

  lemma AllocateFilterKeeps(d: Device, id: nat)
    requires Owned(d)
    ensures Owned(AllocateFilter(d, id).0)
  {
    assert PoolOwned(Section, d.PoolOf(Section));
    FindChannelNamed(Section, d.sections, id);
    var c := FindChannel(d.sections, id);
    var i := FirstFreeFilter(d.filters);
    if TypeOfCode(IdType(id)) == Some(Section) && c.Some? && i.Some? {
      var d' := LinkFilter(d, c.value, i.value);
      forall k | 0 <= k < |d'.filters| ensures FilterPlaced(d', k) {
        assert FilterPlaced(d, k);
      }
      forall b | 0 <= b < |d'.sections.slots| ensures ListOwned(d', b) {
        assert ListOwned(d, b);
      }
      PoolUpdated(d, d', c.value);
    }
  }

  /** Replacing a live section channel by one with the same id and another list keeps the tables owned. */
  lemma PoolUpdated(d: Device, d': Device, c: nat)
    requires forall t :: PoolOwned(t, d.PoolOf(t))
    requires c < |d.sections.slots| && d.sections.slots[c].Live()
    requires |d'.sections.slots| == |d.sections.slots| && d'.sections.order == d.sections.order
    requires d'.records == d.records && d'.services == d.services && d'.streams == d.streams
    requires forall b :: 0 <= b < |d.sections.slots| && b != c ==> d'.sections.slots[b] == d.sections.slots[b]
    requires d'.sections.slots[c].Live() && d'.sections.slots[c].id == d.sections.slots[c].id
    requires d'.sections.slots[c].fltCnt == |d'.sections.slots[c].filters|
    ensures forall t :: PoolOwned(t, d'.PoolOf(t))
  {
    assert PoolOwned(Section, d.PoolOf(Section));
    assert PoolOwned(Section, d'.PoolOf(Section)) by {
      forall b | 0 <= b < |d'.sections.slots| ensures SlotNamed(Section, d'.sections.slots[b], b) {
        assert SlotNamed(Section, d.sections.slots[b], b);
      }
    }
    forall t ensures PoolOwned(t, d'.PoolOf(t)) {
      assert PoolOwned(t, d.PoolOf(t));
    }
  }

  /** Marking a filter that somebody waits to free changes no ownership. */
  lemma MarkFilterKeeps(d: Device, i: nat)
    requires Owned(d) && i < |d.filters|
    ensures Owned(d.(filters := d.filters[i := d.filters[i].(waitClose := true)]))
  {
    RewriteFilterKeeps(d, i, d.filters[i].(waitClose := true));
  }

  /** Rewriting a filter that keeps its name, its channel and its use changes no ownership. */
  lemma RewriteFilterKeeps(d: Device, i: nat, g: Filter)
    requires Owned(d) && i < |d.filters| && g.pattern.Valid()
    requires var f := d.filters[i]; g.id == f.id && g.owner == f.owner && g.Live() == f.Live()
    ensures Owned(d.(filters := d.filters[i := g]))
  {
    var d' := d.(filters := d.filters[i := g]);
    forall t ensures PoolOwned(t, d'.PoolOf(t)) {
      assert PoolOwned(t, d.PoolOf(t));
    }
    forall k | 0 <= k < |d'.filters| ensures FilterPlaced(d', k) {
      assert FilterPlaced(d, k);
    }
    forall b | 0 <= b < |d'.sections.slots| ensures ListOwned(d', b) {
      assert ListOwned(d, b);
    }
  }

  lemma UnlinkFilterKeeps(d: Device, i: nat)
    requires Owned(d) && i < MAX_FILTERS
    ensures Owned(UnlinkFilter(d, i))
  {
    assert FilterPlaced(d, i);
    if d.filters[i].Live() {
      var c := d.filters[i].owner;
      var d' := UnlinkFilter(d, i);
      assert ListOwned(d, c);
      RemoveKeeps(d.sections.slots[c].filters, i);
      assert PoolOwned(Section, d.PoolOf(Section));
      assert SlotNamed(Section, d.sections.slots[c], c);
      forall k | 0 <= k < |d'.filters| ensures FilterPlaced(d', k) {
        assert FilterPlaced(d, k);
      }
      forall b | 0 <= b < |d'.sections.slots| ensures ListOwned(d', b) {
        assert ListOwned(d, b);
      }
      PoolUpdated(d, d', c);
    }
  }

  lemma ClearChannelKeeps(d: Device, c: nat)
    requires Owned(d) && c < |d.sections.slots| && d.sections.slots[c].Live()
    ensures Owned(ClearChannel(d, c))
  {
    var d' := ClearChannel(d, c);
    assert PoolOwned(Section, d.PoolOf(Section));
    assert SlotNamed(Section, d.sections.slots[c], c);
    forall k | 0 <= k < |d'.filters| ensures FilterPlaced(d', k) {
      assert FilterPlaced(d, k);
    }
    forall b | 0 <= b < |d'.sections.slots| ensures ListOwned(d', b) {
      assert ListOwned(d, b);
      assert ListOwned(d, c);
    }
    PoolUpdated(d, d', c);
  }

  lemma FreeFilterAllKeeps(d: Device, id: nat)
    requires Owned(d)
    ensures Owned(FreeFilterAll(d, id).0)
  {
    assert PoolOwned(Section, d.PoolOf(Section));
    FindChannelNamed(Section, d.sections, id);
    var c := FindChannel(d.sections, id);
    if TypeOfCode(IdType(id)) == Some(Section) && c.Some? {
      ClearChannelKeeps(d, c.value);
    }
  }

  /** Dropping a channel that carries no filter keeps the invariant. */
  lemma DropChannelKeeps(d: Device, t: ChannelType, id: nat)
    requires Owned(d)
    requires var c := FindChannel(d.PoolOf(t), id); c.Some? ==> d.PoolOf(t).slots[c.value].filters == []
    ensures Owned(DropChannel(d, t, id).0)
  {
    var p := d.PoolOf(t);
    assert PoolOwned(t, p);
    FindChannelNamed(t, p, id);
    var c := FindChannel(p, id);
    if c.Some? {
      var d' := DropChannel(d, t, id).0;
      var p' := d'.PoolOf(t);
      RemoveKeeps(p.order, c.value);
      assert PoolOwned(t, p') by {
        forall b | 0 <= b < |p'.slots| ensures SlotNamed(t, p'.slots[b], b) {
          assert SlotNamed(t, p.slots[b], b);
        }
      }
      OtherPools(d, t, p');
      forall k | 0 <= k < |d'.filters| ensures FilterPlaced(d', k) {
        assert FilterPlaced(d, k);
      }
      forall b | 0 <= b < |d'.sections.slots| ensures ListOwned(d', b) {
        assert ListOwned(d, b);
      }
    }
  }

  lemma FreeChannelKeeps(d: Device, id: nat)
    requires Owned(d)
    ensures Owned(FreeChannel(d, id).0)
  {
    var t := TypeOfCode(IdType(id));
    if t.Some? {
      var e := FreeFilterAll(d, id).0;
      FreeFilterAllKeeps(d, id);
      assert PoolOwned(t.value, e.PoolOf(t.value)) && PoolOwned(t.value, d.PoolOf(t.value));
      FindChannelNamed(t.value, e.PoolOf(t.value), id);
      FindChannelNamed(t.value, d.PoolOf(t.value), id);
      DropChannelKeeps(e, t.value, id);
    }
  }

  lemma SetFilterKeeps(d: Device, id: nat, s: Setting)
    requires Owned(d)
    ensures Owned(SetFilter(d, id, s).0)
  {
    var i := FindFilter(d.filters, id);
    if i.Some? && (s.SetPattern? ==> s.pattern.Valid()) {
      ApplyStays(d.filters[i.value], s);
      RewriteFilterKeeps(d, i.value, Apply(d.filters[i.value], s));
    }
  }

  lemma ApplyStays(f: Filter, s: Setting)
    requires f.Live() && f.pattern.Valid() && (s.SetPattern? ==> s.pattern.Valid())
    ensures var g := Apply(f, s); g.id == f.id && g.owner == f.owner && g.Live() && g.pattern.Valid()
  {
    match s
    case Control(_) =>
    case SetPattern(_, _) =>
    case SetCrcCheck(_) =>
    case SetCallbacks(_, _) =>
  }

  lemma ControlChannelKeeps(d: Device, id: nat, enable: bool)
    requires Owned(d)
    ensures Owned(ControlChannel(d, id, enable).0)
  {
    var t := TypeOfCode(IdType(id));
    if t.Some? {
      var p := d.PoolOf(t.value);
      assert PoolOwned(t.value, p);
      FindChannelNamed(t.value, p, id);
      var c := FindChannel(p, id);
      if c.Some? {
        var d' := ControlChannel(d, id, enable).0;
        var p' := d'.PoolOf(t.value);
        assert PoolOwned(t.value, p') by {
          forall b | 0 <= b < |p'.slots| ensures SlotNamed(t.value, p'.slots[b], b) {
            assert SlotNamed(t.value, p.slots[b], b);
          }
        }
        OtherPools(d, t.value, p');
        forall k | 0 <= k < |d'.filters| ensures FilterPlaced(d', k) {
          assert FilterPlaced(d, k);
        }
        forall b | 0 <= b < |d'.sections.slots| ensures ListOwned(d', b) {
          assert ListOwned(d, b);
        }
      }
    }
  }

  lemma CallKeepsOwnership(d: Device, c: Call)
    requires Owned(d)
    ensures Owned(Perform(d, c).0)
  {
    match c
    case CallAllocateChannel(code) => AllocateChannelKeeps(d, code);
    case CallFreeChannel(id) => FreeChannelKeeps(d, id);
    case CallControlChannel(id, enable) => ControlChannelKeeps(d, id, enable);
    case CallAllocateFilter(id) => AllocateFilterKeeps(d, id);
    case CallFreeFilter(id) =>
      FindFilterNamed(d, id);
      if FindFilter(d.filters, id).Some? {
        UnlinkFilterKeeps(d, id);
      }
    case CallFreeFilterAll(id) => FreeFilterAllKeeps(d, id);
    case CallSetFilter(id, s) => SetFilterKeeps(d, id, s);
  }

  function PerformAll(d: Device, calls: seq<Call>): Device
    decreases |calls|
  {
    if calls == [] then d else PerformAll(Perform(d, calls[0]).0, calls[1..])
  }

  /** Over every history of calls on an opened device the ownership invariant holds. */
  lemma {:induction false} HistoryKeepsOwnership(d: Device, calls: seq<Call>)
    requires Owned(d)
    ensures Owned(PerformAll(d, calls))
    decreases |calls|
  {
    if calls != [] {
      CallKeepsOwnership(d, calls[0]);
      HistoryKeepsOwnership(Perform(d, calls[0]).0, calls[1..]);
    }
  }

  // What the calls promise, read off an owned device.

  ghost function Below(n: nat): set<nat> {
    if n == 0 then {} else Below(n - 1) + {n - 1}
  }

  lemma {:induction false} BelowSize(n: nat)
    ensures |Below(n)| == n
    ensures forall i: nat :: i in Below(n) <==> i < n
  {
    if n != 0 {
      BelowSize(n - 1);
    }
  }

  lemma {:induction false} OrderSize(s: seq<nat>, elements: set<nat>)
    requires Distinct(s) && elements == set i: nat | i in s
    ensures |elements| == |s|
  {
    if s != [] {
      var rest := set i: nat | i in s[1..];
      assert elements == rest + {s[0]};
      OrderSize(s[1..], rest);
    }
  }

  lemma OrderIsFull(t: ChannelType, p: Pool)
    requires PoolOwned(t, p)
    ensures |p.order| == Capacity(t) <==> forall i :: 0 <= i < |p.slots| ==> p.slots[i].Live()
  {
    var all, taken := Below(Capacity(t)), set i: nat | i in p.order;
    BelowSize(Capacity(t));
    OrderSize(p.order, taken);
    assert taken <= all;
    assert |taken| + |all - taken| == |all| by {
      assert taken + (all - taken) == all;
    }
    if i: nat :| i < |p.slots| && !p.slots[i].Live() {
      assert i in all - taken;
    } else {
      assert all - taken == {};
    }
  }

  /** A channel allocation fails on a known type exactly when every slot of that type is taken. */
  lemma AllocateChannelFailsIffFull(d: Device, t: ChannelType)
    requires Owned(d)
    ensures AllocateChannel(d, TypeCode(t)).1 == Fail(NoChannel) <==> |d.PoolOf(t).order| == Capacity(t)
  {
    var p := d.PoolOf(t);
    assert PoolOwned(t, p);
    OrderIsFull(t, p);
    var r := FirstFreeChannel(p.slots);
    if r.Some? {
      assert SlotNamed(t, p.slots[r.value], r.value);
      IdDecodes(t, r.value);
    }
  }

  ghost predicate LiveSection(d: Device, c: nat) {
    c < |d.sections.slots| && d.sections.slots[c].Live()
  }

  lemma FindLiveSection(d: Device, c: nat)
    requires Owned(d) && LiveSection(d, c)
    ensures TypeOfCode(IdType(ChannelId(Section, c))) == Some(Section)
    ensures FindChannel(d.sections, ChannelId(Section, c)) == Some(c)
  {
    assert PoolOwned(Section, d.PoolOf(Section));
    IdDecodes(Section, c);
    FindChannelNamed(Section, d.sections, ChannelId(Section, c));
  }

  /** A filter allocation on a live section channel fails exactly when all filter slots are live. */
  lemma AllocateFilterFailsIffFull(d: Device, c: nat)
    requires Owned(d) && LiveSection(d, c)
    ensures AllocateFilter(d, ChannelId(Section, c)).1 == Fail(NoFilter) <==>
              forall i :: 0 <= i < |d.filters| ==> d.filters[i].Live()
    ensures var a := AllocateFilter(d, ChannelId(Section, c)).1;
              a != Fail(NoFilter) ==> a.Ok? && a.id < |d.filters| && !d.filters[a.id].Live()
  {
    FindLiveSection(d, c);
  }

  lemma ClearedChannelFound(d: Device, c: nat)
    requires Owned(d) && LiveSection(d, c)
    ensures FreeFilterAll(d, ChannelId(Section, c)) == (ClearChannel(d, c), Done)
    ensures FindChannel(ClearChannel(d, c).sections, ChannelId(Section, c)) == Some(c)
  {
    FindLiveSection(d, c);
    ClearChannelKeeps(d, c);
    FindLiveSection(ClearChannel(d, c), c);
  }

  lemma FreeChannelSteps(d: Device, id: nat, c: nat, e: Device)
    requires TypeOfCode(IdType(id)) == Some(Section) && FreeFilterAll(d, id).0 == e
    requires FindChannel(e.sections, id) == Some(c)
    ensures c < |e.sections.slots|
    ensures FreeChannel(d, id) ==
      (e.(sections := Pool(e.sections.slots[c := e.sections.slots[c].Wiped()], Remove(e.sections.order, c))), Done)
  {}

  lemma FreeChannelResult(d: Device, c: nat)
    requires Owned(d) && LiveSection(d, c)
    ensures var r := FreeChannel(d, ChannelId(Section, c)); var e := r.0;
      && r.1 == Done
      && e.filters == WipeListed(d.filters, d.sections.slots[c].filters)
      && e.sections.slots == d.sections.slots[c := d.sections.slots[c].Wiped()]
  {
    IdDecodesLive(d, c);
    ClearedChannelFound(d, c);
    FreeChannelSteps(d, ChannelId(Section, c), c, ClearChannel(d, c));
    ClearedThenWiped(d, c);
  }

  lemma ClearedThenWiped(d: Device, c: nat)
    requires c < |d.sections.slots|
    ensures var e := ClearChannel(d, c);
      && e.filters == WipeListed(d.filters, d.sections.slots[c].filters)
      && |e.sections.slots| == |d.sections.slots|
      && e.sections.slots[c := e.sections.slots[c].Wiped()] == d.sections.slots[c := d.sections.slots[c].Wiped()]
  {}

  lemma IdDecodesLive(d: Device, c: nat)
    requires Owned(d) && LiveSection(d, c)
    ensures TypeOfCode(IdType(ChannelId(Section, c))) == Some(Section)
  {
    assert PoolOwned(Section, d.PoolOf(Section));
    IdDecodes(Section, c);
  }

  /** Freeing a live channel wipes exactly the filters that point to it and leaves every other slot as it was. */
  lemma FreeChannelFreesItsFilters(d: Device, c: nat)
    requires Owned(d) && LiveSection(d, c)
    ensures var r := FreeChannel(d, ChannelId(Section, c)); var e := r.0;
      && r.1 == Done
      && |e.sections.slots| == |d.sections.slots| && |e.filters| == |d.filters|
      && (forall b :: 0 <= b < |d.sections.slots| ==>
            e.sections.slots[b] == (if b == c then d.sections.slots[b].Wiped() else d.sections.slots[b]))
      && (forall i :: 0 <= i < |d.filters| ==>
            var f := d.filters[i]; e.filters[i] == if f.Live() && f.owner == c then f.Wiped() else f)
  {
    FreeChannelResult(d, c);
    assert ListOwned(d, c);
    forall i | 0 <= i < |d.filters|
      ensures i in d.sections.slots[c].filters <==> d.filters[i].Live() && d.filters[i].owner == c
    {
      assert FilterPlaced(d, i);
    }
  }

  /** Freeing a filter unlinks it from its own channel, keeping the order of the others. */
  lemma FreeFilterUnlinks(d: Device, i: nat)
    requires Owned(d) && i < |d.filters| && d.filters[i].Live()
    ensures var r := FreeFilter(d, i); var e := r.0; var c := d.filters[i].owner;
      && r.1 == Done
      && e.filters == d.filters[i := d.filters[i].Wiped()]
      && |e.sections.slots| == |d.sections.slots|
      && (forall b :: 0 <= b < |d.sections.slots| ==>
            e.sections.slots[b].filters ==
              (if b == c then Remove(d.sections.slots[b].filters, i) else d.sections.slots[b].filters))
      && (forall b :: 0 <= b < |d.sections.slots| && b != c ==> i !in e.sections.slots[b].filters)
  {
    FindFilterNamed(d, i);
    assert PoolOwned(Section, d.PoolOf(Section));
    assert FilterPlaced(d, i);
    forall b | 0 <= b < |d.sections.slots| && b != d.filters[i].owner
      ensures i !in d.sections.slots[b].filters
    {
      assert ListOwned(d, b);
    }
  }

  /** Changing the status of a slot in use is the call on the channel in it. */
  lemma SetStatusIsCall(d: Device, c: nat, enable: bool)
    requires Owned(d) && LiveSection(d, c)
    ensures SetChannelStatus(d, c, enable) == ControlChannel(d, ChannelId(Section, c), enable).0
    ensures Owned(SetChannelStatus(d, c, enable))
  {
    FindLiveSection(d, c);
    ControlChannelKeeps(d, ChannelId(Section, c), enable);
  }
}
