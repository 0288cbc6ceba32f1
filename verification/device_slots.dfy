/** The slot tables of one device as arrays updated in place. Each call is proved to do what the call of the
    same name in `Device` does on values. */
module DeviceSlots {
  import opened Sequences
  import opened Calls = Device
  import opened Slots
  import opened SlotRings

  /** The lists threaded through the slots are those of the channels; the head in a slot is initialised as long
      as there is a channel in it. */
  ghost predicate Spells(lists: seq<seq<nat>>, ready: set<nat>, slots: seq<Channel>) {
    && |lists| == |slots|
    && forall c {:trigger lists[c]} {:trigger slots[c]} :: 0 <= c < |slots| ==>
         lists[c] == slots[c].filters && (c in ready <==> slots[c].Live())
  }

  class Demux {
    const sections: array<Channel>
    const records: array<Channel>
    const services: array<Channel>
    const streams: array<Channel>
    const filters: array<Filter>

    /** The filter lists: a head in each section channel's slot, a node in each filter's. */
    const rings: Rings

    /** The lists of allocated channels, by type. */
    var order: map<ChannelType, seq<nat>>

    ghost predicate Shaped()
      reads this
    {
      && sections != records && sections != services && sections != streams
      && records != services && records != streams && services != streams
      && Section in order && Record in order && Service in order && Stream in order
      && |rings.heads| == sections.Length && |rings.nodes| == filters.Length
    }

    function ArrayOf(t: ChannelType): array<Channel> {
      match t
      case Section => sections
      case Record => records
      case Service => services
      case Stream => streams
    }

    ghost function PoolAt(t: ChannelType): Pool
      reads this, ArrayOf(t)
      requires Shaped()
    {
      Pool(ArrayOf(t)[..], order[t])
    }

    ghost function Model(): Calls.Device
      reads this, sections, records, services, streams, filters
      requires Shaped()
    {
      Calls.Device.Device(PoolAt(Section), PoolAt(Record), PoolAt(Service), PoolAt(Stream), filters[..])
    }

    /** Around the head of each channel lie the nodes of its filters, in the order of its list. */
    ghost predicate Threaded()
      reads this, sections, rings, rings.heads, rings.nodes
    {
      Shaped() && rings.Valid() && Spells(rings.lists, rings.ready, sections[..])
    }

    ghost predicate Valid()
      reads this, sections, records, services, streams, filters, rings, rings.heads, rings.nodes
    {
      Threaded() && Owned(Model())
    }

    constructor ()
      ensures Valid() && Model() == Opened()
      ensures fresh(sections) && fresh(records) && fresh(services) && fresh(streams) && fresh(filters)
      ensures fresh(rings) && fresh(rings.heads) && fresh(rings.nodes)
    {
      sections := new Channel[Capacity(Section)](_ => BlankChannel(0));
      records := new Channel[Capacity(Record)](_ => BlankChannel(0));
      services := new Channel[Capacity(Service)](_ => BlankChannel(0));
      streams := new Channel[Capacity(Stream)](_ => BlankChannel(0));
      filters := new Filter[MAX_FILTERS](_ => BlankFilter(0));
      rings := new Rings(Capacity(Section), MAX_FILTERS);
      order := map[Section := [], Record := [], Service := [], Stream := []];
      new;
      assert sections[..] == BlankPool(Section).slots && records[..] == BlankPool(Record).slots;
      assert services[..] == BlankPool(Service).slots && streams[..] == BlankPool(Stream).slots;
      assert filters[..] == Opened().filters;
      OpenedIsOwned();
    }

    method FreeSlot(slots: array<Channel>) returns (i: nat)
      ensures i <= slots.Length && FirstFreeChannel(slots[..]) == if i < slots.Length then Some(i) else None
    {
      i := 0;
      while i < slots.Length && slots[i].status != Free && slots[i].id != 0
        invariant i <= slots.Length && FirstFreeChannel(slots[..]) == FirstFreeChannel(slots[..], i)
      {
        i := i + 1;
      }
    }

    method FreeFilterSlot() returns (i: nat)
      ensures i <= filters.Length && FirstFreeFilter(filters[..]) == if i < filters.Length then Some(i) else None
    {
      i := 0;
      while i < filters.Length && filters[i].status != Free
        invariant i <= filters.Length && FirstFreeFilter(filters[..]) == FirstFreeFilter(filters[..], i)
      {
        i := i + 1;
      }
    }

    method FilterWithId(id: nat) returns (i: nat)
      ensures i <= filters.Length && FindFilter(filters[..], id) == if i < filters.Length then Some(i) else None
    {
      i := 0;
      while i < filters.Length && !(filters[i].id == id && filters[i].status != Free)
        invariant i <= filters.Length && FindFilter(filters[..], id) == FindFilter(filters[..], id, i)
      {
        i := i + 1;
      }
    }

    /** Walk a type's list for a channel id. */
    method ChannelWithId(t: ChannelType, id: nat) returns (r: Option<nat>)
      requires Shaped() && forall k :: 0 <= k < |order[t]| ==> order[t][k] < ArrayOf(t).Length
      ensures r == FindChannel(PoolAt(t), id) && (r.Some? ==> r.value < ArrayOf(t).Length)
    {
      var k := 0;
      while k < |order[t]| && ArrayOf(t)[order[t][k]].id != id
        invariant k <= |order[t]| && FindChannel(PoolAt(t), id) == FindChannel(PoolAt(t), id, k)
      {
        k := k + 1;
      }
      r := if k < |order[t]| then Some(order[t][k]) else None;
    }

    lemma InRange(t: ChannelType)
      requires Valid()
      ensures forall k :: 0 <= k < |order[t]| ==> order[t][k] < ArrayOf(t).Length
    {
      assert PoolOwned(t, Model().PoolOf(t));
      forall k | 0 <= k < |order[t]| ensures order[t][k] < ArrayOf(t).Length {
        assert order[t][k] in PoolAt(t).order;
      }
    }

    /** A slot is rewritten, and its type's list. */
    method Put(t: ChannelType, i: nat, ch: Channel, list: seq<nat>)
      requires Shaped() && i < ArrayOf(t).Length
      modifies this`order, ArrayOf(t)
      ensures Shaped() && Model() == old(Model()).WithPool(t, Pool(old(PoolAt(t)).slots[i := ch], list))
    {
      ArrayOf(t)[i] := ch;
      order := order[t := list];
    }

    method AllocateChannel(code: nat) returns (answer: Answer)
      requires Valid()
      modifies this`order, sections, records, services, streams, rings`ready, rings.heads
      ensures Valid() && (Model(), answer) == Calls.AllocateChannel(old(Model()), code)
    {
      AllocateChannelKeeps(Model(), code);
      var kind := TypeOfCode(code);
      if kind.None? {
        return Fail(BadChannelType);
      }
      var t := kind.value;
      assert PoolOwned(t, Model().PoolOf(t));
      var i := FreeSlot(ArrayOf(t));
      if i == ArrayOf(t).Length {
        return Fail(NoChannel);
      }
      assert SlotNamed(t, ArrayOf(t)[i], i);
      Occupy(t, i);
      answer := Ok(ChannelId(t, i));
    }

    /** A channel takes a slot: it goes to the end of its type's list, with an empty list of its own. */
    method Occupy(t: ChannelType, i: nat)
      requires Threaded() && i < ArrayOf(t).Length && !ArrayOf(t)[i].Live() && ArrayOf(t)[i].filters == []
      modifies this`order, ArrayOf(t), rings`ready, rings.heads
      ensures Threaded()
      ensures
        var p := old(PoolAt(t));
        var ch := p.slots[i].(id := ChannelId(t, i), status := Disabled, filters := [], fltCnt := 0);
        Model() == old(Model()).WithPool(t, Pool(p.slots[i := ch], p.order + [i]))
    {
      ghost var slots := sections[..];
      var ch := ArrayOf(t)[i].(id := ChannelId(t, i), status := Disabled, filters := [], fltCnt := 0);
      Put(t, i, ch, order[t] + [i]);
      if t == Section {
        SpellsOccupied(rings.lists, rings.ready, slots, i, ch);
        rings.Init(i);
      }
    }

    method AllocateFilter(id: nat) returns (answer: Answer)
      requires Valid()
      modifies sections, filters, rings`lists, rings.heads, rings.nodes
      ensures Valid() && (Model(), answer) == Calls.AllocateFilter(old(Model()), id)
    {
      AllocateFilterKeeps(Model(), id);
      if TypeOfCode(IdType(id)) != Some(Section) {
        return Fail(BadChannelType);
      }
      InRange(Section);
      var c := ChannelWithId(Section, id);
      if c.None? {
        return Fail(NoChannel);
      }
      var i := FreeFilterSlot();
      if i == filters.Length {
        return Fail(NoFilter);
      }
      FoundIsLive(Model(), id);
      FreeIsOnNoList(Model(), i);
      Link(c.value, i);
      answer := Ok(i);
    }

    /** A filter takes a slot, which goes to the end of its channel's list. */
    method Link(c: nat, i: nat)
      requires Threaded() && c < sections.Length && sections[c].Live() && i < filters.Length
      requires forall b :: 0 <= b < sections.Length ==> i !in sections[b].filters
      modifies sections, filters, rings`lists, rings.heads, rings.nodes
      ensures Threaded() && Model() == LinkFilter(old(Model()), c, i)
    {
      var ch := sections[c].(filters := sections[c].filters + [i], fltCnt := sections[c].fltCnt + 1);
      SpellsRelinked(rings.lists, rings.ready, sections[..], c, ch);
      rings.Link(c, i);
      PutBoth(c, ch, i, filters[i].(id := i, status := Disabled, owner := c));
    }

    /** A filter that no callback runs for is unlinked and its slot zeroed. */
    method FreeFilter(id: nat) returns (answer: Answer)
      requires Valid()
      modifies sections, filters, rings`lists, rings.heads, rings.nodes
      ensures Valid() && (Model(), answer) == Calls.FreeFilter(old(Model()), id)
    {
      CallKeepsOwnership(Model(), CallFreeFilter(id));
      var i := FilterWithId(id);
      if i == filters.Length {
        return Fail(NoFilter);
      }
      ghost var k := LiveIsListed(Model(), i);
      Unlink(i, k);
      answer := Done;
    }

    /** One look of a free call at slot `i`, by the dispatcher's own thread or another. */
    method LookToFree(i: nat, own: bool) returns (look: Look)
      requires Valid() && i < filters.Length
      modifies sections, filters, rings`lists, rings.heads, rings.nodes
      ensures Valid() && (Model(), look) == Calls.LookToFree(old(Model()), i, own)
    {
      ghost var d := Model();
      if !own && filters[i].flag == FlagCallback {
        MarkFilterKeeps(d, i);
        filters[i] := filters[i].(waitClose := true);
        assert filters[..] == d.filters[i := d.filters[i].(waitClose := true)];
        return Waits;
      }
      if filters[i].status == Free {
        return Faults;
      }
      UnlinkFilterKeeps(d, i);
      ghost var k := LiveIsListed(d, i);
      Unlink(i, k);
      look := Frees;
    }

    /** Take a live filter, the `k`-th of its channel's list, off that list and zero its slot. */
    method Unlink(i: nat, ghost k: nat)
      requires Threaded() && i < filters.Length && filters[i].Live() && filters[i].owner < sections.Length
      requires var l := sections[filters[i].owner].filters; k < |l| && l[k] == i
      modifies sections, filters, rings`lists, rings.heads, rings.nodes
      ensures Threaded() && Model() == UnlinkFilter(old(Model()), i)
    {
      var c := filters[i].owner;
      assert ListOk(rings.lists[c], |rings.nodes|);
      RemoveIsWithout(sections[c].filters, k);
      var ch := sections[c].(filters := Remove(sections[c].filters, i), fltCnt := sections[c].fltCnt - 1);
      SpellsRelinked(rings.lists, rings.ready, sections[..], c, ch);
      rings.Unlink(i, c, k);
      PutBoth(c, ch, i, filters[i].Wiped());
    }

    /** A section channel's slot and a filter's are rewritten. */
    method PutBoth(c: nat, ch: Channel, i: nat, f: Filter)
      requires Shaped() && c < sections.Length && i < filters.Length
      modifies sections, filters
      ensures sections[..] == old(sections[..])[c := ch] && filters[..] == old(filters[..])[i := f]
    {
      sections[c] := ch;
      filters[i] := f;
    }

    /** The loop over a channel's filters: each is taken off the front of the list and its slot zeroed. */
    method WipeFilters(c: nat)
      requires Threaded() && c < sections.Length && sections[c].Live()
      modifies sections, filters, rings`lists, rings.heads, rings.nodes
      ensures Threaded() && sections[..] == ClearChannel(old(Model()), c).sections.slots
      ensures filters[..] == ClearChannel(old(Model()), c).filters
    {
      ghost var d, k := Model(), 0;
      assert ListOk(rings.lists[c], |rings.nodes|);
      PartlyBegun(d, c);
      var done := rings.Empty(c);
      while !done
        invariant Threaded() && sections[c].Live() && (done <==> sections[c].filters == [])
        invariant Partly(d, c, k, sections[..], filters[..])
        decreases |sections[c].filters|
      {
        PartlyOn(d, c, k, sections[..], filters[..]);
        TakeFront(c);
        k := k + 1;
        done := rings.Empty(c);
      }
      PartlyDone(d, c, k, sections[..], filters[..]);
    }

    method Clear(c: nat)
      requires Threaded() && c < sections.Length && sections[c].Live()
      modifies sections, filters, rings`lists, rings.heads, rings.nodes
      ensures Threaded() && Model() == ClearChannel(old(Model()), c)
    {
      WipeFilters(c);
    }

    method TakeFront(c: nat)
      requires Threaded() && c < sections.Length && sections[c].Live() && sections[c].filters != []
      modifies sections, filters, rings`lists, rings.heads, rings.nodes
      ensures Threaded()
      ensures
        var ch := old(sections[c]);
        sections[..] == old(sections[..])[c := ch.(filters := ch.filters[1..], fltCnt := ch.fltCnt - 1)]
      ensures
        var i := old(sections[c]).filters[0];
        i < filters.Length && filters[..] == old(filters[..])[i := old(filters[i]).Wiped()]
    {
      assert ListOk(rings.lists[c], |rings.nodes|);
      var i := rings.First(c);
      var ch := sections[c].(filters := sections[c].filters[1..], fltCnt := sections[c].fltCnt - 1);
      assert Without(sections[c].filters, 0) == ch.filters;
      SpellsRelinked(rings.lists, rings.ready, sections[..], c, ch);
      rings.Unlink(i, c, 0);
      PutBoth(c, ch, i, filters[i].Wiped());
    }

    method FreeFilterAll(id: nat) returns (answer: Answer)
      requires Valid()
      modifies sections, filters, rings`lists, rings.heads, rings.nodes
      ensures Valid() && (Model(), answer) == Calls.FreeFilterAll(old(Model()), id)
    {
      FreeFilterAllKeeps(Model(), id);
      if TypeOfCode(IdType(id)) != Some(Section) {
        return Fail(BadChannelType);
      }
      InRange(Section);
      var c := ChannelWithId(Section, id);
      if c.None? {
        return Fail(NoChannel);
      }
      FoundIsLive(Model(), id);
      Clear(c.value);
      answer := Done;
    }

    /** The second half of freeing a channel. The lists stay threaded if the channel has no filters by then. */
    method DropChannel(t: ChannelType, id: nat) returns (answer: Answer)
      requires Valid()
      modifies this`order, ArrayOf(t), rings`ready, rings.heads
      ensures Shaped() && (Model(), answer) == Calls.DropChannel(old(Model()), t, id)
      ensures
        var p := old(PoolAt(t)); var c := FindChannel(p, id);
        (c.Some? ==> p.slots[c.value].filters == []) ==> Threaded()
    {
      InRange(t);
      var c := ChannelWithId(t, id);
      if c.None? {
        return Fail(NoChannel);
      }
      Vacate(t, c.value);
      answer := Done;
    }

    /** A channel leaves its slot, which is zeroed with the head of its filter list. */
    method Vacate(t: ChannelType, i: nat)
      requires Threaded() && i < ArrayOf(t).Length
      modifies this`order, ArrayOf(t), rings`ready, rings.heads
      ensures Shaped() && (old(ArrayOf(t)[i]).filters == [] ==> Threaded())
      ensures var p := old(PoolAt(t));
        Model() == old(Model()).WithPool(t, Pool(p.slots[i := p.slots[i].Wiped()], Remove(p.order, i)))
    {
      ghost var slots := sections[..];
      var ch := ArrayOf(t)[i].Wiped();
      if t == Section {
        if slots[i].filters == [] {
          SpellsOccupied(rings.lists, rings.ready, slots, i, ch);
        }
        rings.Wipe(i);
      }
      Put(t, i, ch, Remove(order[t], i));
    }

    /** A channel's filters go first, then the channel itself. */
    method FreeChannel(id: nat) returns (answer: Answer)
      requires Valid()
      modifies this`order, sections, records, services, streams, filters, rings, rings.heads, rings.nodes
      ensures Valid() && (Model(), answer) == Calls.FreeChannel(old(Model()), id)
    {
      FreeChannelKeeps(Model(), id);
      var kind := TypeOfCode(IdType(id));
      if kind.None? {
        return Fail(BadChannelType);
      }
      ClearedList(Model(), kind.value, id);
      var _ := FreeFilterAll(id);
      answer := DropChannel(kind.value, id);
    }
  }

  /** After the first half of freeing a channel its list is empty. */
  lemma ClearedList(d: Calls.Device, t: ChannelType, id: nat)
    requires Owned(d) && TypeOfCode(IdType(id)) == Some(t)
    ensures
      var p := FreeFilterAll(d, id).0.PoolOf(t);
      var c := FindChannel(p, id);
      c.Some? ==> c.value < |p.slots| && p.slots[c.value].filters == []
  {
    var e := FreeFilterAll(d, id).0;
    FreeFilterAllKeeps(d, id);
    assert PoolOwned(t, e.PoolOf(t)) && PoolOwned(t, d.PoolOf(t));
    FindChannelNamed(t, e.PoolOf(t), id);
    FindChannelNamed(t, d.PoolOf(t), id);
    var c := FindChannel(e.PoolOf(t), id);
    if c.Some? {
      assert SlotNamed(t, e.PoolOf(t).slots[c.value], c.value);
    }
  }

  lemma FoundIsLive(d: Calls.Device, id: nat)
    requires Owned(d)
    ensures var c := FindChannel(d.sections, id);
      c.Some? ==> c.value < |d.sections.slots| && d.sections.slots[c.value].Live()
  {
    assert PoolOwned(Section, d.PoolOf(Section));
    FindChannelNamed(Section, d.sections, id);
  }

  lemma FreeIsOnNoList(d: Calls.Device, i: nat)
    requires Owned(d) && i < |d.filters| && !d.filters[i].Live()
    ensures forall b :: 0 <= b < |d.sections.slots| ==> i !in d.sections.slots[b].filters
  {
    forall b | 0 <= b < |d.sections.slots| ensures i !in d.sections.slots[b].filters {
      assert ListOwned(d, b);
    }
  }

  lemma LiveIsListed(d: Calls.Device, i: nat) returns (k: nat)
    requires Owned(d) && i < |d.filters| && d.filters[i].Live()
    ensures d.filters[i].owner < |d.sections.slots|
    ensures var l := d.sections.slots[d.filters[i].owner].filters; k < |l| && l[k] == i
  {
    assert FilterPlaced(d, i);
    k :| k < |d.sections.slots[d.filters[i].owner].filters| && d.sections.slots[d.filters[i].owner].filters[k] == i;
  }

  lemma {:induction false} RemoveIsWithout(l: seq<nat>, k: nat)
    requires Distinct(l) && k < |l|
    ensures Remove(l, l[k]) == Without(l, k)
  {
    var rest := l[1..];
    if k == 0 {
      RemoveNone(rest, l[0]);
      assert Without(l, 0) == rest;
    } else {
      RemoveIsWithout(rest, k - 1);
      assert Without(l, k) == [l[0]] + Without(rest, k - 1);
    }
  }

  lemma {:induction false} RemoveNone(l: seq<nat>, x: nat)
    requires forall k :: 0 <= k < |l| ==> l[k] != x
    ensures Remove(l, x) == l
  {
    if l != [] {
      RemoveNone(l[1..], x);
      assert l == [l[0]] + l[1..];
    }
  }

  lemma SpellsRelinked(lists: seq<seq<nat>>, ready: set<nat>, slots: seq<Channel>, c: nat, ch: Channel)
    requires Spells(lists, ready, slots) && c < |slots| && ch.Live() == slots[c].Live()
    ensures Spells(lists[c := ch.filters], ready, slots[c := ch])
  {}

  lemma SpellsOccupied(lists: seq<seq<nat>>, ready: set<nat>, slots: seq<Channel>, i: nat, ch: Channel)
    requires Spells(lists, ready, slots) && i < |slots| && slots[i].filters == [] == ch.filters
    ensures Spells(lists, if ch.Live() then ready + {i} else ready - {i}, slots[i := ch])
  {}

  /** The device while a channel's list is being cleared, `k` of its filters being gone. */
  ghost predicate Partly(d: Calls.Device, c: nat, k: nat, slots: seq<Channel>, filters: seq<Filter>)
    requires c < |d.sections.slots|
  {
    var ch := d.sections.slots[c];
    && k <= |ch.filters| && filters == WipeListed(d.filters, ch.filters[..k])
    && slots == d.sections.slots[c := ch.(filters := ch.filters[k..], fltCnt := ch.fltCnt - k)]
  }

  lemma PartlyBegun(d: Calls.Device, c: nat)
    requires c < |d.sections.slots|
    ensures Partly(d, c, 0, d.sections.slots, d.filters)
  {
    var ch := d.sections.slots[c];
    assert ch.filters[0..] == ch.filters && ch.(filters := ch.filters, fltCnt := ch.fltCnt - 0) == ch;
    assert WipeListed(d.filters, []) == d.filters;
  }

  lemma PartlyOn(d: Calls.Device, c: nat, k: nat, slots: seq<Channel>, filters: seq<Filter>)
    requires c < |d.sections.slots| && Partly(d, c, k, slots, filters) && slots[c].filters != []
    requires Distinct(d.sections.slots[c].filters) && slots[c].filters[0] < |filters|
    ensures
      var ch, i := slots[c], slots[c].filters[0];
      var slots' := slots[c := ch.(filters := ch.filters[1..], fltCnt := ch.fltCnt - 1)];
      Partly(d, c, k + 1, slots', filters[i := filters[i].Wiped()])
  {
    var l := d.sections.slots[c].filters;
    assert l[k..][1..] == l[k + 1..];
    WipeOne(d.filters, l, k);
  }

  lemma PartlyDone(d: Calls.Device, c: nat, k: nat, slots: seq<Channel>, filters: seq<Filter>)
    requires c < |d.sections.slots| && Partly(d, c, k, slots, filters) && slots[c].filters == []
    ensures slots == ClearChannel(d, c).sections.slots && filters == ClearChannel(d, c).filters
  {
    var l := d.sections.slots[c].filters;
    assert l[k..] == [] && k == |l| && l[..k] == l;
  }

  lemma WipeOne(filters: seq<Filter>, listed: seq<nat>, k: nat)
    requires k < |listed| && listed[k] < |filters| && Distinct(listed)
    ensures
      var i, wiped := listed[k], WipeListed(filters, listed[..k]);
      WipeListed(filters, listed[..k + 1]) == wiped[i := wiped[i].Wiped()]
  {
    var i, wiped := listed[k], WipeListed(filters, listed[..k]);
    assert listed[..k + 1] == listed[..k] + [i];
    assert i !in listed[..k];
    assert wiped[i] == filters[i];
  }
}
