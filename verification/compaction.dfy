/** Reading a record channel, whose packets have 188 bytes: packets that start with the driver's marker are
    removed in place. */
module Compaction {
  type Packet = seq<bv8>

  predicate IsMarker(p: Packet) {
    |p| >= 4 && p[0] == 0x32 && p[1] == 0x32 && p[2] == 0x32 && p[3] == 0x32
  }

  lemma MarkerIs(p: Packet)
    ensures IsMarker(p) <==> [0x32, 0x32, 0x32, 0x32] <= p
  {
    if |p| >= 4 {
      assert p[..4] == [p[0], p[1], p[2], p[3]];
    }
  }

  ghost function Slot(s: seq<bv8>, j: nat): (p: Packet)
    requires 188 * (j + 1) <= |s|
  {
    s[188 * j..188 * (j + 1)]
  }

  /** The packets of a whole number of them. */
  ghost function Packets(s: seq<bv8>, n: nat): (ps: seq<Packet>)
    requires 188 * n <= |s|
    ensures |ps| == n
  {
    seq(n, j requires 0 <= j < n => Slot(s, j))
  }

  /** The packets that are not markers, in order. */
  ghost function Clean(ps: seq<Packet>): (r: seq<Packet>) {
    if ps == [] then []
    else Clean(ps[..|ps| - 1]) + if IsMarker(ps[|ps| - 1]) then [] else [ps[|ps| - 1]]
  }

  lemma {:induction false} CleanAppend(a: seq<Packet>, b: seq<Packet>)
    ensures Clean(a + b) == Clean(a) + Clean(b)
  {
    if b == [] {
      assert a + b == a;
    } else {
      var most := b[..|b| - 1];
      CleanAppend(a, most);
      assert (a + b)[..|a + b| - 1] == a + most;
    }
  }

  lemma {:induction false} CleanAlready(ps: seq<Packet>)
    requires forall j :: 0 <= j < |ps| ==> !IsMarker(ps[j])
    ensures Clean(ps) == ps
  {
    if ps != [] {
      CleanAlready(ps[..|ps| - 1]);
    }
  }

  /** Slots `j + 1` up to `live` move down by one over slot `j`; the last of them stays behind as well. */
  ghost function Closed(ps: seq<Packet>, j: nat, live: nat): (r: seq<Packet>)
    requires j < live <= |ps|
    ensures |r| == |ps|
  {
    ps[..j] + ps[j + 1..live] + ps[live - 1..]
  }

  lemma {:induction false} ClosedAt(ps: seq<Packet>, j: nat, live: nat, k: nat)
    requires j < live <= |ps| && k < |ps|
    ensures Closed(ps, j, live)[k] == if j <= k < live - 1 then ps[k + 1] else ps[k]
  {}

  lemma ClosedKeepsClean(ps: seq<Packet>, j: nat, live: nat)
    requires j < live <= |ps| && IsMarker(ps[j])
    ensures Clean(Closed(ps, j, live)[..live - 1]) == Clean(ps[..live])
  {
    var a, b := ps[..j], ps[j + 1..live];
    assert ps[..live] == a + [ps[j]] + b;
    CleanAppend(a + [ps[j]], b);
    CleanAppend(a, [ps[j]]);
    assert Clean([ps[j]]) == [];
    assert Closed(ps, j, live)[..live - 1] == a + b;
    CleanAppend(a, b);
  }

  /** `t` is `s` with the bytes behind slot `j`, up to slot `live`, moved down by a packet. */
  ghost predicate Moved(s: seq<bv8>, t: seq<bv8>, j: nat, live: nat)
    requires j < live && 188 * live <= |s|
  {
    && |t| == |s|
    && (forall x {:trigger t[x]} :: 188 * j <= x < 188 * (live - 1) ==> t[x] == s[x + 188])
    && (forall x {:trigger t[x]} :: 0 <= x < 188 * j ==> t[x] == s[x])
    && (forall x {:trigger t[x]} :: 188 * (live - 1) <= x < |s| ==> t[x] == s[x])
  }

  lemma MovedSlot(s: seq<bv8>, t: seq<bv8>, j: nat, live: nat, k: nat)
    requires j < live && 188 * live <= |s| && Moved(s, t, j, live) && 188 * (k + 1) <= |s|
    ensures Slot(t, k) == if j <= k < live - 1 then Slot(s, k + 1) else Slot(s, k)
  {
    if j <= k < live - 1 {
      assert forall y :: 0 <= y < 188 ==> Slot(t, k)[y] == t[188 * k + y] == s[188 * (k + 1) + y];
    } else {
      assert forall y :: 0 <= y < 188 ==> Slot(t, k)[y] == t[188 * k + y] == s[188 * k + y];
    }
  }

  /** Moving the bytes moves the packets. */
  lemma MovedPackets(s: seq<bv8>, t: seq<bv8>, n: nat, j: nat, live: nat)
    requires j < live <= n && 188 * n <= |s| && Moved(s, t, j, live)
    ensures Packets(t, n) == Closed(Packets(s, n), j, live)
  {
    forall k: nat | k < n ensures Packets(t, n)[k] == Closed(Packets(s, n), j, live)[k] {
      MovedSlot(s, t, j, live, k);
      ClosedAt(Packets(s, n), j, live, k);
    }
  }

  method MoveDown(
    buf: array<bv8>, num: nat, count: nat, ghost n: nat, ghost ps: seq<Packet>, ghost j: nat, ghost live: nat)
    requires j < live <= n && Holds(buf, n, ps) && num == 188 * j && count == 188 * (live - 1 - j)
    modifies buf
    ensures Holds(buf, n, Closed(ps, j, live))
  {
    ghost var was := buf[..];
    forall x | num <= x < num + count {
      buf[x] := buf[x + 188];
    }
    MovedPackets(was, buf[..], n, j, live);
  }

  /** The state of the loop at slot `j` with `gone` packets removed: everything before is clean, what is
      still live holds the answer, and every slot behind it is a copy of the last packet. */
  ghost predicate Compacting(orig: seq<Packet>, ps: seq<Packet>, j: nat, gone: nat) {
    && |ps| == |orig| && gone <= |ps| && j <= |ps|
    && (forall k :: 0 <= k < j ==> !IsMarker(ps[k]))
    && (ps != [] ==> ps[|ps| - 1] == orig[|ps| - 1])
    && (Sound(orig) ==> Clean(ps[..|ps| - gone]) == Clean(orig) && Tail(orig, ps, gone))
  }

  ghost predicate Sound(orig: seq<Packet>) {
    orig != [] ==> !IsMarker(orig[|orig| - 1])
  }

  ghost predicate Tail(orig: seq<Packet>, ps: seq<Packet>, gone: nat)
    requires |ps| == |orig|
  {
    && (ps != [] ==> gone < |ps|)
    && forall k :: 0 <= k < |ps| && |ps| - gone - 1 <= k ==> ps[k] == orig[|ps| - 1]
  }

  lemma StartCompacting(orig: seq<Packet>)
    ensures Compacting(orig, orig, 0, 0)
  {
    assert orig[..|orig|] == orig;
  }

  lemma PassOne(orig: seq<Packet>, ps: seq<Packet>, j: nat, gone: nat)
    requires Compacting(orig, ps, j, gone) && j < |ps| && !IsMarker(ps[j])
    ensures Compacting(orig, ps, j + 1, gone)
  {}

  lemma RemoveOne(orig: seq<Packet>, ps: seq<Packet>, j: nat, gone: nat)
    requires Compacting(orig, ps, j, gone) && j < |ps| && IsMarker(ps[j])
    ensures Sound(orig) ==> j < |ps| - gone
    ensures j < |ps| - gone ==> Compacting(orig, Closed(ps, j, |ps| - gone), j, gone + 1)
  {
    if j < |ps| - gone {
      ClosedKeepsClean(ps, j, |ps| - gone);
    }
  }

  datatype Outcome = Broken | Done(ps: seq<Packet>, gone: nat)

  /** The loop on packets stands at slot `j`, with `gone` packets removed so far. */
  datatype Place = At(ps: seq<Packet>, j: nat, gone: nat)
  {
    predicate Ok() { j <= |ps| && gone <= |ps| }
    predicate AtMarker() requires j < |ps| { IsMarker(ps[j]) }
    predicate Stuck() requires j < |ps| { AtMarker() && j >= |ps| - gone }
  }

  ghost function Next(at: Place): (to: Place)
    requires at.Ok() && at.j < |at.ps| && !at.Stuck()
    ensures to.Ok() && |to.ps| == |at.ps|
  {
    if at.AtMarker() then At(Closed(at.ps, at.j, |at.ps| - at.gone), at.j, at.gone + 1)
    else At(at.ps, at.j + 1, at.gone)
  }

  ghost function Result(at: Place): (r: Outcome)
    requires at.Ok()
    ensures r.Done? ==> |r.ps| == |at.ps| && r.gone <= |at.ps|
    decreases |at.ps| - at.j + |at.ps| - at.gone
  {
    if at.j == |at.ps| then Done(at.ps, at.gone)
    else if at.Stuck() then Broken
    else Result(Next(at))
  }

  lemma RunStep(at: Place)
    requires at.Ok() && at.j < |at.ps|
    ensures Result(at) == if at.Stuck() then Broken else Result(Next(at))
  {}

  lemma StepCompacts(orig: seq<Packet>, at: Place)
    requires at.Ok() && Compacting(orig, at.ps, at.j, at.gone) && at.j < |at.ps|
    ensures at.Stuck() ==> !Sound(orig)
    ensures !at.Stuck() ==> Compacting(orig, Next(at).ps, Next(at).j, Next(at).gone)
  {
    if at.AtMarker() {
      RemoveOne(orig, at.ps, at.j, at.gone);
    } else {
      PassOne(orig, at.ps, at.j, at.gone);
    }
  }

  lemma EndCompacts(orig: seq<Packet>, ps: seq<Packet>, gone: nat)
    requires Compacting(orig, ps, |ps|, gone)
    ensures Sound(orig) && ps[..|ps| - gone] == Clean(orig)
  {
    assert Sound(orig);
    CleanAlready(ps[..|ps| - gone]);
  }

  lemma {:induction false} RunCompacts(orig: seq<Packet>, at: Place)
    requires at.Ok() && Compacting(orig, at.ps, at.j, at.gone)
    ensures Result(at).Done? <==> Sound(orig)
    ensures Result(at).Done? ==> |orig| == |at.ps| && Result(at).ps[..|orig| - Result(at).gone] == Clean(orig)
    decreases |at.ps| - at.j + |at.ps| - at.gone
  {
    if at.j == |at.ps| {
      EndCompacts(orig, at.ps, at.gone);
    } else {
      StepCompacts(orig, at);
      RunStep(at);
      if !at.Stuck() {
        RunCompacts(orig, Next(at));
      }
    }
  }

  /** The loop ends well exactly if the last packet is no marker, and then keeps exactly the other packets. */
  lemma CompactionIsFilter(orig: seq<Packet>)
    ensures Result(At(orig, 0, 0)).Done? <==> (orig == [] || !IsMarker(orig[|orig| - 1]))
    ensures var r := Result(At(orig, 0, 0)); r.Done? ==> r.ps[..|orig| - r.gone] == Clean(orig)
  {
    StartCompacting(orig);
    RunCompacts(orig, At(orig, 0, 0));
  }

  /** A buffer that holds a marker packet and nothing else makes the loop go wrong. */
  lemma LoneMarkerBreaks()
    ensures var p := seq(188, _ => 0x32 as bv8); Result(At([p], 0, 0)) == Broken
  {
    var p := seq(188, _ => 0x32 as bv8);
    assert IsMarker(p);
    CompactionIsFilter([p]);
  }

  /** Remove the marker packets among the first `len` bytes. The length to move goes below zero exactly if
      the last packet is a marker; otherwise the buffer then starts with the other packets, in order. */
  method Compact(buf: array<bv8>, len: nat, ghost n: nat) returns (ok: bool, read: nat)
    requires len == 188 * n <= buf.Length
    modifies buf
    ensures ok <==> Sound(Packets(old(buf[..]), n))
    ensures ok ==>
      read <= len && exists m: nat :: read == 188 * m && Packets(buf[..], m) == Clean(Packets(old(buf[..]), n))
  {
    ghost var orig := Packets(buf[..], n);
    ghost var at := At(orig, 0, 0);
    CompactionIsFilter(orig);
    var num: nat, i: nat := 0, 0;
    while num < len
      invariant AtSlot(buf, len, num, i, n, at)
      invariant Result(at) == Result(At(orig, 0, 0))
      decreases n - at.gone + n - at.j
    {
      RunStep(at);
      ok, num, i := Look(buf, len, num, i, n, at);
      if !ok {
        return false, 0;
      }
      at := Next(at);
    }
    read := len - 188 * i;
    ok := true;
    Finished(buf[..], n, at);
    assert read == 188 * (n - i);
  }

  /** The loop body. */
  method Look(
    buf: array<bv8>, len: nat, num: nat, i: nat, ghost n: nat, ghost at: Place) returns (ok: bool, num': nat, i': nat)
    requires AtSlot(buf, len, num, i, n, at) && num < len
    modifies buf
    ensures ok <==> !at.Stuck()
    ensures ok ==> AtSlot(buf, len, num', i', n, Next(at))
  {
    ok, i' := true, i;
    var from: int := num;
    var marked := Marked(buf, num, n, at.ps, at.j);
    if marked {
      ok := Close(buf, len, num, i, n, at.ps, at.j);
      if ok {
        NextAtMarker(at);
      }
      from := from - 188;
      i' := i + 1;
    }
    num' := from + 188;
  }

  lemma Finished(s: seq<bv8>, n: nat, at: Place)
    requires 188 * n <= |s| && at.Ok() && at.ps == Packets(s, n) && at.j == n
    ensures Result(at) == Done(at.ps, at.gone)
    ensures Packets(s, n - at.gone) == at.ps[..n - at.gone]
  {}

  ghost predicate AtSlot(buf: array<bv8>, len: nat, num: nat, i: nat, n: nat, at: Place)
    reads buf
  {
    at.Ok() && len == 188 * n && num == 188 * at.j && i == at.gone && Holds(buf, n, at.ps)
  }

  ghost predicate Holds(buf: array<bv8>, n: nat, ps: seq<Packet>)
    reads buf
  {
    188 * n <= buf.Length && ps == Packets(buf[..], n)
  }

  /** Move the rest of the live bytes over the packet at `num`, unless nothing sensible is left to move. */
  method Close(
    buf: array<bv8>, len: nat, num: nat, i: nat, ghost n: nat, ghost ps: seq<Packet>, ghost j: nat) returns (ok: bool)
    requires len == 188 * n && num == 188 * j && j < n && i <= n && Holds(buf, n, ps)
    modifies buf
    ensures ok <==> j < n - i
    ensures ok ==> Holds(buf, n, Closed(ps, j, n - i))
  {
    var count := len - num - 188 * (i + 1);
    ok := count >= 0;
    if ok {
      MoveDown(buf, num, count, n, ps, j, n - i);
    }
  }

  lemma NextAtMarker(at: Place)
    requires at.Ok() && at.j < |at.ps| - at.gone && at.AtMarker()
    ensures Next(at).ps == Closed(at.ps, at.j, |at.ps| - at.gone)
  {}

  method Marked(buf: array<bv8>, num: nat, ghost n: nat, ghost ps: seq<Packet>, ghost j: nat) returns (r: bool)
    requires num == 188 * j && j < n && Holds(buf, n, ps)
    ensures r == IsMarker(ps[j])
  {
    r := buf[num] == 0x32 && buf[num + 1] == 0x32 && buf[num + 2] == 0x32 && buf[num + 3] == 0x32;
    ghost var p := Packets(buf[..], n)[j];
    assert p == Slot(buf[..], j);
    assert p[0] == buf[num] && p[1] == buf[num + 1] && p[2] == buf[num + 2] && p[3] == buf[num + 3];
  }
}
