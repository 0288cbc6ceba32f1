/** The PID arrays of a channel, updated in place, and the copy handed to the driver. */
module PidLists {
  import opened Sequences
  import opened Pids

  /** The first PID of the array that is one, as the caller wrote it. */
  ghost function FirstPid(pids: seq<Pid>): (r: seq<Pid>) {
    if pids == [] then [] else if IsPid(pids[0]) then [pids[0]] else FirstPid(pids[1..])
  }

  /** Position `i` holds a PID, and no position before it does. */
  ghost predicate FirstValid(pids: seq<Pid>, i: nat) {
    i < |pids| && IsPid(pids[i]) && forall j :: 0 <= j < i ==> !IsPid(pids[j])
  }

  /** It is the one at the first position that holds a PID. */
  lemma {:induction false} FirstPidAt(pids: seq<Pid>, i: nat)
    requires FirstValid(pids, i)
    ensures FirstPid(pids) == [pids[i]]
  {
    if i > 0 {
      assert !IsPid(pids[0]);
      forall j | 0 <= j < i - 1 ensures !IsPid(pids[1..][j]) {
        assert pids[1..][j] == pids[j + 1];
      }
      FirstPidAt(pids[1..], i - 1);
    }
  }

  class Channel {
    const record: bool
    const list: array<Pid>
    var nb: nat
    const driver: array<Pid>
    var driverLen: nat

    ghost function Current(): (s: seq<Pid>)
      reads this, list
      requires nb <= list.Length
    {
      list[..nb]
    }

    ghost function Copied(): (s: seq<Pid>)
      reads this, driver
      requires driverLen <= driver.Length
    {
      driver[..driverLen]
    }

    /** Only record channels have more than one PID; no list has duplicates, and whenever there is a PID at
        all the driver's copy is the list. */
    ghost predicate Valid()
      reads this, list, driver
    {
      && list != driver && list.Length == driver.Length > 0
      && nb <= list.Length && driverLen <= driver.Length
      && Distinct(Current())
      && (!record ==> nb <= 1)
      && (record ==> Legal(Current()))
      && (nb > 0 ==> Copied() == Current())
    }

    constructor (record: bool, max: nat)
      requires max > 0
      ensures Valid() && this.record == record && list.Length == max && Current() == []
      ensures fresh(list) && fresh(driver)
    {
      this.record := record;
      list := new Pid[max];
      driver := new Pid[max];
      nb, driverLen := 0, 0;
    }

    method Find(pid: Pid, n: nat) returns (j: nat)
      requires n <= list.Length
      ensures j <= n && pid !in list[..j] && (j < n ==> list[j] == pid)
    {
      j := 0;
      while j < n && list[j] != pid
        invariant j <= n && pid !in list[..j]
      {
        j := j + 1;
      }
    }

    /** Add the PIDs named to the first `start` entries, up to the array's length. It goes wrong, writing
        behind the array, exactly if it starts on a full list and finds a PID to add. */
    method Extend(start: nat, pids: seq<Pid>) returns (ok: bool, n: nat)
      requires start <= list.Length
      modifies list
      ensures ok <==> start < list.Length || Appended(old(list[..start]), pids) == old(list[..start])
      ensures ok ==> n <= list.Length && list[..n] == Prefix(Appended(old(list[..start]), pids), list.Length)
    {
      ghost var was := list[..start];
      ok, n := true, start;
      var i := 0;
      while i < |pids|
        invariant i <= |pids| && n <= list.Length && list[..n] == Appended(was, pids[..i])
        invariant n == start || n < list.Length
        invariant start <= n && list[..start] == was
      {
        assert pids[..i + 1][..i] == pids[..i];
        AppendedGrows(was, pids, i + 1);
        if IsPid(pids[i]) {
          var j := Find(Masked(pids[i]), n);
          if j >= n {
            if n == list.Length {
              ok := false;
              return;
            }
            list[n] := Masked(pids[i]);
            n := n + 1;
            assert list[..n] == list[..n - 1] + [Masked(pids[i])];
            if n >= list.Length {
              return;
            }
          }
        }
        i := i + 1;
      }
      assert pids[..i] == pids;
    }

    method CopyToDriver()
      requires list != driver && list.Length == driver.Length && nb <= list.Length
      modifies driver, this`driverLen
      ensures driverLen == nb && Copied() == Current()
      ensures forall i :: nb <= i < driver.Length ==> driver[i] == old(driver[i])
    {
      forall i | 0 <= i < nb {
        driver[i] := list[i];
      }
      driverLen := nb;
    }

    method ClearDriver()
      requires driverLen <= driver.Length
      modifies driver
      ensures forall i :: 0 <= i < driverLen ==> driver[i] == 0
    {
      forall i | 0 <= i < driverLen {
        driver[i] := 0;
      }
    }

    /** Any other channel takes the first valid PID, unmasked, and keeps its old one if there is none. */
    method UseFirst(pids: seq<Pid>)
      requires Valid()
      modifies list, this`nb
      ensures nb <= list.Length
      ensures Current() == if FirstPid(pids) == [] then old(Current()) else FirstPid(pids)
      ensures forall k: nat :: FirstValid(pids, k) ==> Current() == [pids[k]]
    {
      forall k: nat | FirstValid(pids, k) ensures FirstPid(pids) == [pids[k]] {
        FirstPidAt(pids, k);
      }
      var i := 0;
      assert pids[0..] == pids;
      while i < |pids| && !IsPid(pids[i])
        invariant i <= |pids| && FirstPid(pids) == FirstPid(pids[i..])
      {
        i := i + 1;
      }
      if i < |pids| {
        list[0] := pids[i];
        nb := 1;
      }
    }

    method SetPids(pids: seq<Pid>)
      requires Valid()
      modifies this, list, driver
      ensures Valid()
      ensures record ==> Current() == Prefix(Appended([], pids), list.Length)
      ensures !record ==> Current() == if FirstPid(pids) == [] then old(Current()) else FirstPid(pids)
    {
      if record {
        var ok, n := Extend(0, pids);
        nb := n;
        AppendedFacts([], pids);
        LegalPrefix([], pids, list.Length);
      } else {
        UseFirst(pids);
        FirstPidSingle(pids);
      }
      if nb > 0 {
        CopyToDriver();
      }
    }

    method AddPids(pids: seq<Pid>) returns (ok: bool)
      requires Valid() && record
      modifies this, list, driver
      ensures ok <==> old(nb) < list.Length || Appended(old(Current()), pids) == old(Current())
      ensures ok ==> Valid() && Copied() == Current()
      ensures ok ==> Current() == Prefix(Appended(old(Current()), pids), list.Length)
      ensures ok ==> forall i :: nb <= i < old(driverLen) ==> driver[i] == 0
    {
      ghost var was := Current();
      var n;
      ok, n := Extend(nb, pids);
      if !ok {
        return;
      }
      AppendedFacts(was, pids);
      LegalPrefix(was, pids, list.Length);
      nb := n;
      ClearDriver();
      CopyToDriver();
    }

    /** Close the gap at `j`. */
    method Shift(j: nat, n: nat)
      requires j < n <= list.Length
      modifies list
      ensures list[..n - 1] == old(list[..j]) + old(list[j + 1..n])
    {
      var k := j;
      while k < n - 1
        invariant j <= k <= n - 1
        invariant forall i :: 0 <= i < j ==> list[i] == old(list[i])
        invariant forall i :: j <= i < k ==> list[i] == old(list[i + 1])
        invariant forall i :: k < i < n ==> list[i] == old(list[i])
      {
        list[k] := list[k + 1];
        k := k + 1;
      }
    }

    method DeletePids(pids: seq<Pid>)
      requires Valid() && record
      modifies this, list, driver
      ensures Valid() && Current() == Dropped(old(Current()), Named(pids)) && Copied() == Current()
      ensures forall i :: nb <= i < old(driverLen) ==> driver[i] == 0
    {
      DroppedFacts(Current(), Named(pids));
      nb := Reduce(nb, pids);
      ClearDriver();
      CopyToDriver();
    }

    method Reduce(start: nat, pids: seq<Pid>) returns (n: nat)
      requires start <= list.Length && Distinct(list[..start])
      modifies list
      ensures n <= list.Length && list[..n] == Dropped(old(list[..start]), Named(pids))
    {
      ghost var was := list[..start];
      n := start;
      var i := 0;
      DroppedNone(was, {});
      assert Named(pids[..0]) == {};
      while i < |pids|
        invariant i <= |pids| && n <= list.Length && list[..n] == Dropped(was, Named(pids[..i]))
      {
        assert pids[..i + 1][..i] == pids[..i];
        NamedStep(pids[..i + 1]);
        DroppedFacts(was, Named(pids[..i]));
        if IsPid(pids[i]) {
          DropTwice(was, Named(pids[..i]), {Masked(pids[i])});
          n := TakeOut(Masked(pids[i]), n);
        } else {
          assert Named(pids[..i + 1]) == Named(pids[..i]);
        }
        i := i + 1;
      }
      assert pids[..i] == pids;
    }

    method TakeOut(pid: Pid, n: nat) returns (m: nat)
      requires n <= list.Length && Distinct(list[..n])
      modifies list
      ensures m <= list.Length && list[..m] == Dropped(old(list[..n]), {pid})
    {
      m := n;
      var j := Find(pid, n);
      if j < n {
        DropOne(list[..n], j);
        assert list[..n][..j] == list[..j] && list[..n][j + 1..] == list[j + 1..n];
        Shift(j, n);
        m := n - 1;
      } else {
        DroppedNone(list[..n], {pid});
      }
    }
  }

  /** A list of one entry is overrun when a second PID is added. */
  method FullListIsOverrun() returns (ok: bool)
    ensures !ok
  {
    var ch := new Channel(true, 1);
    TwoPids();
    ch.SetPids([0x100]);
    assert ch.Current() == [0x100];
    ok := ch.AddPids([0x200]);
  }

  lemma TwoPids()
    ensures Appended([], [0x100]) == [0x100] && Appended([0x100], [0x200]) == [0x100, 0x200]
  {
    assert Masked(0x100) == 0x100 && Masked(0x200) == 0x200;
    OnePid([], 0x100);
    OnePid([0x100], 0x200);
  }

  lemma OnePid(list: seq<Pid>, p: Pid)
    ensures Appended(list, [p]) == Push(list, p)
  {
    assert [p][..0] == [];
  }

  lemma {:induction false} FirstPidSingle(pids: seq<Pid>)
    ensures |FirstPid(pids)| <= 1
    ensures FirstPid(pids) == [] <==> forall i :: 0 <= i < |pids| ==> !IsPid(pids[i])
  {
    if pids != [] {
      FirstPidSingle(pids[1..]);
    }
  }
}
