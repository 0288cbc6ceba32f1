/** Crypto algorithm devices: every sub-device of an algorithm type can be opened many times, and all of them
    share the one descriptor of the type. */
module AlgoDevice {
  const MAX_ALGO: nat := 5

  const DES: nat := 0
  const AES: nat := 1
  const SHA: nat := 2
  const TDES: nat := 3
  const CSA: nat := 4

  /** The type an algorithm's devices belong to; triple DES runs on the DES device, SHA on none. */
  function TypeOf(algo: nat): (t: int)
    requires algo < MAX_ALGO
    ensures t == -1 || 0 <= t < MAX_ALGO
  {
    if algo == TDES then DES else if algo == SHA then -1 else algo
  }

  /** DES and triple DES share a device, SHA has none, and each of the others has its own. */
  lemma TypesAre(a: nat, b: nat)
    requires a < MAX_ALGO && b < MAX_ALGO
    ensures MAX_ALGO == 5 && TypeOf(0) == TypeOf(3) == 0 && TypeOf(1) == 1 && TypeOf(2) == -1 && TypeOf(4) == 4
    ensures TypeOf(a) == TypeOf(b) <==> a == b || {a, b} == {DES, TDES}
  {}

  datatype Ret = Done | InvalidParam | NoMemory | CantOpen | IoFailed

  /** What the system answers an open call: memory or none, a descriptor or an error, and the driver's verdict. */
  datatype Answer = Answer(memory: bool, fd: int, accepted: bool)

  /** The sub-devices of one type: how often each is opened, and the descriptor it uses while it is. */
  datatype Row = Row(counts: seq<nat>, fds: seq<int>)

  ghost predicate Live(r: Row) {
    exists i :: 0 <= i < |r.counts| && r.counts[i] > 0
  }

  /** All live sub-devices have the shared descriptor, which is open exactly while there is one. */
  ghost predicate RowOk(r: Row, n: nat, shared: int, open: multiset<int>) {
    && |r.counts| == n && |r.fds| == n
    && (forall i :: 0 <= i < n && r.counts[i] > 0 ==> r.fds[i] == shared)
    && open == if Live(r) then multiset{shared} else multiset{}
  }

  ghost predicate TableOk(rows: seq<Row>, n: nat, shared: seq<int>, openFds: seq<multiset<int>>) {
    && |rows| == MAX_ALGO && |shared| == MAX_ALGO && |openFds| == MAX_ALGO
    && forall t :: 0 <= t < MAX_ALGO ==> RowOk(rows[t], n, shared[t], openFds[t])
  }

  lemma RowReplaced(
    rows: seq<Row>, n: nat, shared: seq<int>, openFds: seq<multiset<int>>, t: nat, r: Row, s: int, open: multiset<int>)
    requires TableOk(rows, n, shared, openFds) && t < MAX_ALGO && RowOk(r, n, s, open)
    ensures TableOk(rows[t := r], n, shared[t := s], openFds[t := open])
    ensures shared[t := shared[t]] == shared && openFds[t := openFds[t]] == openFds
  {}

  /** A live sub-device with another positive count. */
  lemma Recounted(r: Row, n: nat, shared: int, open: multiset<int>, dev: nat, count: nat)
    requires RowOk(r, n, shared, open) && dev < n && r.counts[dev] > 0 && count > 0
    ensures RowOk(r.(counts := r.counts[dev := count]), n, shared, open)
  {
    assert r.counts[dev := count][dev] > 0;
  }

  /** A sub-device opened for the first time, sharing the descriptor of a live one or bringing the first. */
  lemma FirstOpened(r: Row, n: nat, shared: int, open: multiset<int>, dev: nat, fd: int)
    requires RowOk(r, n, shared, open) && dev < n && r.counts[dev] == 0 && (Live(r) ==> fd == shared)
    ensures RowOk(Row(r.counts[dev := 1], r.fds[dev := fd]), n, fd, if Live(r) then open else open + multiset{fd})
  {
    assert r.counts[dev := 1][dev] > 0;
  }

  /** Closing a sub-device for the last time leaves the others as they were. */
  lemma LastClosed(r: Row, n: nat, shared: int, open: multiset<int>, dev: nat)
    requires RowOk(r, n, shared, open) && dev < n && r.counts[dev] > 0
    ensures
      var after := r.(counts := r.counts[dev := 0]);
      RowOk(after, n, shared, if Live(after) then open else open - multiset{r.fds[dev]})
  {
    assert Live(r);
  }

  /** How an open call that gets past its parameters ends. */
  function Outcome(inUse: bool, opens: bool, answer: Answer): Ret {
    if inUse then Done
    else if !answer.memory then NoMemory
    else if opens && answer.fd < 0 then CantOpen
    else if !answer.accepted then IoFailed
    else Done
  }

  class AlgoDevices {
    const n: nat
    var rows: seq<Row>

    /** For each type, the descriptor its live sub-devices share, and those opened and not yet closed. */
    ghost var shared: seq<int>
    ghost var openFds: seq<multiset<int>>

    ghost predicate Valid()
      reads this
    {
      TableOk(rows, n, shared, openFds)
    }

    /** ... and no live sub-device uses descriptor 0. */
    ghost predicate Healthy()
      reads this
    {
      Valid() && forall t :: 0 <= t < MAX_ALGO && Live(rows[t]) ==> shared[t] != 0
    }

    constructor (n: nat)
      ensures Healthy() && this.n == n && forall t :: 0 <= t < MAX_ALGO ==> !Live(rows[t])
    {
      this.n := n;
      rows := seq(MAX_ALGO, _ => Row(seq(n, _ => 0), seq(n, _ => 0)));
      shared := seq(MAX_ALGO, _ => 0);
      openFds := seq(MAX_ALGO, _ => multiset{});
    }

    /** The descriptor of a live sub-device, or 0. */
    method Scan(t: nat) returns (fd: int)
      requires Valid() && t < MAX_ALGO
      ensures fd == if Live(rows[t]) then shared[t] else 0
    {
      fd := 0;
      var i := 0;
      ghost var seen := false;
      while i < n
        invariant i <= n && (seen ==> Live(rows[t])) && (!seen ==> forall j :: 0 <= j < i ==> rows[t].counts[j] == 0)
        invariant fd == if seen then shared[t] else 0
      {
        if rows[t].counts[i] > 0 {
          fd := rows[t].fds[i];
          seen := true;
        }
        i := i + 1;
      }
    }

    method AnyUsed(t: nat) returns (used: bool)
      requires t < |rows| && |rows[t].counts| == n
      ensures used <==> Live(rows[t])
    {
      used := false;
      var i := 0;
      while i < n
        invariant i <= n && (used ==> Live(rows[t])) && (!used ==> forall j :: 0 <= j < i ==> rows[t].counts[j] == 0)
      {
        if rows[t].counts[i] > 0 {
          used := true;
        }
        i := i + 1;
      }
    }

    /** The count of one sub-device goes up by one. */
    ghost predicate Counted(before: seq<Row>, t: nat, dev: nat)
      reads this
    {
      && |before| == |rows| == MAX_ALGO && t < MAX_ALGO && dev < |before[t].counts|
      && rows[t].counts == before[t].counts[dev := before[t].counts[dev] + 1] && |rows[t].fds| == |rows[t].counts|
      && forall u :: 0 <= u < MAX_ALGO && u != t ==> rows[u] == before[u]
    }

    /** Another descriptor is opened exactly if the sub-device is not in use and its type has no live one, or
        has live ones whose descriptor is 0; only in the last case is sharing lost. */
    method Open(algo: nat, dev: nat, answer: Answer) returns (ret: Ret, opens: bool)
      requires Valid() && algo < MAX_ALGO
      modifies this
      ensures ret.InvalidParam? <==> dev >= n || TypeOf(algo) < 0
      ensures !ret.Done? ==> rows == old(rows) && openFds == old(openFds) && shared == old(shared)
      ensures dev < n && TypeOf(algo) >= 0 ==>
        var t: nat := TypeOf(algo);
        && (ret.Done? ==> Counted(old(rows), t, dev) && (opens ==> rows[t].fds[dev] == answer.fd))
        && ret == Outcome(old(rows)[t].counts[dev] > 0, opens, answer)
        && (opens ==> old(rows)[t].counts[dev] == 0)
        && (old(rows)[t].counts[dev] == 0 && answer.memory ==> (opens <==> !Live(old(rows)[t]) || old(shared)[t] == 0))
        && ((opens && Live(old(rows)[t]) && ret.Done?) || Valid())
      ensures ret.InvalidParam? ==> !opens
      ensures old(Healthy()) && answer.fd != 0 ==> Healthy()
    {
      if dev >= n || TypeOf(algo) < 0 {
        return InvalidParam, false;
      }
      var t: nat := TypeOf(algo);
      var row := rows[t];
      if row.counts[dev] > 0 {
        Recounted(row, n, shared[t], openFds[t], dev, row.counts[dev] + 1);
        var more := row.(counts := row.counts[dev := row.counts[dev] + 1]);
        RowReplaced(rows, n, shared, openFds, t, more, shared[t], openFds[t]);
        rows := rows[t := row.(counts := row.counts[dev := row.counts[dev] + 1])];
        return Done, false;
      }
      ret, opens := OpenFirst(t, dev, answer);
    }

    /** Open a sub-device that is not in use. */
    method OpenFirst(t: nat, dev: nat, answer: Answer) returns (ret: Ret, opens: bool)
      requires Valid() && t < MAX_ALGO && dev < n && rows[t].counts[dev] == 0
      modifies this
      ensures ret == Outcome(false, opens, answer)
      ensures (!ret.Done? ==> rows == old(rows) && openFds == old(openFds) && shared == old(shared))
      ensures ret.Done? ==> Counted(old(rows), t, dev) && (opens ==> rows[t].fds[dev] == answer.fd)
      ensures answer.memory ==> (opens <==> !Live(old(rows)[t]) || old(shared)[t] == 0)
      ensures (opens && Live(old(rows)[t]) && ret.Done?) || Valid()
      ensures old(Healthy()) && answer.fd != 0 ==> Healthy()
    {
      var row := rows[t];
      if !answer.memory {
        return NoMemory, false;
      }
      var fd := Scan(t);
      opens := fd == 0;
      if opens {
        fd := answer.fd;
        if fd < 0 {
          return CantOpen, opens;
        }
      }
      if !answer.accepted {
        return IoFailed, opens;
      }
      var row' := Row(row.counts[dev := 1], row.fds[dev := fd]);
      if !opens || !Live(row) {
        FirstOpened(row, n, shared[t], openFds[t], dev, fd);
        RowReplaced(rows, n, shared, openFds, t, row', fd, if opens then openFds[t] + multiset{fd} else openFds[t]);
      }
      if opens {
        openFds := openFds[t := openFds[t] + multiset{fd}];
        shared := shared[t := fd];
      }
      rows := rows[t := row'];
      ret := Done;
    }

    /** Give one opening of a sub-device back; the descriptor is closed with the last of the whole type. */
    method Close(t: nat, dev: nat)
      requires Valid() && t < MAX_ALGO && dev < n && rows[t].counts[dev] > 0
      modifies this`rows, this`openFds
      ensures Valid() && (old(Healthy()) ==> Healthy())
      ensures rows[t].counts == old(rows)[t].counts[dev := old(rows)[t].counts[dev] - 1]
      ensures forall u :: 0 <= u < MAX_ALGO && u != t ==> rows[u] == old(rows)[u] && openFds[u] == old(openFds)[u]
    {
      var row := rows[t];
      var row' := row.(counts := row.counts[dev := row.counts[dev] - 1]);
      ghost var open := if Live(row') then openFds[t] else openFds[t] - multiset{row.fds[dev]};
      if row'.counts[dev] > 0 {
        Recounted(row, n, shared[t], openFds[t], dev, row.counts[dev] - 1);
        assert Live(row');
      } else {
        LastClosed(row, n, shared[t], openFds[t], dev);
      }
      RowReplaced(rows, n, shared, openFds, t, row', shared[t], open);
      rows := rows[t := row'];
      if row'.counts[dev] > 0 {
        return;
      }
      var used := AnyUsed(t);
      if !used {
        openFds := openFds[t := openFds[t] - multiset{row.fds[dev]}];
      }
    }
  }

  /** Where the system hands out descriptor 0, two sub-devices of one type open it twice. */
  method ZeroIsOpenedTwice() returns (first: bool, second: bool)
    ensures first && second
  {
    var d := new AlgoDevices(2);
    var ret;
    ret, first := d.Open(AES, 0, Answer(true, 0, true));
    assert d.rows[AES].counts[0] == 1;
    ret, second := d.Open(AES, 1, Answer(true, 0, true));
  }
}
