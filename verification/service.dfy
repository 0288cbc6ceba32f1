/** A service channel: stream bytes are read into client buffers, each reported once it is exactly full. */
module Service {
  datatype Status = Free | Enabled | Disabled

  /** What becomes of the channel while a callback runs, by the callback itself or another thread. A channel
      that is freed may find its slot allocated again by then, for a client with its own callbacks. */
  datatype Fate = Stays | Stopped | Freed | Replaced(request: bool, update: bool, running: bool)

  function StatusBy(fate: Fate, status: Status): Status {
    match fate
    case Stays => status
    case Stopped => Disabled
    case Freed => Free
    case Replaced(_, _, running) => if running then Enabled else Disabled
  }

  /** Whether the slot has a request, or an update, callback afterwards. */
  function RequestBy(fate: Fate, has: bool): bool {
    if fate.Replaced? then fate.request else has && !fate.Freed?
  }

  function UpdateBy(fate: Fate, has: bool): bool {
    if fate.Replaced? then fate.update else has && !fate.Freed?
  }

  /** What the environment does during one dispatch: whether the descriptor is usable, the buffer the request
      callback hands over, the channel's fate in that callback and, should it be freed, whether the callback
      stores its buffer only afterwards, the bytes waiting in the driver and how many of them a read gets at
      most, and the channel's fate in the update callback. */
  datatype Answer = Answer(
    usable: bool, given: array?<bv8>, givenSize: nat, requestFate: Fate, storesLate: bool,
    waiting: seq<bv8>, most: nat, updateFate: Fate)

  /** The buffer handed over is there after the request callback. */
  predicate Kept(answer: Answer) {
    !answer.requestFate.Freed? && (answer.requestFate.Replaced? ==> answer.storesLate)
  }

  /** ... or is left behind in a slot that is free. */
  predicate Stale(answer: Answer) {
    answer.requestFate.Freed? && answer.storesLate && answer.given != null
  }

  /** Of one channel: every byte read, every buffer filled, and those its client was told about. */
  datatype History = History(consumed: seq<bv8>, filled: seq<seq<bv8>>, reported: seq<seq<bv8>>)

  ghost function Joined(buffers: seq<seq<bv8>>): (s: seq<bv8>) {
    if buffers == [] then [] else Joined(buffers[..|buffers| - 1]) + buffers[|buffers| - 1]
  }

  /** The history with the bytes read, which fill the buffer or do not; `told` is whether the client hears of it. */
  ghost predicate Grown(h: History, bytes: seq<bv8>, fills: bool, told: bool, g: History) {
    && g.consumed == h.consumed + bytes
    && if fills then
         && |g.filled| == |h.filled| + 1 && g.filled[..|h.filled|] == h.filled
         && g.reported == h.reported + if told then [g.filled[|h.filled|]] else []
       else g.filled == h.filled && g.reported == h.reported
  }

  ghost function WithFull(h: History, full: seq<bv8>, told: bool): History {
    h.(filled := h.filled + [full], reported := h.reported + if told then [full] else [])
  }

  function Unused(): History { History([], [], []) }

  /** What the channels before the present one read is in the buffers they filled, but for what was left over. */
  ghost predicate Sound(past: seq<History>) {
    forall k :: 0 <= k < |past| ==> SoundHistory(past[k])
  }

  ghost predicate SoundHistory(h: History) {
    Joined(h.filled) <= h.consumed
  }

  /** The histories after a fate: a channel that takes another's place begins its own. */
  ghost function PastBy(fate: Fate, past: seq<History>, now: History): seq<History> {
    if fate.Replaced? then past + [now] else past
  }

  ghost function NowBy(fate: Fate, now: History): History {
    if fate.Replaced? then Unused() else now
  }

  class Channel {
    var status: Status
    var hasRequest: bool
    var hasUpdate: bool
    var buf: array?<bv8>
    var size: nat
    var write: nat

    /** The channels that had the slot before, one after the other, and the one that has it or had it last. */
    ghost var past: seq<History>
    ghost var now: History

    /** What is in the buffer being filled. */
    ghost function Partial(): (s: seq<bv8>)
      reads this, buf
      requires buf != null ==> write <= buf.Length
    {
      if buf == null then [] else buf[..write]
    }

    /** A buffer is never kept full. A slot that is free has no callbacks and holds no bytes. What a channel read
        is in the buffers it filled and, for the present one, in the one being filled. */
    ghost predicate Valid()
      reads this, buf
    {
      Held() && Sound(past) && now.consumed == Joined(now.filled) + Partial()
    }

    ghost predicate Held()
      reads this, buf
    {
      && (buf == null ==> size == 0 && write == 0)
      && (buf != null ==> write <= size <= buf.Length && (write < size || size == 0))
      && (status == Free ==> write == 0 && !hasRequest && !hasUpdate)
    }

    constructor (hasRequest: bool, hasUpdate: bool)
      ensures Valid() && status == Disabled && this.hasRequest == hasRequest && this.hasUpdate == hasUpdate
      ensures past == [] && now == Unused() && buf == null
    {
      this.status := Disabled;
      this.hasRequest := hasRequest;
      this.hasUpdate := hasUpdate;
      buf, size, write := null, 0, 0;
      past, now := [], Unused();
    }

    /** Buffer by buffer, a client is told of consecutive stretches of the stream, starting where the last ended. */
    lemma {:induction false} ReportsAreConsecutive(h: History, j: nat)
      requires Valid() && (h == now || h in past) && j < |h.filled|
      ensures var at := Offset(h.filled, j);
        at + |h.filled[j]| <= |h.consumed| && h.filled[j] == h.consumed[at..at + |h.filled[j]|]
    {
      assert SoundHistory(h);
      FilledAreConsecutive(h, j);
    }

    method Clear()
      modifies this`buf, this`size, this`write
      ensures buf == null && size == 0 && write == 0
    {
      buf, size, write := null, 0, 0;
    }

    /** Freeing the channel zeroes its slot. */
    method Wipe()
      modifies this`status, this`hasRequest, this`hasUpdate, this`buf, this`size, this`write
      ensures status == Free && !hasRequest && !hasUpdate && buf == null && size == 0 && write == 0
    {
      status, hasRequest, hasUpdate := Free, false, false;
      Clear();
    }

    /** The slot is allocated again and a new stream begins. A buffer that was stored after it was freed is still
        there. */
    method Reallocate(hasRequest: bool, hasUpdate: bool)
      requires status == Free
      modifies this`status, this`hasRequest, this`hasUpdate, this`past, this`now
      ensures status == Disabled && this.hasRequest == hasRequest && this.hasUpdate == hasUpdate
      ensures past == old(past) + [old(now)] && now == Unused()
      ensures old(Valid()) ==> Valid()
    {
      ghost var joined := Joined(now.filled);
      this.status := Disabled;
      this.hasRequest := hasRequest;
      this.hasUpdate := hasUpdate;
      past, now := past + [now], Unused();
    }

    method Control(enable: bool)
      requires Valid() && status != Free
      modifies this`status
      ensures Valid() && status == if enable then Enabled else Disabled
    {
      status := if enable then Enabled else Disabled;
    }

    /** Another thread, or the callback, has its way with the slot while its lock is not held. */
    method Suffer(fate: Fate)
      requires status != Free
      modifies this`status, this`hasRequest, this`hasUpdate, this`buf, this`size, this`write, this`past, this`now
      ensures status == StatusBy(fate, old(status))
      ensures hasRequest == RequestBy(fate, old(hasRequest)) && hasUpdate == UpdateBy(fate, old(hasUpdate))
      ensures past == PastBy(fate, old(past), old(now)) && now == NowBy(fate, old(now))
      ensures if fate.Freed? || fate.Replaced? then buf == null && size == 0 && write == 0
              else buf == old(buf) && size == old(size) && write == old(write)
    {
      if fate.Freed? || fate.Replaced? {
        Wipe();
        if fate.Replaced? {
          Reallocate(fate.request, fate.update);
        }
      }
      status := StatusBy(fate, status);
    }

    // What one dispatch is going to do.

    /** The request callback is called. */
    ghost predicate Asks(answer: Answer)
      reads this
    {
      status == Enabled && answer.usable && buf == null && hasRequest
    }

    ghost function FateAsked(answer: Answer): Fate
      reads this
    {
      if Asks(answer) then answer.requestFate else Stays
    }

    /** How many bytes the buffer being filled, or else the one a client hands over, still has room for. A buffer
        handed over before the slot is zeroed is lost. */
    ghost function Room(answer: Answer): (n: nat)
      reads this
      requires buf != null ==> write <= size
    {
      if status != Enabled || !answer.usable then 0
      else if buf != null then size - write
      else if hasRequest && Kept(answer) && answer.given != null then answer.givenSize
      else 0
    }

    ghost predicate Fills(answer: Answer)
      reads this
      requires buf != null ==> write <= size
    {
      0 < Room(answer) <= answer.most && Room(answer) <= |answer.waiting|
    }

    /** The update callback is called, of the client that has the slot by then. */
    ghost predicate Tells(answer: Answer)
      reads this
      requires buf != null ==> write <= size
    {
      Fills(answer) && UpdateBy(FateAsked(answer), hasUpdate)
    }

    ghost function FateTold(answer: Answer): Fate
      reads this
      requires buf != null ==> write <= size
    {
      if Tells(answer) then answer.updateFate else Stays
    }

    /** Get a buffer to fill if there is none. */
    method Prepare(answer: Answer) returns (ready: bool)
      requires Valid() && status == Enabled && answer.usable
      requires answer.given != null ==> answer.givenSize <= answer.given.Length
      modifies this`buf, this`size, this`write, this`status, this`hasRequest, this`hasUpdate, this`past, this`now
      ensures Valid() && status == StatusBy(old(FateAsked(answer)), Enabled)
      ensures hasRequest == RequestBy(old(FateAsked(answer)), old(hasRequest))
      ensures hasUpdate == UpdateBy(old(FateAsked(answer)), old(hasUpdate))
      ensures past == PastBy(old(FateAsked(answer)), old(past), old(now))
      ensures now == NowBy(old(FateAsked(answer)), old(now))
      ensures if old(Room(answer)) > 0 then
          && ready && status != Free && buf == (if old(buf) != null then old(buf) else answer.given)
          && write == old(write) && size == (if old(buf) != null then old(size) else answer.givenSize)
        else ready ==> old(buf) != null && buf == old(buf) && size == old(size) && write == old(write)
      ensures !ready && status == Free ==> buf == (if answer.storesLate then answer.given else null)
      ensures !ready && buf != null ==> status == Free && size == answer.givenSize
    {
      ready := true;
      if buf == null {
        if hasRequest {
          Ask(answer);
          if status == Free {
            ready := false;
            return;
          }
        }
        if buf == null || size == 0 {
          Clear();
          ready := false;
          return;
        }
        write := 0;
      }
    }

    /** Call the request callback. */
    method Ask(answer: Answer)
      requires Valid() && status == Enabled && buf == null && hasRequest
      modifies this`buf, this`size, this`write, this`status, this`hasRequest, this`hasUpdate, this`past, this`now
      ensures status == StatusBy(answer.requestFate, Enabled)
      ensures hasRequest == RequestBy(answer.requestFate, true)
      ensures hasUpdate == UpdateBy(answer.requestFate, old(hasUpdate))
      ensures past == PastBy(answer.requestFate, old(past), old(now)) && now == NowBy(answer.requestFate, old(now))
      ensures write == 0
      ensures if Kept(answer) || Stale(answer) then buf == answer.given && size == answer.givenSize
              else buf == null && size == 0
    {
      Suffer(answer.requestFate);
      if Kept(answer) || Stale(answer) {
        buf, size := answer.given, answer.givenSize;
      }
    }

    /** One dispatch: exactly what the driver offers and the buffer has room for joins the stream of the channel in
        the slot at the read, and the buffer is given up, and reported to that channel's client, exactly when that
        fills it. No other channel's history changes, and a channel that replaces another begins a new one. A slot
        left free keeps a buffer exactly if the request callback stored one after the slot was zeroed. */
    method Dispatch(answer: Answer)
      requires Valid()
      requires answer.given != null ==> answer.givenSize <= answer.given.Length
      modifies this, buf, answer.given
      ensures Valid() && status == StatusBy(old(FateTold(answer)), StatusBy(old(FateAsked(answer)), old(status)))
      ensures hasRequest == RequestBy(old(FateTold(answer)), RequestBy(old(FateAsked(answer)), old(hasRequest)))
      ensures hasUpdate == UpdateBy(old(FateTold(answer)), UpdateBy(old(FateAsked(answer)), old(hasUpdate)))
      ensures
        var asked, told := old(FateAsked(answer)), old(FateTold(answer));
        var n := Least(answer.most, Least(|answer.waiting|, old(Room(answer))));
        var before, h := PastBy(asked, old(past), old(now)), NowBy(asked, old(now));
        var g := if told.Replaced? && |past| > |before| then past[|before|] else now;
        && past == PastBy(told, before, g) && now == NowBy(told, g)
        && Grown(h, answer.waiting[..n], old(Fills(answer)), old(Tells(answer)), g)
        && (old(Fills(answer)) && old(buf) != null ==> g.filled[|h.filled|] == old(buf)[..old(size)])
        && (old(Fills(answer)) && old(buf) == null ==> g.filled[|h.filled|] == answer.given[..answer.givenSize])
      ensures old(Fills(answer)) ==> buf == null
      ensures old(Room(answer)) > 0 && !old(Fills(answer)) ==>
        buf == if old(buf) != null then old(buf) else answer.given
      ensures old(status) == Enabled && status == Free ==>
        && (buf != null <==> old(Asks(answer)) && Stale(answer))
        && (buf != null ==> size == answer.givenSize)
    {
      if status != Enabled || !answer.usable {
        return;
      }
      var ready := Prepare(answer);
      if ready {
        Fill(answer);
      }
    }

    /** Read into the buffer as much as there is and it has room for. */
    method Fill(answer: Answer)
      requires Valid() && buf != null && status != Free
      modifies this, buf
      ensures Valid()
      ensures
        var room := old(size) - old(write);
        var n, fills := Least(answer.most, Least(|answer.waiting|, room)),
          0 < room <= answer.most && room <= |answer.waiting|;
        var f := if fills && old(hasUpdate) then answer.updateFate else Stays;
        var g := if f.Replaced? && |past| > |old(past)| then past[|old(past)|] else now;
        && past == PastBy(f, old(past), g) && now == NowBy(f, g)
        && Grown(old(now), answer.waiting[..n], fills, fills && old(hasUpdate), g)
        && (fills ==> g.filled[|old(now.filled)|] == old(buf)[..old(size)])
        && status == StatusBy(f, old(status))
        && hasRequest == RequestBy(f, old(hasRequest)) && hasUpdate == UpdateBy(f, old(hasUpdate))
        && buf == if fills then null else old(buf)
    {
      var n := Least(answer.most, Least(|answer.waiting|, size - write));
      if n == 0 {
        return;
      }
      Store(answer.waiting[..n]);
      if write == size {
        Complete(answer.updateFate);
      }
    }

    /** Report a full buffer and give it up. */
    method Complete(fate: Fate)
      requires buf != null && write == size <= buf.Length && status != Free
      requires Sound(past) && now.consumed == Joined(now.filled) + buf[..write]
      modifies this`buf, this`size, this`write, this`status, this`hasRequest, this`hasUpdate, this`past, this`now
      ensures Valid() && buf == null
      ensures
        var f := if old(hasUpdate) then fate else Stays;
        var g := WithFull(old(now), old(buf[..write]), old(hasUpdate));
        && past == PastBy(f, old(past), g) && now == NowBy(f, g)
        && status == StatusBy(f, old(status))
        && hasRequest == RequestBy(f, old(hasRequest)) && hasUpdate == UpdateBy(f, old(hasUpdate))
    {
      FullJoins(now, buf[..write], hasUpdate);
      now := WithFull(now, buf[..write], hasUpdate);
      Clear();
      SoundBy(fate, past, now);
      if hasUpdate {
        Suffer(fate);
      }
    }

    /** Read the driver's next bytes behind those already in the buffer. */
    method Store(chunk: seq<bv8>)
      requires Valid() && buf != null && |chunk| <= size - write
      modifies this`write, this`now, buf
      ensures write == old(write) + |chunk| && buf[..write] == old(buf[..write]) + chunk
      ensures now == old(now).(consumed := old(now).consumed + chunk)
      ensures now.consumed == Joined(now.filled) + buf[..write]
    {
      ghost var before := buf[..write];
      forall i | 0 <= i < |chunk| {
        buf[write + i] := chunk[i];
      }
      assert buf[..write + |chunk|] == before + chunk;
      write := write + |chunk|;
      now := now.(consumed := now.consumed + chunk);
    }
  }

  /** A callback that frees its channel and then stores a buffer leaves it to the slot's next user, whose own
      client is never asked for one as long as that buffer, here an empty one, is there. */
  method StaleBufferStarvesNextUser(other: array<bv8>) returns (ch: Channel)
    modifies other
    ensures ch.Valid() && ch.status == Enabled && ch.hasRequest && ch.buf != null && ch.size == 0
    ensures forall answer: Answer :: !ch.Asks(answer) && ch.Room(answer) == 0
  {
    ch := new Channel(true, true);
    ch.Control(true);
    ch.Dispatch(Answer(true, other, 0, Freed, true, [], 0, Stays));
    ch.Reallocate(true, true);
    ch.Control(true);
  }

  /** If the slot has its next user already when the callback stores the buffer, that user's bytes go into the
      buffer of the client before, and that user's client is told of them without having been asked. */
  method StaleBufferTakesNextUsersBytes(other: array<bv8>, bytes: seq<bv8>) returns (ch: Channel)
    requires other.Length == |bytes| > 0
    modifies other
    ensures ch.Valid() && ch.past == [Unused()] && ch.now == History(bytes, [bytes], [bytes]) && other[..] == bytes
  {
    ch := new Channel(true, true);
    ch.Control(true);
    ch.Dispatch(Answer(true, other, other.Length, Replaced(true, true, true), true, bytes, |bytes|, Stays));
    OnlyBuffer(ch.now, bytes);
    assert other[..] == other[..|bytes|];
  }

  lemma OnlyBuffer(h: History, bytes: seq<bv8>)
    requires Grown(Unused(), bytes[..|bytes|], true, true, h) && h.consumed == Joined(h.filled) + []
    ensures h == History(bytes, [bytes], [bytes])
  {
    assert bytes[..|bytes|] == bytes;
    var full := h.filled[0];
    assert h.filled == [] + [full];
    JoinedAppend([], full);
    assert Joined([]) + full == full;
    assert full + [] == full && [] + bytes == bytes;
    assert full == bytes;
    assert h.reported == [full];
  }

  function Least(a: nat, b: nat): (r: nat)
    ensures r <= a && r <= b && (r == a || r == b)
  {
    if a <= b then a else b
  }

  lemma JoinedAppend(buffers: seq<seq<bv8>>, b: seq<bv8>)
    ensures Joined(buffers + [b]) == Joined(buffers) + b
  {
    assert (buffers + [b])[..|buffers|] == buffers;
  }

  lemma FullJoins(h: History, full: seq<bv8>, told: bool)
    requires h.consumed == Joined(h.filled) + full
    ensures var g := WithFull(h, full, told); SoundHistory(g) && g.consumed == Joined(g.filled) + []
  {
    JoinedAppend(h.filled, full);
  }

  lemma SoundBy(fate: Fate, past: seq<History>, now: History)
    requires Sound(past) && SoundHistory(now)
    ensures Sound(PastBy(fate, past, now))
  {}

  ghost function Offset(buffers: seq<seq<bv8>>, j: nat): (n: nat)
    requires j <= |buffers|
  {
    if j == 0 then 0 else Offset(buffers, j - 1) + |buffers[j - 1]|
  }

  lemma {:induction false} JoinedPrefix(buffers: seq<seq<bv8>>, j: nat)
    requires j <= |buffers|
    ensures |Joined(buffers[..j])| == Offset(buffers, j)
    ensures Joined(buffers[..j]) <= Joined(buffers)
    decreases |buffers| + j
  {
    if j == |buffers| {
      assert buffers[..j] == buffers;
      if j > 0 {
        JoinedPrefix(buffers, j - 1);
        assert buffers[..j - 1] == buffers[..|buffers| - 1];
      }
    } else {
      var most := buffers[..|buffers| - 1];
      JoinedPrefix(most, j);
      assert most[..j] == buffers[..j];
      SameOffset(buffers, most, j);
    }
  }

  lemma {:induction false} SameOffset(a: seq<seq<bv8>>, b: seq<seq<bv8>>, j: nat)
    requires j <= |a| && j <= |b| && a[..j] == b[..j]
    ensures Offset(a, j) == Offset(b, j)
  {
    if j > 0 {
      assert a[j - 1] == a[..j][j - 1] == b[j - 1];
      assert a[..j - 1] == a[..j][..j - 1] == b[..j - 1];
      SameOffset(a, b, j - 1);
    }
  }

  lemma {:induction false} FilledAreConsecutive(h: History, j: nat)
    requires SoundHistory(h) && j < |h.filled|
    ensures var at := Offset(h.filled, j);
      at + |h.filled[j]| <= |h.consumed| && h.filled[j] == h.consumed[at..at + |h.filled[j]|]
  {
    StretchAt(h.filled, j);
    Slice(Joined(h.filled[..j]), h.filled[j], h.consumed);
  }

  lemma {:induction false} StretchAt(buffers: seq<seq<bv8>>, j: nat)
    requires j < |buffers|
    ensures |Joined(buffers[..j])| == Offset(buffers, j) && Joined(buffers[..j]) + buffers[j] <= Joined(buffers)
  {
    JoinedPrefix(buffers, j);
    JoinedPrefix(buffers, j + 1);
    assert buffers[..j + 1] == buffers[..j] + [buffers[j]];
    JoinedAppend(buffers[..j], buffers[j]);
  }

  lemma {:induction false} Slice(a: seq<bv8>, b: seq<bv8>, c: seq<bv8>)
    requires a + b <= c
    ensures |a| + |b| <= |c| && b == c[|a|..|a| + |b|]
  {
    assert c[..|a + b|] == a + b;
  }
}
