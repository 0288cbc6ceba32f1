/** With nobody touching its channel or that channel's filters meanwhile, one dispatch delivers its section, in
    list order and once each, to exactly the filters that want it. */
module DispatchQuiet {
  import opened Sequences
  import opened Device
  import opened Slots
  import opened Dispatch
  import opened DispatchSafety
  import opened DispatchSteps
  import Crc32

  /** A section, and which filters' request callbacks supply a full-size buffer for it. */
  datatype Job = Job(section: seq<bv8>, grants: nat -> bool)

  /** The simple filter: enabled, not being closed, matching bit by bit and, if it asks for it, intact. */
  ghost predicate Wants(f: Filter, job: Job) {
    f.status == Enabled && !f.waitClose && Hit(f, job.section) && (f.crcCheck ==> Crc32.Crc(job.section) == 0)
  }

  /** The callbacks one filter gets for one section. */
  ghost function Callbacks(i: nat, f: Filter, job: Job): seq<Event> {
    if Wants(f, job) then Request(i, f, job) + Update(i, f, job) else []
  }

  ghost function Request(i: nat, f: Filter, job: Job): seq<Event> {
    if f.hasRequest then [RequestBegins(i, f.life), RequestEnds(i, f.life, job.grants(i))] else []
  }

  ghost function Update(i: nat, f: Filter, job: Job): seq<Event> {
    if f.hasUpdate && Gets(i, f, job) then [UpdateBegins(i, f.life, f.hasRequest, job.section)] else []
  }

  /** The section is for this filter, unless it asks for a buffer and gets none. */
  ghost predicate Gets(i: nat, f: Filter, job: Job) {
    Wants(f, job) && (f.hasRequest ==> job.grants(i))
  }

  ghost predicate InRange(list: seq<nat>, n: nat) {
    forall p :: 0 <= p < |list| ==> list[p] < n
  }

  ghost function AllCallbacks(filters: seq<Filter>, list: seq<nat>, job: Job): seq<Event>
    requires InRange(list, |filters|)
  {
    if list == [] then []
    else
      var last := list[|list| - 1];
      AllCallbacks(filters, list[..|list| - 1], job) + Callbacks(last, filters[last], job)
  }

  /** What a dispatch leaves of a filter, apart from its marks: a one-shot filter that got the section is disabled. */
  ghost function StatusAfter(i: nat, f: Filter, job: Job): Status {
    if Gets(i, f, job) && !f.continuous then Disabled else f.status
  }

  /** The dispatch is through with the filter: it was looked at, and did not ask for a buffer in vain. */
  ghost predicate Settled(i: nat, f: Filter, job: Job) {
    f.status == Enabled && !f.waitClose && (Wants(f, job) ==> Gets(i, f, job))
  }

  /** The fields a callback-free dispatch reads and does not change. */
  ghost predicate SameSettings(f: Filter, g: Filter) {
    && g.id == f.id && g.pattern == f.pattern && g.continuous == f.continuous && g.crcCheck == f.crcCheck
    && g.hasRequest == f.hasRequest && g.hasUpdate == f.hasUpdate && g.waitClose == f.waitClose
    && g.owner == f.owner && g.life == f.life
  }

  /** Filter `i` is at list position `p`; the dispatcher has passed the positions below `k`. */
  ghost predicate FilterProgress(i: nat, f: Filter, g: Filter, job: Job, passed: bool) {
    && SameSettings(f, g)
    && (passed ==> g.status == StatusAfter(i, f, job) && (g.access <==> Settled(i, f, job)))
    && (!passed ==> g.status == f.status && !g.access)
  }

  ghost predicate VisitOk(v: Visit, ch: nat, chLife: nat, job: Job) {
    && v.ch == ch && v.chLife == chLife && v.section == job.section
    && (v.crcKnown ==> v.crcWrong == (Crc32.Crc(job.section) != 0))
    && (v.crcWrong ==> v.crcKnown)
  }

  ghost predicate FiltersProgress(before: seq<Filter>, now: seq<Filter>, list: seq<nat>, job: Job, k: nat) {
    && |now| == |before| && InRange(list, |before|)
    && forall p :: 0 <= p < |list| ==> FilterProgress(list[p], before[list[p]], now[list[p]], job, p < k)
  }

  /** The callbacks begun so far, and where that puts the dispatcher. */
  ghost predicate LogProgress(
    before: seq<Filter>, list: seq<nat>, job: Job, start: seq<Event>, pc: Pc, log: seq<Event>, k: nat)
    requires k <= |list| && InRange(list, |before|)
  {
    var done := start + AllCallbacks(before, list[..k], job);
    match pc
    case Idle => k == |list| && log == done
    case Scan(v, at) => log == done && at == (if k < |list| then Some(list[k]) else None)
    case Requesting(v, slot, life) => Busy(before, list, job, slot, life, k) && Asked(before, slot, life, done, log)
    case Requested(v, slot, life, granted) =>
      granted == job.grants(slot) && Busy(before, list, job, slot, life, k) && Answered(before, slot, job, done, log)
    case Updating(v, slot, life) => Busy(before, list, job, slot, life, k) && Told(before, slot, job, done, log)
    case Updated(v, slot, life) => Busy(before, list, job, slot, life, k) && Told(before, slot, job, done, log)
  }

  ghost predicate Busy(before: seq<Filter>, list: seq<nat>, job: Job, slot: nat, life: nat, k: nat) {
    k < |list| && slot == list[k] && slot < |before| && life == before[slot].life && Wants(before[slot], job)
  }

  ghost predicate Asked(before: seq<Filter>, slot: nat, life: nat, done: seq<Event>, log: seq<Event>)
    requires slot < |before|
  {
    before[slot].hasRequest && log == done + [RequestBegins(slot, life)]
  }

  ghost predicate Answered(before: seq<Filter>, slot: nat, job: Job, done: seq<Event>, log: seq<Event>)
    requires slot < |before|
  {
    before[slot].hasRequest && log == done + Request(slot, before[slot], job)
  }

  ghost predicate Told(before: seq<Filter>, slot: nat, job: Job, done: seq<Event>, log: seq<Event>)
    requires slot < |before|
  {
    before[slot].hasUpdate && Gets(slot, before[slot], job) && log == done + Callbacks(slot, before[slot], job)
  }

  ghost predicate SameChannel(b: Channel, c: Channel) {
    c.filters == b.filters && c.status == b.status == Enabled && c.life == b.life
  }

  /** State `s` is reached in a dispatch of the job on channel `ch` begun in `s0`, `k` list entries being done. */
  ghost predicate Progress(s0: State, ch: nat, job: Job, s: State, k: nat) {
    Owned(s0.dev) && Inv(s) && Along(s0, ch, job, s, k)
  }

  ghost predicate Along(s0: State, ch: nat, job: Job, s: State, k: nat) {
    && ch < |s0.dev.sections.slots| && |s.dev.sections.slots| == |s0.dev.sections.slots|
    && var c0 := s0.dev.sections.slots[ch];
    && SameChannel(c0, s.dev.sections.slots[ch]) && Distinct(c0.filters)
    && k <= |c0.filters|
    && FiltersProgress(s0.dev.filters, s.dev.filters, c0.filters, job, k)
    && (!s.pc.Idle? ==> VisitOk(s.pc.v, ch, c0.life, job))
    && LogProgress(s0.dev.filters, c0.filters, job, s0.log, s.pc, s.log, k)
  }

  /** A step of the dispatcher itself, request callbacks supplying buffers as the job says. */
  ghost predicate Alone(s: State, step: Step, job: Job) {
    || step.ScanOne? || step.AfterRequest? || step.UpdateDone? || step.AfterUpdate?
    || (s.pc.Requesting? && step == RequestDone(job.grants(s.pc.slot)))
  }

  /** A call, by a callback or another thread, that leaves the channel and its filters as they are. */
  ghost predicate LeavesAlone(s: State, step: Step, ch: nat) {
    && !DispatcherStep(step) && Possible(s, step)
    && var d, e := s.dev, Take(s, step).dev;
    && ch < |d.sections.slots| && |e.sections.slots| == |d.sections.slots| && |e.filters| == |d.filters|
    && e.sections.slots[ch] == d.sections.slots[ch]
    && forall i: nat :: i in d.sections.slots[ch].filters && i < |d.filters| ==> e.filters[i] == d.filters[i]
  }

  /** Nothing but the dispatcher touches the channel and its filters along the run. */
  ghost predicate Undisturbed(s: State, steps: seq<Step>, ch: nat, job: Job)
    decreases |steps|
  {
    steps != [] && Possible(s, steps[0]) ==>
      && (Alone(s, steps[0], job) || LeavesAlone(s, steps[0], ch))
      && Undisturbed(Take(s, steps[0]), steps[1..], ch, job)
  }

  lemma OutsideMovesNothing(s: State, step: Step)
    requires Possible(s, step) && !DispatcherStep(step)
    ensures Take(s, step).pc == s.pc && Take(s, step).log == s.log
  {}

  lemma {:induction false} OutsideAlong(s0: State, ch: nat, job: Job, s: State, k: nat, t: State)
    requires Along(s0, ch, job, s, k) && t.pc == s.pc && t.log == s.log
    requires |t.dev.sections.slots| == |s.dev.sections.slots| && |t.dev.filters| == |s.dev.filters|
    requires t.dev.sections.slots[ch] == s.dev.sections.slots[ch]
    requires forall i: nat :: i in s.dev.sections.slots[ch].filters && i < |s.dev.filters| ==>
      t.dev.filters[i] == s.dev.filters[i]
    ensures Along(s0, ch, job, t, k)
  {
    var list := s0.dev.sections.slots[ch].filters;
    forall p | 0 <= p < |list|
      ensures FilterProgress(list[p], s0.dev.filters[list[p]], t.dev.filters[list[p]], job, p < k)
    {
      assert list[p] in list;
      assert FilterProgress(list[p], s0.dev.filters[list[p]], s.dev.filters[list[p]], job, p < k);
    }
  }

  lemma OutsideProgress(s0: State, ch: nat, job: Job, s: State, k: nat, step: Step)
    requires Along(s0, ch, job, s, k) && LeavesAlone(s, step, ch)
    ensures Along(s0, ch, job, Take(s, step), k)
  {
    OutsideMovesNothing(s, step);
    OutsideAlong(s0, ch, job, s, k, Take(s, step));
  }

  lemma {:induction false} BeginProgress(s0: State, ch: nat, job: Job)
    requires Inv(s0) && Possible(s0, BeginStep(ch, job.section))
    ensures Progress(s0, ch, job, Begin(s0, ch, job.section), 0)
  {
    BeginKeeps(s0, ch, job.section);
    assert ListOwned(s0.dev, ch);
    var list := s0.dev.sections.slots[ch].filters;
    assert list[..0] == [];
    forall p | 0 <= p < |list| ensures list[p] < |s0.dev.filters| {
      assert list[p] in list;
    }
  }

  lemma {:induction false} NextAt(list: seq<nat>, k: nat)
    requires Distinct(list) && k < |list|
    ensures NextAfter(list, list[k]) == if k + 1 < |list| then Some(list[k + 1]) else None
  {
    if k > 0 {
      assert list[0] != list[k];
      assert list[k] == list[1..][k - 1];
      NextAt(list[1..], k - 1);
    }
  }

  lemma {:induction false} OneMore(filters: seq<Filter>, list: seq<nat>, k: nat, job: Job)
    requires k < |list| && InRange(list, |filters|)
    ensures AllCallbacks(filters, list[..k + 1], job) ==
      AllCallbacks(filters, list[..k], job) + Callbacks(list[k], filters[list[k]], job)
  {
    assert list[..k + 1][..k] == list[..k];
  }

  lemma {:induction false} PassFilters(
    before: seq<Filter>, now: seq<Filter>, list: seq<nat>, job: Job, k: nat, g: Filter)
    requires FiltersProgress(before, now, list, job, k) && k < |list| && Distinct(list)
    requires FilterProgress(list[k], before[list[k]], g, job, true)
    ensures FiltersProgress(before, now[list[k] := g], list, job, k + 1)
  {
    forall p | 0 <= p < |list|
      ensures FilterProgress(list[p], before[list[p]], now[list[k] := g][list[p]], job, p < k + 1)
    {
      assert FilterProgress(list[p], before[list[p]], now[list[p]], job, p < k);
    }
  }

  /** A filter rewritten without losing its settings does not move the dispatch on. */
  lemma {:induction false} StayFilters(
    before: seq<Filter>, now: seq<Filter>, list: seq<nat>, job: Job, k: nat, g: Filter)
    requires FiltersProgress(before, now, list, job, k) && k < |list| && Distinct(list)
    requires FilterProgress(list[k], before[list[k]], g, job, false)
    ensures FiltersProgress(before, now[list[k] := g], list, job, k)
  {
    forall p | 0 <= p < |list|
      ensures FilterProgress(list[p], before[list[p]], now[list[k] := g][list[p]], job, p < k)
    {
      assert FilterProgress(list[p], before[list[p]], now[list[p]], job, p < k);
    }
  }

  lemma {:induction false} PassLog(
    before: seq<Filter>, list: seq<nat>, job: Job, start: seq<Event>, v: Visit, log: seq<Event>, k: nat)
    requires k < |list| && InRange(list, |before|) && Distinct(list)
    requires log == start + AllCallbacks(before, list[..k], job) + Callbacks(list[k], before[list[k]], job)
    ensures LogProgress(before, list, job, start, Scan(v, NextAfter(list, list[k])), log, k + 1)
  {
    NextAt(list, k);
    LogOneMore(before, list, job, start, log, k);
  }

  lemma {:induction false} LogOneMore(
    before: seq<Filter>, list: seq<nat>, job: Job, start: seq<Event>, log: seq<Event>, k: nat)
    requires k < |list| && InRange(list, |before|)
    requires log == start + AllCallbacks(before, list[..k], job) + Callbacks(list[k], before[list[k]], job)
    ensures log == start + AllCallbacks(before, list[..k + 1], job)
  {
    OneMore(before, list, k, job);
    Regroup(start, AllCallbacks(before, list[..k], job), Callbacks(list[k], before[list[k]], job));
  }

  lemma Regroup(a: seq<Event>, b: seq<Event>, c: seq<Event>)
    ensures a + b + c == a + (b + c)
  {
  }

  /** Entry `k` is done: its filter is left as `g` and the dispatcher stands on the next one. */
  lemma {:induction false} PassProgress(
    s0: State, ch: nat, job: Job, s: State, k: nat, t: State, g: Filter, v: Visit)
    requires Along(s0, ch, job, s, k) && !s.pc.Idle?
    requires k < |Listed(s, ch)| && Listed(s, ch)[k] < |s.dev.filters|
    requires |t.dev.sections.slots| == |s.dev.sections.slots|
    requires SameChannel(s.dev.sections.slots[ch], t.dev.sections.slots[ch])
    requires
      var i := Listed(s, ch)[k]; var f0 := s0.dev.filters[i];
      && t.dev.filters == s.dev.filters[i := g] && FilterProgress(i, f0, g, job, true)
      && t.pc == Scan(v, NextAfter(Listed(s, ch), i)) && VisitOk(v, ch, s.pc.v.chLife, job)
      && t.log == s0.log + AllCallbacks(s0.dev.filters, Listed(s, ch)[..k], job) + Callbacks(i, f0, job)
    ensures Along(s0, ch, job, t, k + 1)
  {
    var list := s0.dev.sections.slots[ch].filters;
    PassFilters(s0.dev.filters, s.dev.filters, list, job, k, g);
    PassLog(s0.dev.filters, list, job, s0.log, v, t.log, k);
  }

  /** Still on entry `k`, whose filter is rewritten as `g`. */
  lemma {:induction false} StayProgress(s0: State, ch: nat, job: Job, s: State, k: nat, t: State, g: Filter)
    requires Along(s0, ch, job, s, k) && !s.pc.Idle?
    requires k < |Listed(s, ch)| && Listed(s, ch)[k] < |s.dev.filters|
    requires |t.dev.sections.slots| == |s.dev.sections.slots|
    requires SameChannel(s.dev.sections.slots[ch], t.dev.sections.slots[ch])
    requires
      var i := Listed(s, ch)[k];
      t.dev.filters == s.dev.filters[i := g] && FilterProgress(i, s0.dev.filters[i], g, job, false)
    requires !t.pc.Idle? && VisitOk(t.pc.v, ch, s.pc.v.chLife, job)
    requires LogProgress(s0.dev.filters, s0.dev.sections.slots[ch].filters, job, s0.log, t.pc, t.log, k)
    ensures Along(s0, ch, job, t, k)
  {
    StayFilters(s0.dev.filters, s.dev.filters, s0.dev.sections.slots[ch].filters, job, k, g);
  }

  lemma StandingOn(s0: State, ch: nat, job: Job, s: State, k: nat)
    requires Along(s0, ch, job, s, k) && !s.pc.Idle? && k < |Listed(s, ch)|
    ensures Listed(s, ch)[k] < |s.dev.filters|
    ensures var i := Listed(s, ch)[k]; FilterProgress(i, s0.dev.filters[i], s.dev.filters[i], job, false)
  {}

  /** Passing entry `k` without a callback: its filter does not want the section. */
  lemma {:induction false} SkipProgress(s0: State, ch: nat, job: Job, s: State, k: nat, g: Filter, v: Visit)
    requires Along(s0, ch, job, s, k) && s.pc.Scan? && Shaped(s) && k < |Listed(s, ch)|
    requires Listed(s, ch)[k] < |s.dev.filters|
    requires v.ch == ch && VisitOk(v, ch, s.pc.v.chLife, job)
    requires var i := Listed(s, ch)[k]; var f := FilterAt(s, i);
      && !Wants(s0.dev.filters[i], job) && g == f.(access := f.status == Enabled && !f.waitClose)
    ensures Along(s0, ch, job, ScanNext(WithFilter(s, Listed(s, ch)[k], g), v, Listed(s, ch)[k]), k + 1)
  {
    var i := Listed(s, ch)[k];
    StandingOn(s0, ch, job, s, k);
    PassProgress(s0, ch, job, s, k, ScanNext(WithFilter(s, i, g), v, i), g, v);
  }

  /** The scan stands on entry `k`, whose filter is unchanged since the dispatch began. */
  ghost predicate AtEntry(s0: State, ch: nat, job: Job, s: State, k: nat) {
    && Along(s0, ch, job, s, k) && Shaped(s) && s.pc.Scan? && k < |Listed(s, ch)|
    && s.pc.at == Some(Listed(s, ch)[k])
    && Listed(s, ch)[k] < |s0.dev.filters|
    && FilterProgress(Listed(s, ch)[k], s0.dev.filters[Listed(s, ch)[k]], FilterAt(s, Listed(s, ch)[k]), job, false)
  }

  /** With the shared verdict in hand, testing it is testing the section's own CRC. */
  lemma SharedVerdict(v: Visit, ch: nat, chLife: nat, job: Job)
    requires VisitOk(v, ch, chLife, job)
    ensures VisitOk(CheckCrc(v), ch, chLife, job)
    ensures CheckCrc(v).crcWrong <==> Crc32.Crc(job.section) != 0
  {}

  lemma {:induction false} UnwantedProgress(s0: State, ch: nat, job: Job, s: State, k: nat)
    requires AtEntry(s0, ch, job, s, k) && !Wants(s0.dev.filters[Listed(s, ch)[k]], job)
    ensures Along(s0, ch, job, ScanStep(s), k + 1)
  {
    var i, v := Listed(s, ch)[k], s.pc.v;
    var f := FilterAt(s, i);
    SharedVerdict(v, ch, v.chLife, job);
    if f.status != Enabled || f.waitClose {
      SameFilter(s, i);
      SkipProgress(s0, ch, job, s, k, f, v);
    } else if !Hit(f, job.section) {
      SkipProgress(s0, ch, job, s, k, f.(access := true), v);
    } else {
      SkipProgress(s0, ch, job, s, k, f.(access := true), CheckCrc(v));
    }
  }

  lemma {:induction false} WantedProgress(s0: State, ch: nat, job: Job, s: State, k: nat) returns (k': nat)
    requires AtEntry(s0, ch, job, s, k) && Wants(s0.dev.filters[Listed(s, ch)[k]], job)
    ensures Along(s0, ch, job, ScanStep(s), k')
  {
    var i, v := Listed(s, ch)[k], s.pc.v;
    var f := FilterAt(s, i);
    SharedVerdict(v, ch, v.chLife, job);
    if f.hasRequest {
      k' := k;
      StayProgress(s0, ch, job, s, k, ScanStep(s), Asking(f));
    } else {
      k' := DeliverProgress(s0, ch, job, s, k, s, if f.crcCheck then CheckCrc(v) else v, false);
    }
  }

  lemma ScanProgress(s0: State, ch: nat, job: Job, s: State, k: nat) returns (k': nat)
    requires Along(s0, ch, job, s, k) && Shaped(s) && s.pc.Scan?
    ensures Along(s0, ch, job, ScanStep(s), k')
  {
    k' := k;
    if k < |Listed(s, ch)| {
      StandingOn(s0, ch, job, s, k);
      if Wants(s0.dev.filters[Listed(s, ch)[k]], job) {
        k' := WantedProgress(s0, ch, job, s, k);
      } else {
        k' := k + 1;
        UnwantedProgress(s0, ch, job, s, k);
      }
    }
  }

  /** Entry `k` is wanted and, if it asks for a buffer, was served one. */
  ghost predicate Served(s0: State, ch: nat, job: Job, s: State, k: nat, buffered: bool)
    requires ch < |s.dev.sections.slots|
  {
    var list := Listed(s, ch);
    && k < |list| && InRange(list, |s0.dev.filters|) && list[k] < |s.dev.filters|
    && var f0 := s0.dev.filters[list[k]];
    && Gets(list[k], f0, job) && buffered == f0.hasRequest
    && s.log == s0.log + AllCallbacks(s0.dev.filters, list[..k], job) + Request(list[k], f0, job)
  }

  lemma {:induction false} UpdateProgress(
    s0: State, ch: nat, job: Job, s: State, k: nat, t: State, v: Visit, buffered: bool)
    requires Along(s0, ch, job, s, k) && !s.pc.Idle? && Served(s0, ch, job, s, k, buffered)
    requires var i := Listed(s, ch)[k]; FilterProgress(i, s0.dev.filters[i], FilterAt(s, i), job, false)
    requires |t.dev.sections.slots| == |s.dev.sections.slots|
    requires SameChannel(s.dev.sections.slots[ch], t.dev.sections.slots[ch])
    requires var i := Listed(s, ch)[k]; var f := FilterAt(s, i);
      && f.hasUpdate && v.ch == ch && VisitOk(v, ch, s.pc.v.chLife, job)
      && t.dev.filters == s.dev.filters[i := Telling(f)]
      && t.pc == Updating(v, i, f.life) && t.log == s.log + [UpdateBegins(i, f.life, buffered, v.section)]
    ensures Along(s0, ch, job, t, k)
  {
    var i := Listed(s, ch)[k];
    var f0, done := s0.dev.filters[i], s0.log + AllCallbacks(s0.dev.filters, Listed(s, ch)[..k], job);
    Regroup(done, Request(i, f0, job), Update(i, f0, job));
    assert t.log == done + Callbacks(i, f0, job);
    StayProgress(s0, ch, job, s, k, t, t.dev.filters[i]);
  }

  lemma {:induction false} NoUpdateProgress(
    s0: State, ch: nat, job: Job, s: State, k: nat, t: State, v: Visit, buffered: bool)
    requires Along(s0, ch, job, s, k) && !s.pc.Idle? && Served(s0, ch, job, s, k, buffered)
    requires var i := Listed(s, ch)[k]; FilterProgress(i, s0.dev.filters[i], FilterAt(s, i), job, false)
    requires |t.dev.sections.slots| == |s.dev.sections.slots|
    requires SameChannel(s.dev.sections.slots[ch], t.dev.sections.slots[ch])
    requires var i := Listed(s, ch)[k]; var f := FilterAt(s, i);
      && !f.hasUpdate && v.ch == ch && VisitOk(v, ch, s.pc.v.chLife, job)
      && t.dev.filters == s.dev.filters[i := f.(status := StatusAfter(i, s0.dev.filters[i], job), access := true)]
      && t.pc == Scan(v, NextAfter(Listed(s, ch), i)) && t.log == s.log
    ensures Along(s0, ch, job, t, k + 1)
  {
    var i := Listed(s, ch)[k];
    var done := s0.log + AllCallbacks(s0.dev.filters, Listed(s, ch)[..k], job);
    assert Update(i, s0.dev.filters[i], job) == [];
    assert t.log == done + Callbacks(i, s0.dev.filters[i], job);
    PassProgress(s0, ch, job, s, k, t, t.dev.filters[i], v);
  }

  /** From entry `k` to its update callback or, without one, past it. */
  lemma DeliverProgress(
    s0: State, ch: nat, job: Job, s: State, k: nat, m: State, v: Visit, buffered: bool) returns (k': nat)
    requires Along(s0, ch, job, s, k) && !s.pc.Idle? && Served(s0, ch, job, s, k, buffered)
    requires var i := Listed(s, ch)[k]; FilterProgress(i, s0.dev.filters[i], FilterAt(s, i), job, false)
    requires m.dev.filters == s.dev.filters && m.log == s.log && v.ch == ch && VisitOk(v, ch, s.pc.v.chLife, job)
    requires |m.dev.sections.slots| == |s.dev.sections.slots|
    requires SameChannel(s.dev.sections.slots[ch], m.dev.sections.slots[ch])
    ensures Along(s0, ch, job, Deliver(m, v, Listed(s, ch)[k], buffered), k')
  {
    var i := Listed(s, ch)[k];
    if FilterAt(s, i).hasUpdate {
      k' := k;
      UpdateProgress(s0, ch, job, s, k, Deliver(m, v, i, buffered), v, buffered);
    } else {
      k' := k + 1;
      NoUpdateProgress(s0, ch, job, s, k, Deliver(m, v, i, buffered), v, buffered);
    }
  }

  lemma ReturnProgress(s0: State, ch: nat, job: Job, s: State, k: nat, step: Step)
    requires Progress(s0, ch, job, s, k) && Possible(s, step) && Alone(s, step, job)
    requires step.RequestDone? || step.UpdateDone?
    ensures Along(s0, ch, job, Take(s, step), k)
  {
    StandingOn(s0, ch, job, s, k);
    var f := FilterAt(s, s.pc.slot);
    StayProgress(s0, ch, job, s, k, Take(s, step), f.(flag := FlagDispatch));
  }

  /** Alone, the checks after a callback always pass. */
  lemma ChecksPass(s0: State, ch: nat, job: Job, s: State, k: nat)
    requires Progress(s0, ch, job, s, k) && Shaped(s) && s.pc.AtFilter()
    ensures ChannelCheck(s) && FilterCheck(s) && FilterAt(s, s.pc.slot).status == Enabled
    ensures k < |Listed(s, ch)| && s.pc.slot == Listed(s, ch)[k]
  {
    VisitedSlot(s);
    StandingOn(s0, ch, job, s, k);
  }

  lemma AfterRequestProgress(s0: State, ch: nat, job: Job, s: State, k: nat) returns (k': nat)
    requires Progress(s0, ch, job, s, k) && Shaped(s) && s.pc.Requested?
    ensures Along(s0, ch, job, RequestedStep(s), k')
  {
    ChecksPass(s0, ch, job, s, k);
    StandingOn(s0, ch, job, s, k);
    if s.pc.granted {
      k' := DeliverProgress(s0, ch, job, s, k, WithSession(s, ch, Cleared), s.pc.v, true);
    } else {
      k' := k + 1;
      RefusedProgress(s0, ch, job, s, k);
    }
  }

  /** A filter whose request is refused is passed and stays as it is. */
  lemma RefusedProgress(s0: State, ch: nat, job: Job, s: State, k: nat)
    requires Progress(s0, ch, job, s, k) && Shaped(s) && s.pc.Requested? && !s.pc.granted
    requires ChannelCheck(s) && FilterCheck(s) && FilterAt(s, s.pc.slot).status == Enabled
    requires k < |Listed(s, ch)| && s.pc.slot == Listed(s, ch)[k]
    ensures Along(s0, ch, job, RequestedStep(s), k + 1)
  {
    StandingOn(s0, ch, job, s, k);
    var i := s.pc.slot;
    assert Callbacks(i, s0.dev.filters[i], job) == Request(i, s0.dev.filters[i], job);
    SameFilter(s, i);
    PassProgress(s0, ch, job, s, k, RequestedStep(s), FilterAt(s, i), s.pc.v);
  }

  lemma AfterUpdateProgress(s0: State, ch: nat, job: Job, s: State, k: nat)
    requires Progress(s0, ch, job, s, k) && Shaped(s) && s.pc.Updated?
    ensures Along(s0, ch, job, UpdatedStep(s), k + 1)
  {
    ChecksPass(s0, ch, job, s, k);
    StandingOn(s0, ch, job, s, k);
    var i := s.pc.slot;
    var f := FilterAt(s, i);
    PassProgress(s0, ch, job, s, k, UpdatedStep(s),
                 f.(status := StatusAfter(i, s0.dev.filters[i], job), access := true), s.pc.v);
  }

  lemma StepAlong(s0: State, ch: nat, job: Job, s: State, k: nat, step: Step) returns (k': nat)
    requires Progress(s0, ch, job, s, k) && Possible(s, step) && Alone(s, step, job)
    ensures Along(s0, ch, job, Take(s, step), k')
  {
    if step.ScanOne? {
      k' := ScanProgress(s0, ch, job, s, k);
    } else if step.AfterRequest? {
      k' := AfterRequestProgress(s0, ch, job, s, k);
    } else if step.AfterUpdate? {
      AfterUpdateProgress(s0, ch, job, s, k);
      k' := k + 1;
    } else {
      ReturnProgress(s0, ch, job, s, k, step);
      k' := k;
    }
  }

  lemma {:induction false} AloneProgress(
    s0: State, ch: nat, job: Job, s: State, k: nat, steps: seq<Step>, t: State)
    returns (k': nat)
    requires Progress(s0, ch, job, s, k) && Runs(s, steps, t) && Undisturbed(s, steps, ch, job)
    ensures Progress(s0, ch, job, t, k')
    decreases |steps|
  {
    if steps == [] {
      k' := k;
    } else {
      var j := k;
      if Alone(s, steps[0], job) {
        j := StepAlong(s0, ch, job, s, k, steps[0]);
      } else {
        OutsideProgress(s0, ch, job, s, k, steps[0]);
      }
      StepKeepsInv(s, steps[0]);
      k' := AloneProgress(s0, ch, job, Take(s, steps[0]), j, steps[1..], t);
    }
  }

  /** A dispatch that runs undisturbed to its end has called back, in list order and once each, exactly the
      filters that want the section, told of it exactly those that did not ask for a buffer in vain, and has
      switched off exactly the one-shot ones among these. */
  lemma {:induction false} DispatchRefinesFilter(s0: State, ch: nat, job: Job, steps: seq<Step>, t: State)
    requires Inv(s0) && Possible(s0, BeginStep(ch, job.section))
    requires Runs(Begin(s0, ch, job.section), steps, t) && t.pc.Idle?
    requires Undisturbed(Begin(s0, ch, job.section), steps, ch, job)
    ensures InRange(Listed(s0, ch), |s0.dev.filters|) && |t.dev.filters| == |s0.dev.filters|
    ensures t.log == s0.log + AllCallbacks(s0.dev.filters, Listed(s0, ch), job)
    ensures forall p :: 0 <= p < |Listed(s0, ch)| ==>
      && var i := Listed(s0, ch)[p]; var f, g := s0.dev.filters[i], t.dev.filters[i];
      && g.status == StatusAfter(i, f, job) && (g.access <==> Settled(i, f, job))
  {
    BeginProgress(s0, ch, job);
    var k := AloneProgress(s0, ch, job, Begin(s0, ch, job.section), 0, steps, t);
    var list := Listed(s0, ch);
    assert list[..k] == list;
    forall p | 0 <= p < |list|
      ensures
        var i := list[p]; var f, g := s0.dev.filters[i], t.dev.filters[i];
        g.status == StatusAfter(i, f, job) && (g.access <==> Settled(i, f, job))
    {
      assert FilterProgress(list[p], s0.dev.filters[list[p]], t.dev.filters[list[p]], job, p < k);
    }
  }
}
