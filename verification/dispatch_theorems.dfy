/** What the invariant says about runs: stale slots, the free protocol, deliveries. */
module DispatchTheorems {
  import opened Device
  import opened Slots
  import opened Dispatch
  import opened DispatchSafety
  import opened DispatchSteps

  /** The dispatcher stays on one visit: its callback may return, anything may happen around it. */
  predicate StaysOnVisit(step: Step) {
    !step.BeginStep? && !step.ScanOne? && !step.AfterRequest? && !step.AfterUpdate?
  }

  lemma VisitKept(s: State, step: Step)
    requires Possible(s, step) && StaysOnVisit(step) && s.pc.AtFilter()
    ensures var t := Take(s, step);
      && t.pc.AtFilter() && t.pc.slot == s.pc.slot && t.pc.life == s.pc.life && t.pc.v == s.pc.v
      && (t.pc.InRequest() == s.pc.InRequest())
  {}

  lemma {:induction false} VisitKeptOverRun(s: State, steps: seq<Step>, t: State)
    requires Runs(s, steps, t) && s.pc.AtFilter() && forall k :: 0 <= k < |steps| ==> StaysOnVisit(steps[k])
    ensures t.pc.AtFilter() && t.pc.slot == s.pc.slot && t.pc.life == s.pc.life && t.pc.v == s.pc.v
    decreases |steps|
  {
    if steps != [] {
      VisitKept(s, steps[0]);
      VisitKeptOverRun(Take(s, steps[0]), steps[1..], t);
    }
  }

  /** Stale slots: however the calls interleave with a callback, its filter's session check passes
      afterwards exactly when the slot was not freed since the callback began; likewise the channel's. */
  lemma SessionChecksAreExact(before: seq<Step>, s: State, during: seq<Step>, t: State)
    requires Runs(Initial(), before, s) && s.pc.InCallback()
    requires Shaped(s) && FilterAt(s, s.pc.slot).life == s.pc.life
    requires s.dev.sections.slots[s.pc.v.ch].life == s.pc.v.chLife
    requires Runs(s, during, t) && forall k :: 0 <= k < |during| ==> StaysOnVisit(during[k])
    ensures Shaped(t) && t.pc.AtFilter() && t.pc.slot == s.pc.slot && t.pc.v.ch == s.pc.v.ch
    ensures FilterCheck(t) <==> FilterAt(t, s.pc.slot).life == FilterAt(s, s.pc.slot).life
    ensures t.dev.sections.slots[s.pc.v.ch].session == Stamped <==>
              t.dev.sections.slots[s.pc.v.ch].life == s.dev.sections.slots[s.pc.v.ch].life
    ensures FilterCheck(t) ==> FilterAt(t, s.pc.slot).Live() && s.pc.slot in Listed(t, s.pc.v.ch)
  {
    InitialInv();
    RunKeepsInv(Initial(), before, s);
    RunKeepsInv(s, during, t);
    VisitKeptOverRun(s, during, t);
    InvIsShaped(s);
    InvIsShaped(t);
    VisitedSlot(t);
  }

  /** Every update callback that hands over a buffer goes to the incarnation whose request callback, which ended
      just before it, supplied the buffer. */
  lemma UpdatesFollowTheirRequest(steps: seq<Step>, s: State, k: nat)
    requires Runs(Initial(), steps, s) && k < |s.log| && s.log[k].UpdateBegins? && s.log[k].buffered
    ensures k > 1 && s.log[k - 1] == RequestEnds(s.log[k].slot, s.log[k].life, true)
    ensures s.log[k - 2] == RequestBegins(s.log[k].slot, s.log[k].life)
  {
    InitialInv();
    RunKeepsInv(Initial(), steps, s);
    LogPairs(s.log, s.pc, k);
  }

  lemma LogPairs(log: seq<Event>, pc: Pc, k: nat)
    requires LogInv(log, pc) && k < |log| && log[k].UpdateBegins? && log[k].buffered
    ensures k > 1 && log[k - 1] == RequestEnds(log[k].slot, log[k].life, true)
    ensures log[k - 2] == RequestBegins(log[k].slot, log[k].life)
  {
    assert EndsWithRequest(log[..k], log[k].slot, log[k].life, true);
  }

  /** An idle dispatcher takes up exactly the sections of one to 4096 bytes, of channels that are running. */
  lemma SectionSizes(steps: seq<Step>, s: State, ch: nat, section: seq<bv8>)
    requires Runs(Initial(), steps, s) && s.pc.Idle? && !s.faulted && LiveSection(s.dev, ch)
    ensures Possible(s, BeginStep(ch, section)) <==>
      1 <= |section| <= 4096 && s.dev.sections.slots[ch].status == Enabled
  {
    InitialInv();
    RunKeepsInv(Initial(), steps, s);
    InvIsShaped(s);
  }

  /** Over all runs, a filter just allocated carries nothing over from an earlier use of its slot: it is stopped, is
      one-shot, checks no CRC, has no callbacks, matches everything, and nobody waits to free it. */
  lemma NewFilterIsBlank(steps: seq<Step>, s: State, id: nat)
    requires Runs(Initial(), steps, s) && AllocateFilter(s.dev, id).1.Ok?
    ensures
      var e, i := AllocateFilter(s.dev, id).0, AllocateFilter(s.dev, id).1.id;
      && i < |e.filters|
      && var f := e.filters[i];
      && f.status == Disabled && !f.continuous && !f.crcCheck && !f.hasRequest && !f.hasUpdate
      && !f.waitClose && !f.access && f.pattern.size == 0 && f.session == Blank
  {
    InitialInv();
    RunKeepsInv(Initial(), steps, s);
    var i := FirstFreeFilter(s.dev.filters).value;
    assert FilterInv(s.pc, i, s.dev.filters[i]);
  }

  /** The user callback of this incarnation of slot `i` is running. */
  ghost predicate CallbackRuns(s: State, i: nat) {
    i < |s.dev.filters| && s.pc.InCallback() && OnFilter(s.pc, i, s.dev.filters[i])
  }

  /** A free call of another thread never frees a filter whose callback is running: a look at a live filter
      marks it and waits exactly if its callback runs, and otherwise frees it; no other filter is touched. */
  lemma FreeWaitsForTheCallback(steps: seq<Step>, s: State, t: nat, w: Waiter)
    requires Runs(Initial(), steps, s) && !s.pc.Scan? && w.slot < |s.dev.filters| && s.dev.filters[w.slot].Live()
    ensures var r, i := TryFree(s, t, w), w.slot;
      && |r.dev.filters| == |s.dev.filters| && r.faulted == s.faulted
      && (CallbackRuns(s, i) ==>
            r.dev.filters[i] == s.dev.filters[i].(waitClose := true) && t in r.waiting && r.waiting[t] == w)
      && (!CallbackRuns(s, i) ==> r.dev.filters[i] == s.dev.filters[i].Wiped() && t !in r.waiting)
      && (forall j :: 0 <= j < |s.dev.filters| && j != i ==> r.dev.filters[j] == s.dev.filters[j])
  {
    InitialInv();
    RunKeepsInv(Initial(), steps, s);
    assert FilterInv(s.pc, w.slot, s.dev.filters[w.slot]) && FilterPlaced(s.dev, w.slot);
  }

  // A free call that waits looks at its slot again, whatever the slot holds by then.

  /** The thread waits in its free call all along the run. */
  ghost predicate WaitsAlong(s: State, steps: seq<Step>, thread: nat)
    decreases |steps|
  {
    && thread in s.waiting
    && (steps != [] && Possible(s, steps[0]) ==> WaitsAlong(Take(s, steps[0]), steps[1..], thread))
  }

  /** The dispatcher has no part in the calls of other threads. */
  lemma DispatcherFrame(s: State, step: Step)
    requires Possible(s, step) && DispatcherStep(step)
    ensures SameThreads(s, Take(s, step))
  {
    match step
    case ScanOne => ScanFrame(s);
    case AfterRequest => RequestedFrame(s);
    case AfterUpdate => UpdatedFrame(s);
    case _ =>
  }

  ghost predicate SameThreads(s: State, t: State) {
    t.waiting == s.waiting && t.controlling == s.controlling && t.faulted == s.faulted
  }

  ghost predicate SameBesides(s: State, t: State) {
    SameThreads(s, t) && t.stray == s.stray
  }

  lemma DeliverFrame(s: State, v: Visit, i: nat, buffered: bool)
    requires i < |s.dev.filters| && v.ch < |s.dev.sections.slots|
    ensures SameBesides(s, Deliver(s, v, i, buffered))
  {}

  lemma RejoinFrame(s: State)
    requires Shaped(s) && s.pc.AtFilter() && Rejoin(s).Some?
    ensures SameThreads(s, Rejoin(s).value)
  {}

  lemma ScanFrame(s: State)
    requires Shaped(s) && s.pc.Scan?
    ensures SameBesides(s, ScanStep(s))
  {
    if s.pc.at.Some? {
      var i, v := s.pc.at.value, s.pc.v;
      var f := FilterAt(s, i);
      var v' := if f.crcCheck then CheckCrc(v) else v;
      if f.status != Enabled || f.access || f.waitClose {
      } else if !Hit(f, v.section) {
      } else if f.crcCheck && v'.crcWrong {
      } else if !f.hasRequest {
        DeliverFrame(s, v', i, false);
      }
    }
  }

  lemma RequestedFrame(s: State)
    requires Shaped(s) && s.pc.Requested?
    ensures SameThreads(s, RequestedStep(s))
  {
    if ChannelCheck(s) {
      var t := WithSession(s, s.pc.v.ch, Cleared);
      DeliverFrame(t, s.pc.v, s.pc.slot, true);
      if Rejoin(t).Some? {
        RejoinFrame(t);
      }
    }
  }

  lemma UpdatedFrame(s: State)
    requires Shaped(s) && s.pc.Updated?
    ensures SameThreads(s, UpdatedStep(s))
  {
    if ChannelCheck(s) {
      var t := WithSession(s, s.pc.v.ch, Cleared);
      NotedIsSame(t, s.pc.slot);
      if Rejoin(Noted(t, s.pc.slot)).Some? {
        RejoinFrame(Noted(t, s.pc.slot));
      }
    }
  }

  lemma WaiterKept(s: State, step: Step, thread: nat)
    requires Possible(s, step) && thread in s.waiting && thread in Take(s, step).waiting
    ensures Take(s, step).waiting[thread] == s.waiting[thread]
  {
    if DispatcherStep(step) {
      DispatcherFrame(s, step);
    }
  }

  lemma {:induction false} WaiterKeptOverRun(s: State, steps: seq<Step>, t: State, thread: nat)
    requires Runs(s, steps, t) && WaitsAlong(s, steps, thread)
    ensures thread in t.waiting && t.waiting[thread] == s.waiting[thread]
    decreases |steps|
  {
    if steps != [] {
      WaiterKept(s, steps[0], thread);
      WaiterKeptOverRun(Take(s, steps[0]), steps[1..], t, thread);
    }
  }

  /** What a retry does, over all runs: it frees or goes on waiting for the filter its call was made for
      exactly if that slot was not freed since the call began; if it was, the retry faults on a slot that is
      free and, on a slot that was allocated again, marks or frees somebody else's filter. */
  lemma RetryIsExact(before: seq<Step>, s: State, thread: nat, id: nat, during: seq<Step>, t: State)
    requires Runs(Initial(), before, s) && Possible(s, FreeBegins(thread, id))
    requires thread in Take(s, FreeBegins(thread, id)).waiting
    requires Runs(Take(s, FreeBegins(thread, id)), during, t)
    requires WaitsAlong(Take(s, FreeBegins(thread, id)), during, thread)
    requires Possible(t, FreeRetries(thread))
    ensures FindFilter(s.dev.filters, id).Some?
    ensures
      var i := FindFilter(s.dev.filters, id).value; var u := Take(t, FreeRetries(thread));
      && i < |t.dev.filters| && i < |u.dev.filters|
      && var f, g, h := s.dev.filters[i], t.dev.filters[i], u.dev.filters[i];
      && f.life <= g.life
      && (f.life == g.life ==> g.Live() && !u.faulted && (h == g || h == g.Wiped()))
      && (f.life != g.life ==>
            (u.faulted <==> !g.Live()) && (g.Live() ==> h == g.(waitClose := true) || h == g.Wiped()))
  {
    InitialInv();
    RunKeepsInv(Initial(), before, s);
    BeganToWait(s, thread, id);
    var m := Take(s, FreeBegins(thread, id));
    StepKeepsInv(s, FreeBegins(thread, id));
    RunKeepsInv(m, during, t);
    WaiterKeptOverRun(m, during, t, thread);
    RetryActs(t, thread);
  }

  lemma BeganToWait(s: State, thread: nat, id: nat)
    requires Possible(s, FreeBegins(thread, id)) && thread in Take(s, FreeBegins(thread, id)).waiting
    ensures var r := FindFilter(s.dev.filters, id);
      r.Some? && Take(s, FreeBegins(thread, id)).waiting[thread] == Waiter(r.value, s.dev.filters[r.value].life)
  {}

  lemma RetryActs(t: State, thread: nat)
    requires Inv(t) && Possible(t, FreeRetries(thread))
    ensures
      var w := t.waiting[thread]; var u := Take(t, FreeRetries(thread));
      && w.slot < |u.dev.filters| && w.slot < |t.dev.filters|
      && var g, h := t.dev.filters[w.slot], u.dev.filters[w.slot];
      && w.life <= g.life
      && (w.life == g.life ==> g.Live() && !u.faulted && (h == g || h == g.Wiped()))
      && (w.life != g.life ==>
            (u.faulted <==> !g.Live()) && (g.Live() ==> h == g.(waitClose := true) || h == g.Wiped()))
  {
    var w := t.waiting[thread];
    assert WaiterOk(t.dev.filters[w.slot], w);
    assert FilterPlaced(t.dev, w.slot) && FilterInv(t.pc, w.slot, t.dev.filters[w.slot]);
  }

  // Starting or stopping a channel: the slot found is tested and acted on later.

  /** The thread is inside its control call all along the run. */
  ghost predicate ControlsAlong(s: State, steps: seq<Step>, thread: nat)
    decreases |steps|
  {
    && thread in s.controlling
    && (steps != [] && Possible(s, steps[0]) ==> ControlsAlong(Take(s, steps[0]), steps[1..], thread))
  }

  lemma ControllerKept(s: State, step: Step, thread: nat)
    requires Possible(s, step) && thread in s.controlling && thread in Take(s, step).controlling
    ensures var k, m := s.controlling[thread], Take(s, step).controlling[thread];
      m.slot == k.slot && m.life == k.life && m.enable == k.enable
  {
    if DispatcherStep(step) {
      DispatcherFrame(s, step);
    }
  }

  lemma {:induction false} ControllerKeptOverRun(s: State, steps: seq<Step>, t: State, thread: nat)
    requires Runs(s, steps, t) && ControlsAlong(s, steps, thread)
    ensures thread in t.controlling
    ensures var k, m := s.controlling[thread], t.controlling[thread];
      m.slot == k.slot && m.life == k.life && m.enable == k.enable
    decreases |steps|
  {
    if steps != [] {
      ControllerKept(s, steps[0], thread);
      ControllerKeptOverRun(Take(s, steps[0]), steps[1..], t, thread);
    }
  }

  /** What the act of a control call does, over all runs: it changes the channel the call found exactly if that
      channel was not freed since; if it was, the act breaks the tables on a slot that is free and, on a slot
      that was allocated again, changes somebody else's channel. */
  lemma ControlIsExact(before: seq<Step>, s: State, thread: nat, id: nat, enable: bool, during: seq<Step>, t: State)
    requires Runs(Initial(), before, s) && Possible(s, ControlFinds(thread, id, enable))
    requires thread in Take(s, ControlFinds(thread, id, enable)).controlling
    requires var m := Take(s, ControlFinds(thread, id, enable)); Runs(m, during, t) && ControlsAlong(m, during, thread)
    requires Possible(t, ControlActs(thread))
    ensures FindChannel(s.dev.sections, id).Some?
    ensures
      var c := FindChannel(s.dev.sections, id).value; var u := Take(t, ControlActs(thread));
      && c < |t.dev.sections.slots| && |u.dev.sections.slots| == |t.dev.sections.slots|
      && var f, g, h := s.dev.sections.slots[c], t.dev.sections.slots[c], u.dev.sections.slots[c];
      && f.life <= g.life && (f.life == g.life ==> g.Live())
      && (u.faulted <==> !g.Live())
      && (g.Live() ==> h == g.(status := if enable then Enabled else Disabled))
  {
    InitialInv();
    RunKeepsInv(Initial(), before, s);
    BeganToControl(s, thread, id, enable);
    var m := Take(s, ControlFinds(thread, id, enable));
    StepKeepsInv(s, ControlFinds(thread, id, enable));
    RunKeepsInv(m, during, t);
    ControllerKeptOverRun(m, during, t, thread);
    ActActs(t, thread);
  }

  lemma BeganToControl(s: State, thread: nat, id: nat, enable: bool)
    requires Possible(s, ControlFinds(thread, id, enable))
    requires thread in Take(s, ControlFinds(thread, id, enable)).controlling
    ensures var r := FindChannel(s.dev.sections, id);
      && r.Some?
      && Take(s, ControlFinds(thread, id, enable)).controlling[thread] ==
           Controller(r.value, s.dev.sections.slots[r.value].life, enable, false)
  {}

  lemma ActActs(t: State, thread: nat)
    requires Inv(t) && Possible(t, ControlActs(thread))
    ensures
      var k := t.controlling[thread]; var u := Take(t, ControlActs(thread));
      && k.slot < |t.dev.sections.slots| && |u.dev.sections.slots| == |t.dev.sections.slots|
      && var g, h := t.dev.sections.slots[k.slot], u.dev.sections.slots[k.slot];
      && k.life <= g.life && (k.life == g.life ==> g.Live())
      && (u.faulted <==> !g.Live())
      && (g.Live() ==> h == g.(status := if k.enable then Enabled else Disabled))
  {
    assert ControllerOk(t.dev.sections.slots[t.controlling[thread].slot], t.controlling[thread]);
  }

  /** A start whose channel was freed before its tests, the slot still being free, does nothing at all. */
  lemma StartOnFreedSlotIsHarmless(s: State, thread: nat, pid: bool)
    requires Possible(s, ControlTests(thread, pid)) && s.controlling[thread].enable
    requires !s.dev.sections.slots[s.controlling[thread].slot].Live()
    ensures var t := Take(s, ControlTests(thread, pid)); t.dev == s.dev && thread !in t.controlling
  {}

  /** Everything that can go wrong at a step, over all runs. */
  lemma FaultsIff(steps: seq<Step>, s: State, step: Step)
    requires Runs(Initial(), steps, s) && Possible(s, step)
    ensures Take(s, step).faulted <==>
      || (step.FreeRetries? && !s.dev.filters[s.waiting[step.thread].slot].Live())
      || (step.DropsChannel? && !Droppable(s.dev, step.id))
      || (step.ControlActs? && !s.dev.sections.slots[s.controlling[step.thread].slot].Live())
  {
    InitialInv();
    RunKeepsInv(Initial(), steps, s);
    if DispatcherStep(step) {
      DispatcherFrame(s, step);
    } else if step.FreeRetries? {
      RetryFaultsIff(s, step.thread);
    } else {
      OtherFaultsIff(s, step);
    }
  }

  lemma RetryFaultsIff(s: State, thread: nat)
    requires Inv(s) && Possible(s, FreeRetries(thread))
    ensures Take(s, FreeRetries(thread)).faulted <==> !s.dev.filters[s.waiting[thread].slot].Live()
  {
    var i := s.waiting[thread].slot;
    assert FilterInv(s.pc, i, s.dev.filters[i]);
  }

  lemma OtherFaultsIff(s: State, step: Step)
    requires Possible(s, step) && !DispatcherStep(step) && !step.FreeRetries?
    ensures Take(s, step).faulted <==>
      || (step.DropsChannel? && !Droppable(s.dev, step.id))
      || (step.ControlActs? && !s.dev.sections.slots[s.controlling[step.thread].slot].Live())
  {}

  // The stamp written through the head of a list.

  /** The walk would go on at the list's head. */
  ghost predicate NothingFollows(s: State)
    requires Shaped(s) && s.pc.AtFilter()
  {
    var list := Listed(s, s.pc.v.ch);
    if FilterCheck(s) then NextAfter(list, s.pc.slot).None? else list == []
  }

  /** After a callback, with the channel still running: its filter was stopped and is the list's last, or was
      freed and the list is empty. */
  ghost predicate ResumesAtHead(s: State)
    requires Shaped(s) && s.pc.AtFilter()
  {
    && ChannelCheck(s)
    && (FilterCheck(s) ==> FilterAt(s, s.pc.slot).status != Enabled)
    && NothingFollows(s)
  }

  lemma RejoinStray(t: State)
    requires Shaped(t) && t.pc.AtFilter() && Rejoin(t).Some? && (FilterCheck(t) ==> FilterAt(t, t.pc.slot).Live())
    ensures Rejoin(t).value.stray == t.stray + if NothingFollows(t) then 1 else 0
  {}

  lemma StrayAfterRequest(s: State)
    requires Inv(s) && Shaped(s) && s.pc.Requested?
    ensures RequestedStep(s).stray == s.stray + if ResumesAtHead(s) then 1 else 0
  {
    VisitedSlot(s);
    if ChannelCheck(s) {
      var t := WithSession(s, s.pc.v.ch, Cleared);
      if Rejoin(t).Some? {
        RejoinStray(t);
      }
    }
  }

  lemma StrayAfterUpdate(s: State)
    requires Inv(s) && Shaped(s) && s.pc.Updated?
    ensures UpdatedStep(s).stray == s.stray + if ResumesAtHead(s) then 1 else 0
  {
    VisitedSlot(s);
    if ChannelCheck(s) {
      var t := WithSession(s, s.pc.v.ch, Cleared);
      NotedIsSame(t, s.pc.slot);
      if Rejoin(Noted(t, s.pc.slot)).Some? {
        RejoinStray(Noted(t, s.pc.slot));
      }
    }
  }

  lemma NotedIsSame(t: State, i: nat)
    requires Shaped(t) && t.pc.AtFilter() && t.pc.slot == i
    ensures var n := Noted(t, i);
      && Shaped(n) && n.pc == t.pc && n.dev.sections == t.dev.sections && n.stray == t.stray && SameThreads(t, n)
      && |n.dev.filters| == |t.dev.filters|
      && FilterAt(n, i) == FilterAt(t, i).(halted := FilterAt(n, i).halted)
      && (forall k :: 0 <= k < |t.dev.filters| ==> n.dev.filters[k].late == t.dev.filters[k].late)
  {}

  lemma NoStrayElsewhere(s: State, step: Step)
    requires Possible(s, step) && !step.AfterRequest? && !step.AfterUpdate?
    ensures Take(s, step).stray == s.stray
  {
    if step.ScanOne? {
      ScanFrame(s);
    }
  }

  /** Over all runs, a stamp is written through the head of a list exactly at the step after a callback that
      stopped its filter, the last of the list, or left the list empty, with the channel running. */
  lemma StrayWriteIff(steps: seq<Step>, s: State, step: Step)
    requires Runs(Initial(), steps, s) && Possible(s, step)
    ensures Take(s, step).stray ==
      s.stray + if (step.AfterRequest? || step.AfterUpdate?) && ResumesAtHead(s) then 1 else 0
  {
    InitialInv();
    RunKeepsInv(Initial(), steps, s);
    InvIsShaped(s);
    if step.AfterRequest? {
      StrayAfterRequest(s);
    } else if step.AfterUpdate? {
      StrayAfterUpdate(s);
    } else {
      NoStrayElsewhere(s, step);
    }
  }

  /** After a free call began to wait for a filter, at most one more of its callbacks begins. */
  lemma LateCallbacks(steps: seq<Step>, s: State, i: nat)
    requires Runs(Initial(), steps, s) && i < |s.dev.filters|
    ensures s.dev.filters[i].late <= 1 && (!s.dev.filters[i].waitClose ==> s.dev.filters[i].late == 0)
  {
    InitialInv();
    RunKeepsInv(Initial(), steps, s);
    assert FilterInv(s.pc, i, s.dev.filters[i]);
  }

  lemma LateBySteady(d: Device, e: Device, i: nat)
    requires Steady(d, e) && i < |d.filters|
    ensures e.filters[i].late <= d.filters[i].late
  {
    assert FilterSteady(d.filters[i], e.filters[i]);
  }

  ghost predicate SameLate(s: State, t: State, i: nat) {
    i < |s.dev.filters| && i < |t.dev.filters| && t.dev.filters[i].late == s.dev.filters[i].late
  }

  lemma LateByScan(s: State, i: nat)
    requires Shaped(s) && s.pc.Scan? && i < |s.dev.filters|
    ensures SameLate(s, ScanStep(s), i)
  {
    if s.pc.at.Some? {
      var k, v := s.pc.at.value, s.pc.v;
      var f := FilterAt(s, k);
      var v' := if f.crcCheck then CheckCrc(v) else v;
      if f.status != Enabled || f.access || f.waitClose {
      } else if !Hit(f, v.section) {
        LateByPass(s, v, k, i);
      } else if f.crcCheck && v'.crcWrong {
        LateByPass(s, v', k, i);
      } else if f.hasRequest {
        LateByAsk(s, v', k, i);
      } else {
        LateByDeliver(s, v', k, i);
      }
    }
  }

  lemma LateByPass(s: State, v: Visit, k: nat, i: nat)
    requires k < |s.dev.filters| && i < |s.dev.filters| && v.ch < |s.dev.sections.slots|
    ensures SameLate(s, ScanNext(WithFilter(s, k, FilterAt(s, k).(access := true)), v, k), i)
  {}

  lemma LateByAsk(s: State, v: Visit, k: nat, i: nat)
    requires k < |s.dev.filters| && i < |s.dev.filters| && v.ch < |s.dev.sections.slots| && !FilterAt(s, k).waitClose
    ensures
      var f := FilterAt(s, k);
      var t := WithSession(WithFilter(s, k, Asking(f)), v.ch, Stamped)
        .(pc := Requesting(v, k, f.life), log := s.log + [RequestBegins(k, f.life)]);
      SameLate(s, t, i)
  {}

  lemma LateByDeliver(s: State, v: Visit, k: nat, i: nat)
    requires k < |s.dev.filters| && v.ch < |s.dev.sections.slots| && i < |s.dev.filters|
    requires !FilterAt(s, k).waitClose
    ensures SameLate(s, Deliver(s, v, k, false), i)
  {}

  lemma LateByUpdated(s: State, i: nat)
    requires Shaped(s) && s.pc.Updated? && i < |s.dev.filters|
    ensures SameLate(s, UpdatedStep(s), i)
  {
    if ChannelCheck(s) {
      var t := WithSession(s, s.pc.v.ch, Cleared);
      NotedIsSame(t, s.pc.slot);
      if Rejoin(Noted(t, s.pc.slot)).Some? {
        LateByRejoin(Noted(t, s.pc.slot), i);
      }
    }
  }

  lemma LateByRequested(s: State, i: nat)
    requires Inv(s) && Shaped(s) && s.pc.Requested? && i < |s.dev.filters|
    requires LateGrows(s, RequestedStep(s), i)
    ensures s.pc.slot == i && s.pc.life == s.dev.filters[i].life
    ensures RequestedStep(s).pc == Updating(s.pc.v, i, s.pc.life)
  {
    VisitedSlot(s);
    if ChannelCheck(s) {
      var t := WithSession(s, s.pc.v.ch, Cleared);
      assert t.dev.filters == s.dev.filters;
      if Rejoin(t).Some? {
        LateByRejoin(t, i);
      }
    }
  }

  lemma LateByRejoin(t: State, i: nat)
    requires Shaped(t) && t.pc.AtFilter() && i < |t.dev.filters| && Rejoin(t).Some?
    ensures SameLate(t, Rejoin(t).value, i)
  {}

  lemma LateByTryFree(s: State, t: nat, w: Waiter, i: nat)
    requires Inv(s) && w.slot < |s.dev.filters| && i < |s.dev.filters|
    ensures TryFree(s, t, w).dev.filters[i].late <= s.dev.filters[i].late
  {}

  lemma LateByAct(s: State, t: nat, i: nat)
    requires Possible(s, ControlActs(t)) && i < |s.dev.filters|
    ensures Act(s, t).dev.filters == s.dev.filters
  {}

  ghost predicate LateGrows(s: State, t: State, i: nat) {
    i < |s.dev.filters| && i < |t.dev.filters| && t.dev.filters[i].late > s.dev.filters[i].late
  }

  lemma LateByDispatcher(s: State, step: Step, i: nat)
    requires Possible(s, step) && DispatcherStep(step) && !step.AfterRequest?
    ensures !LateGrows(s, Take(s, step), i)
  {
    if i < |s.dev.filters| {
      match step
      case ScanOne => LateByScan(s, i);
      case AfterUpdate => LateByUpdated(s, i);
      case _ =>
    }
  }

  lemma LateByCall(s: State, call: Call, i: nat)
    requires Inv(s)
    ensures !LateGrows(s, s.(dev := Perform(s.dev, call).0), i)
  {
    if i < |s.dev.filters| {
      CallSteady(s.dev, call);
      LateBySteady(s.dev, Perform(s.dev, call).0, i);
    }
  }

  lemma LateGrowsOnlyAfterRequest(s: State, step: Step, i: nat)
    requires Inv(s) && Possible(s, step) && !step.AfterRequest?
    ensures !LateGrows(s, Take(s, step), i)
  {
    if DispatcherStep(step) {
      LateByDispatcher(s, step, i);
    } else if i < |s.dev.filters| {
      match step
      case ByCallback(call) => LateByCall(s, call, i);
      case ByThread(call) => LateByCall(s, call, i);
      case FreeBegins(t, id) =>
        var r := FindFilter(s.dev.filters, id);
        if r.Some? {
          LateByTryFree(s, t, Waiter(r.value, FilterAt(s, r.value).life), i);
        }
      case FreeRetries(t) => LateByTryFree(s, t, s.waiting[t], i);
      case ControlActs(t) => LateByAct(s, t, i);
      case _ =>
    }
  }

  /** ... and that one is the update paired with a request callback that was already running. */
  lemma LateCallbackIsPairedUpdate(steps: seq<Step>, s: State, step: Step, i: nat)
    requires Runs(Initial(), steps, s) && Possible(s, step) && LateGrows(s, Take(s, step), i)
    ensures step.AfterRequest? && s.pc.slot == i && s.pc.life == s.dev.filters[i].life
    ensures RequestedStep(s).pc == Updating(s.pc.v, i, s.pc.life)
  {
    InitialInv();
    RunKeepsInv(Initial(), steps, s);
    if !step.AfterRequest? {
      LateGrowsOnlyAfterRequest(s, step, i);
    } else {
      LateByRequested(s, i);
    }
  }

  /** Within one dispatch a filter is delivered once, plus once for each time it was found stopped after
      an update and was reached again. */
  lemma DeliveriesPerDispatch(steps: seq<Step>, s: State, i: nat)
    requires Runs(Initial(), steps, s) && i < |s.dev.filters|
    ensures s.dev.filters[i].delivered <= s.dev.filters[i].halted + 1
  {
    InitialInv();
    RunKeepsInv(Initial(), steps, s);
    assert FilterInv(s.pc, i, s.dev.filters[i]);
  }

  /** A filter that since it was enabled was never continuous, and had no update end with its channel stopped,
      was delivered at most once since then. */
  lemma OneShotDeliveries(steps: seq<Step>, s: State, i: nat)
    requires Runs(Initial(), steps, s) && i < |s.dev.filters| && !s.dev.filters[i].escaped
    ensures s.dev.filters[i].shots <= 1 && !s.dev.filters[i].continuous
  {
    InitialInv();
    RunKeepsInv(Initial(), steps, s);
    assert FilterInv(s.pc, i, s.dev.filters[i]);
  }

  /** The escape: after its update an enabled filter is switched off exactly when it is one-shot and its channel
      is running at that moment; a filter that was not freed cannot have lost its channel. */
  lemma OneShotSwitchedOffIff(steps: seq<Step>, s: State)
    requires Runs(Initial(), steps, s) && s.pc.Updated?
    requires s.pc.slot < |s.dev.filters| && s.dev.filters[s.pc.slot].life == s.pc.life
    requires s.dev.filters[s.pc.slot].status == Enabled
    ensures Shaped(s) && s.dev.sections.slots[s.pc.v.ch].life == s.pc.v.chLife
    ensures IsOff(UpdatedStep(s), s.pc.slot) <==>
      s.dev.sections.slots[s.pc.v.ch].status == Enabled && !s.dev.filters[s.pc.slot].continuous
  {
    InitialInv();
    RunKeepsInv(Initial(), steps, s);
    InvIsShaped(s);
    VisitedSlot(s);
    SwitchedOffIff(s);
  }

  /** An update whose filter is still there and enabled is finished, or abandoned with its channel. */
  lemma SwitchedOffIff(s: State)
    requires Shaped(s) && s.pc.Updated? && FilterCheck(s) && FilterAt(s, s.pc.slot).status == Enabled
    ensures IsOff(UpdatedStep(s), s.pc.slot) <==> ChannelCheck(s) && !FilterAt(s, s.pc.slot).continuous
  {
    if ChannelCheck(s) {
      CarriesOn(s);
      FinishStatus(WithSession(s, s.pc.v.ch, Cleared), s.pc.v, s.pc.slot);
    } else {
      AbandonedStatus(s, s.pc.slot, s.pc.life);
    }
  }

  ghost predicate IsOff(u: State, i: nat) {
    i < |u.dev.filters| && u.dev.filters[i].status == Disabled
  }

  lemma CarriesOn(s: State)
    requires Shaped(s) && s.pc.Updated? && ChannelCheck(s) && FilterCheck(s) && FilterAt(s, s.pc.slot).status == Enabled
    ensures UpdatedStep(s) == Finish(WithSession(s, s.pc.v.ch, Cleared), s.pc.v, s.pc.slot)
  {
    var t := WithSession(s, s.pc.v.ch, Cleared);
    assert t.dev.filters == s.dev.filters && Shaped(t);
    assert Noted(t, s.pc.slot) == t;
  }

  lemma FinishStatus(t: State, v: Visit, i: nat)
    requires i < |t.dev.filters| && v.ch < |t.dev.sections.slots| && t.dev.filters[i].status == Enabled
    ensures IsOff(Finish(t, v, i), i) <==> !t.dev.filters[i].continuous
  {}

  lemma AbandonedStatus(s: State, i: nat, life: nat)
    requires i < |s.dev.filters| && s.dev.filters[i].status == Enabled
    ensures !IsOff(Abandoned(s, i, life), i)
  {}
}
