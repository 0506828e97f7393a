/** Two machines that differ in a replay only: no device can tell them apart, and a
    due check with nothing else due injects what the user gave. */
module ReplaySame {
  import opened Basics
  import opened Scheduler
  import opened Machine

  import PicModel
  import KeyboardModel
  import HwTimerModel
  import EventsModel

  // ----- the devices do not see the replay event

  /** The queue as it would be without a replay. */
  function Hide(s: Sched): Sched {
    s.(queue := Without(s.queue, ReplayEvent))
  }

  lemma AddHidden(s: Sched, cb: Callback, data: nat, delay: nat)
    requires Sorted(s.queue) && cb != ReplayEvent
    ensures Hide(AddEvent(s, cb, data, delay)) == AddEvent(Hide(s), cb, data, delay)
    ensures Sorted(AddEvent(s, cb, data, delay).queue)
  {
    var e := Entry((s.ticks + delay) % TWO64, cb, data);
    WithoutInsert(s.queue, e, ReplayEvent);
    var _ := InsertIsStable(s.queue, e);
  }

  lemma RemoveHidden(s: Sched, cb: Callback)
    requires Sorted(s.queue) && cb != ReplayEvent
    ensures Hide(RemoveEvent(s, cb)) == RemoveEvent(Hide(s), cb)
    ensures Sorted(RemoveEvent(s, cb).queue)
  {
    WithoutRemove(s.queue, cb, ReplayEvent);
    RemoveKeepsOrder(s.queue, ByCallback(cb), 0);
  }

  /** A keyboard routine gives the same controller and the same queue but for the
      replay event, whether or not that event is queued. */
  ghost predicate Blind(seen: (KeyboardModel.Kbd, Sched), actual: (KeyboardModel.Kbd, Sched)) {
    seen == (actual.0, Hide(actual.1)) && Sorted(actual.1.queue)
  }

  lemma ScheduleBlind(k: KeyboardModel.Kbd, s: Sched)
    requires Sorted(s.queue)
    ensures Blind(KeyboardModel.Schedule(k, Hide(s)), KeyboardModel.Schedule(k, s))
  {
    AddHidden(s, KeyboardTransfer, KeyboardModel.KEYBOARD_PTR, KeyboardModel.KEYDELAY);
  }

  lemma AddBufferBlind(k: KeyboardModel.Kbd, s: Sched, data: nat)
    requires Sorted(s.queue)
    ensures Blind(KeyboardModel.AddBuffer(k, Hide(s), data), KeyboardModel.AddBuffer(k, s, data))
  {
    ScheduleBlind(k.(ring := k.ring + [data]), s);
  }

  lemma AddKeyBlind(k: KeyboardModel.Kbd, s: Sched, key: KeyboardModel.Key, pressed: bool)
    requires Sorted(s.queue)
    ensures Blind(KeyboardModel.AddKey(k, Hide(s), key, pressed), KeyboardModel.AddKey(k, s, key, pressed))
  {
    hide KeyboardModel.AddBuffer, Hide;
    var up := if pressed then 0 else 0x80;
    var k0 := k.(repeat := KeyboardModel.KeyRepeat(k.repeat, key, pressed));
    match key
    case Pause =>
      AddBufferBlind(k, s, 0xe1);
      var (k1, s1) := KeyboardModel.AddBuffer(k, s, 0xe1);
      AddBufferBlind(k1, s1, 29 + up);
      var (k2, s2) := KeyboardModel.AddBuffer(k1, s1, 29 + up);
      AddBufferBlind(k2, s2, 69 + up);
    case Plain(code) =>
      AddBufferBlind(k0, s, (code + up) % 256);
    case Extended(code) =>
      AddBufferBlind(k0, s, 0xe0);
      var (k1, s1) := KeyboardModel.AddBuffer(k0, s, 0xe0);
      AddBufferBlind(k1, s1, (code + up) % 256);
    case _ =>
  }

  lemma EveryMsecBlind(k: KeyboardModel.Kbd, s: Sched)
    requires Sorted(s.queue)
    ensures Blind(KeyboardModel.EveryMsec(k, Hide(s)), KeyboardModel.EveryMsec(k, s))
  {
    hide KeyboardModel.AddKey;
    if k.repeat.wait > 0 {
      var k0 := k.(repeat := k.repeat.(wait := k.repeat.wait - 1));
      AddKeyBlind(k0, s, k0.repeat.key, true);
    }
    AddHidden(KeyboardModel.RepeatKey(k, s).1, KeyboardEveryMsec, KeyboardModel.KEYBOARD_PTR, KeyboardModel.MSEC);
  }

  lemma ClearThenAckBlind(k: KeyboardModel.Kbd, s: Sched)
    requires Sorted(s.queue)
    ensures Blind(KeyboardModel.ClearThenAck(k, Hide(s)), KeyboardModel.ClearThenAck(k, s))
  {
    hide KeyboardModel.AddBuffer;
    RemoveHidden(s, KeyboardTransfer);
    var (k1, s1) := KeyboardModel.ClearBuffer(k, s);
    AddBufferBlind(k1, s1, KeyboardModel.ACK);
  }

  lemma WriteP60Blind(k: KeyboardModel.Kbd, s: Sched, val: nat)
    requires Sorted(s.queue) && val < 256
    ensures Blind(KeyboardModel.WriteP60(k, Hide(s), val), KeyboardModel.WriteP60(k, s, val))
  {
    hide KeyboardModel.ClearThenAck;
    match k.command
    case CmdNone =>
      var command := if val == 0xed then KeyboardModel.CmdSetLeds else if val == 0xf3 then KeyboardModel.CmdSetTypeRate else KeyboardModel.CmdNone;
      var scanning := if val == 0xf4 then true else if val == 0xf5 || val == 0xf6 then false else k.scanning;
      ClearThenAckBlind(k.(command := command, scanning := scanning), s);
    case CmdSetOutPort =>
    case CmdSetTypeRate =>
      ClearThenAckBlind(k.(repeat := KeyboardModel.TypeRate(k.repeat, val), command := KeyboardModel.CmdNone), s);
    case CmdSetLeds =>
      ClearThenAckBlind(k.(command := KeyboardModel.CmdNone), s);
  }

  lemma ReadP60Blind(k: KeyboardModel.Kbd, s: Sched)
    requires Sorted(s.queue)
    ensures Blind(KeyboardModel.ReadP60(k, Hide(s)), KeyboardModel.ReadP60(k, s))
  {
    ScheduleBlind(k.(p60changed := false), s);
  }

  lemma WriteP64Blind(k: KeyboardModel.Kbd, s: Sched, val: nat)
    requires Sorted(s.queue)
    ensures Blind(KeyboardModel.WriteP64(k, Hide(s), val), KeyboardModel.WriteP64(k, s, val))
  {
    ScheduleBlind(k.(active := true), s);
  }

  lemma PitEventBlind(t: HwTimerModel.Timer, s: Sched, p: PicModel.Pic)
    requires Sorted(s.queue) && HwTimerModel.WellFormed(t) && |p.irqs| == PicModel.IRQS
    ensures var (t1, s1, p1) := HwTimerModel.PitEventFires(t, s, p);
      HwTimerModel.PitEventFires(t, Hide(s), p) == (t1, Hide(s1), p1)
  {
    hide HwTimerModel.DelayOf, Without;
    AddHidden(s, PitEvent, HwTimerModel.HWTIMER_PTR, HwTimerModel.Reloaded(t.pit[0]).delay);
  }

  lemma LoadSchedBlind(p: HwTimerModel.Pit, c: nat, s: Sched)
    requires Sorted(s.queue)
    ensures HwTimerModel.LoadSched(p, c, Hide(s)) == Hide(HwTimerModel.LoadSched(p, c, s))
  {
    hide HwTimerModel.DelayOf;
    var delay := HwTimerModel.DelayOf(HwTimerModel.Loaded(p));
    RemoveHidden(s, PitEvent);
    AddHidden(s, PitEvent, HwTimerModel.HWTIMER_PTR, delay);
    AddHidden(RemoveEvent(s, PitEvent), PitEvent, HwTimerModel.HWTIMER_PTR, delay);
  }

  lemma WriteLatchBlind(t: HwTimerModel.Timer, s: Sched, c: nat, val: nat)
    requires Sorted(s.queue) && HwTimerModel.WellFormed(t) && c < 3 && val < 256
    ensures var (t1, s1) := HwTimerModel.WriteLatch(t, s, c, val);
      HwTimerModel.WriteLatch(t, Hide(s), c, val) == (t1, Hide(s1))
  {
    hide HwTimerModel.LoadSched, HwTimerModel.LoadPit, HwTimerModel.Latched;
    LoadSchedBlind(HwTimerModel.Latched(t.pit[c], val), c, s);
  }

  lemma WriteP43Blind(t: HwTimerModel.Timer, s: Sched, p: PicModel.Pic, val: nat)
    requires Sorted(s.queue) && HwTimerModel.WellFormed(t) && |p.irqs| == PicModel.IRQS && val < 256
    ensures var (t1, s1, p1) := HwTimerModel.WriteP43(t, s, p, val);
      HwTimerModel.WriteP43(t, Hide(s), p, val) == (t1, Hide(s1), p1)
  {
    hide HwTimerModel.CounterLatch, HwTimerModel.RaisesIrq0, HwTimerModel.LatchSome, HwTimerModel.StatusSome,
      HwTimerModel.Reprogrammed;
    RemoveHidden(s, PitEvent);
  }

  // ----- machines that differ in their replay only

  /** r is m with a replay under way: the same but for the replay event and file. */
  ghost predicate Same(m: M, r: M) {
    && m.s == Hide(r.s) && m.p == r.p && m.k == r.k && m.t == r.t
    && m.e.eventIndex == r.e.eventIndex && m.e.pressed == r.e.pressed
  }

  lemma DoSame(m: M, r: M, op: PortOp)
    requires Inv(m) && Inv(r) && Same(m, r) && Enabled(m, op)
    ensures Enabled(r, op) && Same(Do(m, op), Do(r, op))
  {
    hide KeyboardModel.ReadP60, KeyboardModel.WriteP60, KeyboardModel.WriteP64, HwTimerModel.ReadLatch,
      HwTimerModel.WriteLatch, HwTimerModel.WriteP43, HwTimerModel.SetGate2, PicModel.Step, PicModel.Allowed,
      Without;
    match op
    case ReadPort60 => ReadP60Blind(r.k, r.s);
    case WritePort60(val) => WriteP60Blind(r.k, r.s, val);
    case WritePort64(val) => WriteP64Blind(r.k, r.s, val);
    case WriteCounter(c, val) => WriteLatchBlind(r.t, r.s, c, val);
    case WriteControl(val) => WriteP43Blind(r.t, r.s, r.p, val);
    case _ =>
  }

  /** A callback other than the replay's does the same to both. */
  lemma CallSame(m: M, r: M, cb: Callback)
    requires Same(m, r) && cb != ReplayEvent && Sorted(r.s.queue)
    requires |m.p.irqs| == PicModel.IRQS && HwTimerModel.WellFormed(m.t)
    ensures Same(Call(m, cb), Call(r, cb))
    ensures Call(m, cb).e == m.e && Call(r, cb).e == r.e
  {
    hide KeyboardModel.EveryMsec, KeyboardModel.TransferBuffer, HwTimerModel.PitEventFires, Without,
      EventsModel.ReplayCallback;
    match cb
    case KeyboardEveryMsec => EveryMsecBlind(r.k, r.s);
    case PitEvent => PitEventBlind(r.t, r.s, r.p);
    case _ =>
  }

  lemma InjectSame(m: M, r: M, event: EventsModel.UserEvent)
    requires Same(m, r) && Sorted(r.s.queue)
    ensures Same(Injected(m, event), Injected(r, event)) && Sorted(Injected(r, event).s.queue)
  {
    hide KeyboardModel.AddKey, Without;
    match event
    case KeyboardEvent(key, isUp) => AddKeyBlind(r.k, r.s, key, !isUp);
    case OtherEvent(_) =>
  }

  /** A user event handed to dp_events_inject_now. */
  function Injected(m: M, event: EventsModel.UserEvent): M {
    var (e, k, s) := EventsModel.InjectNow(m.e, m.k, m.s, event);
    m.(e := e, k := k, s := s)
  }

  // ----- due checks

  /** No record is to be injected by tick t. */
  predicate Ahead(e: EventsModel.Events, t: nat) {
    e.replayFile.Some? ==> e.pending.time > t
  }

  lemma FireSame(m: M, r: M)
    requires Inv(m) && Inv(r) && Same(m, r) && Due(r.s) && r.s.queue[0].cb != ReplayEvent
    ensures Due(m.s) && m.s.queue[0] == r.s.queue[0] && m.s.queue[0].cb != ReplayEvent
    ensures Same(Fire(m), Fire(r)) && Fire(m).e == m.e && Fire(r).e == r.e
  {
    hide Call, OnlyChanges;
    PopIsRemove(r.s);
    RemoveKeepsOrder(r.s.queue, ByCallback(r.s.queue[0].cb), 0);
    CallSame(m.(s := Popped(m.s)), r.(s := Popped(r.s)), r.s.queue[0].cb);
  }

  lemma AheadIsLater(r: M)
    requires Inv(r) && Due(r.s) && Ahead(r.e, r.s.ticks)
    ensures r.s.queue[0].cb != ReplayEvent
  {
    if r.s.queue[0].cb == ReplayEvent {
      PendingIsNow(r);
    }
  }

  lemma QuietSame(m: M, r: M)
    requires Same(m, r) && Calm(r.s) && !Due(r.s)
    ensures !Due(m.s)
  {
    QuietAhead(r.s);
    WithoutSorted(r.s.queue, ReplayEvent, r.s.ticks + 1);
  }

  /** A due check with no record due does the same to both machines. */
  lemma {:induction false} RunEventsSame(m: M, r: M)
    requires Inv(m) && Inv(r) && Same(m, r) && Roomy(m.s) && Ahead(r.e, r.s.ticks)
    ensures Same(RunEvents(m), RunEvents(r)) && RunEvents(m).e == m.e && RunEvents(r).e == r.e
    decreases FileLeft(r.e), DueCount(r.s.queue, r.s.ticks)
  {
    if Due(r.s) {
      AheadIsLater(r);
      FireSame(m, r);
      FireKeeps(m);
      FireKeeps(r);
      RunEventsSame(Fire(m), Fire(r));
    } else {
      QuietSame(m, r);
    }
  }

  // ----- inputs

  /** The records a recording makes of inputs at tick t. */
  function Stamped(inputs: seq<EventsModel.UserEvent>, t: nat): seq<EventsModel.Record> {
    seq(|inputs|, i requires 0 <= i < |inputs| => EventsModel.Record(t, inputs[i]))
  }

  function InjectAll(m: M, inputs: seq<EventsModel.UserEvent>): M
    decreases |inputs|
  {
    if inputs == [] then m else InjectAll(Injected(m, inputs[0]), inputs[1..])
  }

  lemma InjectedKeeps(m: M, event: EventsModel.UserEvent)
    requires Inv(m) && Roomy(m.s) && m.e.replayFile.None?
    ensures Inv(Injected(m, event)) && Injected(m, event).s.ticks == m.s.ticks
    ensures Injected(m, event).e == EventsModel.Note(m.e, m.s.ticks, event)
    ensures Injected(m, event).e.replayFile.None?
    ensures !Due(m.s) ==> !Due(Injected(m, event).s)
  {
    hide EventsModel.InjectNow;
    InjectKeeps(m.e, m.k, m.s, event);
    var (e, k, s) := EventsModel.InjectNow(m.e, m.k, m.s, event);
    OnlyTransfersKeeps(m, s, k);
    DueIsCount(m.s);
    DueIsCount(s);
  }

  lemma DueIsCount(s: Sched)
    requires Sorted(s.queue)
    ensures Due(s) <==> DueCount(s.queue, s.ticks) > 0
  {
    if s.queue != [] && s.queue[0].time > s.ticks {
      NoneDue(s.queue, s.ticks);
    }
  }

  lemma NoneDue(q: seq<Entry>, t: nat)
    requires forall i | 0 <= i < |q| :: q[i].time > t
    ensures DueCount(q, t) == 0
  {
    if q != [] {
      NoneDue(q[1..], t);
    }
  }

  /** rs was added to the log, and to the record file if there is one. */
  ghost predicate Logged(e: EventsModel.Events, e': EventsModel.Events, rs: seq<EventsModel.Record>) {
    && e'.injected == e.injected + rs
    && e'.recordFile == if e.recordFile.Some? then Some(e.recordFile.value + rs) else None
  }

  lemma LoggedThen(e: EventsModel.Events, e1: EventsModel.Events, e2: EventsModel.Events,
                   rs: seq<EventsModel.Record>, rs2: seq<EventsModel.Record>)
    requires Logged(e, e1, rs) && Logged(e1, e2, rs2)
    ensures Logged(e, e2, rs + rs2)
  {
    assert e.injected + (rs + rs2) == (e.injected + rs) + rs2;
    if e.recordFile.Some? {
      assert e.recordFile.value + (rs + rs2) == (e.recordFile.value + rs) + rs2;
    }
  }

  lemma LoggedNothing(e: EventsModel.Events, rs: seq<EventsModel.Record>)
    requires rs == []
    ensures Logged(e, e, rs)
  {
    if e.recordFile.Some? {
      assert e.recordFile.value + rs == e.recordFile.value;
    }
  }

  lemma StampedFirst(inputs: seq<EventsModel.UserEvent>, t: nat)
    requires inputs != []
    ensures Stamped(inputs, t) == [EventsModel.Record(t, inputs[0])] + Stamped(inputs[1..], t)
  {
  }

  lemma {:induction false} InjectAllKeeps(m: M, inputs: seq<EventsModel.UserEvent>)
    requires Inv(m) && Roomy(m.s) && m.e.replayFile.None?
    ensures var m' := InjectAll(m, inputs);
      && Inv(m') && m'.s.ticks == m.s.ticks && m'.e.replayFile.None?
      && Logged(m.e, m'.e, Stamped(inputs, m.s.ticks))
      && (!Due(m.s) ==> !Due(m'.s))
    decreases |inputs|
  {
    if inputs == [] {
      LoggedNothing(m.e, Stamped(inputs, m.s.ticks));
    } else {
      var m1 := Injected(m, inputs[0]);
      InjectedKeeps(m, inputs[0]);
      InjectAllKeeps(m1, inputs[1..]);
      StampedFirst(inputs, m.s.ticks);
      LoggedThen(m.e, m1.e, InjectAll(m1, inputs[1..]).e,
                 [EventsModel.Record(m.s.ticks, inputs[0])], Stamped(inputs[1..], m.s.ticks));
    }
  }

  /** Everything in rs lies after tick t. */
  predicate After(rs: seq<EventsModel.Record>, t: nat) {
    forall i | 0 <= i < |rs| :: rs[i].time > t
  }

  /** With nothing else due, the due check of the replaying machine injects exactly
      the inputs the user gave at this tick, and both machines agree again. */
  lemma {:induction false} ReplayInjects(m: M, r: M, inputs: seq<EventsModel.UserEvent>, later: seq<EventsModel.Record>)
    requires Inv(m) && Inv(r) && Same(m, r) && Roomy(m.s) && m.e.replayFile.None? && !Due(m.s)
    requires EventsModel.Remaining(r.e) == Stamped(inputs, m.s.ticks) + later && After(later, m.s.ticks)
    ensures Same(InjectAll(m, inputs), RunEvents(r)) && Inv(RunEvents(r)) && !Due(RunEvents(r).s)
    ensures EventsModel.Remaining(RunEvents(r).e) == later
    ensures RunEvents(r).e.injected == r.e.injected + Stamped(inputs, m.s.ticks)
    decreases |inputs|
  {
    hide RunEvents, InjectAll, Injected, Fire, Stamped, After, EventsModel.Remaining, Same, Inv, Due, EventsModel.Note;
    if inputs == [] {
      ReplayInjectsNone(m, r, inputs, later);
    } else {
      var x, rest := EventsModel.Record(m.s.ticks, inputs[0]), Stamped(inputs[1..], m.s.ticks);
      StampedFirst(inputs, m.s.ticks);
      assert ([x] + rest) + later == [x] + (rest + later);
      ReplayInjectsOne(m, r, inputs[0], rest + later);
      InjectedKeeps(m, inputs[0]);
      ReplayInjects(Injected(m, inputs[0]), Fire(r), inputs[1..], later);
      assert (r.e.injected + [x]) + rest == r.e.injected + ([x] + rest);
      InjectAllFirst(m, inputs);
    }
  }

  lemma ReplayInjectsNone(m: M, r: M, inputs: seq<EventsModel.UserEvent>, later: seq<EventsModel.Record>)
    requires Inv(m) && Inv(r) && Same(m, r) && Roomy(m.s) && !Due(m.s) && inputs == []
    requires EventsModel.Remaining(r.e) == Stamped(inputs, m.s.ticks) + later && After(later, m.s.ticks)
    ensures InjectAll(m, inputs) == m && RunEvents(r) == r && !Due(r.s)
    ensures EventsModel.Remaining(r.e) == later && r.e.injected == r.e.injected + Stamped(inputs, m.s.ticks)
  {
    assert Stamped(inputs, m.s.ticks) + later == later;
    NothingToReplay(m, r, later);
  }

  lemma InjectAllFirst(m: M, inputs: seq<EventsModel.UserEvent>)
    requires inputs != []
    ensures InjectAll(m, inputs) == InjectAll(Injected(m, inputs[0]), inputs[1..])
  {
  }

  lemma NothingToReplay(m: M, r: M, later: seq<EventsModel.Record>)
    requires Inv(m) && Inv(r) && Same(m, r) && !Due(m.s)
    requires EventsModel.Remaining(r.e) == later && After(later, m.s.ticks)
    ensures !Due(r.s)
  {
    if r.e.replayFile.Some? {
      assert later[0] == r.e.pending;
    }
    if Due(r.s) {
      AheadIsLater(r);
      FireSame(m, r);
    }
  }

  lemma SameTail<T>(a: seq<T>, x: T, b: seq<T>, c: seq<T>)
    requires (a + [x]) + b == a + ([x] + c)
    ensures b == c
  {
    assert b == ((a + [x]) + b)[|a| + 1..];
    assert c == (a + ([x] + c))[|a| + 1..];
  }

  lemma ReplayIsFirst(m: M, r: M)
    requires Inv(m) && Inv(r) && Same(m, r) && !Due(m.s)
    requires r.e.replayFile.Some? && r.e.pending.time == r.s.ticks
    ensures Due(r.s) && r.s.queue[0].cb == ReplayEvent
  {
    assert TimesOf(r.s.queue, ReplayEvent)[0] == r.e.pending.time;
    if !Due(r.s) {
      QuietAhead(r.s);
      TimesFrom(r.s.queue, ReplayEvent, r.s.ticks + 1);
    }
  }

  lemma ReplayOneHidden(e: EventsModel.Events, s: Sched)
    ensures var (e', s') := EventsModel.ReplayOne(e, s);
      Hide(s') == Hide(s) && e'.eventIndex == e.eventIndex && e'.pressed == e.pressed
  {
    if e.replayFile.Some? {
      var (file, pending) := EventsModel.Advance(e.replayFile.value, e.pending, s.ticks);
      if pending.time >= s.ticks {
        WithoutOwnInsert(s.queue, Entry((s.ticks + (pending.time - s.ticks)) % TWO64, ReplayEvent, EventsModel.EVENTS_PTR));
      }
    }
  }

  lemma InjectsSame(m: M, r: M)
    requires Same(m, r) && Sorted(r.s.queue) && |r.p.irqs| == PicModel.IRQS && |r.t.pit| == 3
    requires r.s.queue != [] && r.s.queue[0].cb == ReplayEvent
    ensures Same(Injected(m, r.e.pending.event), Fire(r))
  {
    hide EventsModel.InjectNow, EventsModel.ReplayOne;
    var r1 := r.(s := Popped(r.s));
    InjectSame(m, r1, r.e.pending.event);
    var r2 := Injected(r1, r.e.pending.event);
    ReplayOneHidden(r2.e, r2.s);
  }

  /** The next record of the file is injected as the user's input was. */
  lemma ReplayInjectsOne(m: M, r: M, input: EventsModel.UserEvent, later: seq<EventsModel.Record>)
    requires Inv(m) && Inv(r) && Same(m, r) && Roomy(m.s) && !Due(m.s)
    requires EventsModel.Remaining(r.e) == [EventsModel.Record(m.s.ticks, input)] + later
    ensures r.s.queue != [] && |r.p.irqs| == PicModel.IRQS && |r.t.pit| == 3 && Roomy(r.s)
    ensures Inv(Fire(r)) && Same(Injected(m, input), Fire(r))
    ensures Roomy(Fire(r).s) && RunEvents(Fire(r)) == RunEvents(r)
    ensures EventsModel.Remaining(Fire(r).e) == later
    ensures Fire(r).e.injected == r.e.injected + [EventsModel.Record(m.s.ticks, input)]
  {
    var x := EventsModel.Record(m.s.ticks, input);
    assert ([x] + later)[0] == r.e.pending;
    ReplayIsFirst(m, r);
    FireReplay(r);
    SameTail(r.e.injected, x, EventsModel.Remaining(Fire(r).e), later);
    InjectsSame(m, r);
    NextEvent(r);
  }
}
