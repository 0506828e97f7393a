/** The machine the scheduler drives: core/timetrack.c running the callbacks of
    core/keyboard.c, core/hwtimer.c and core/events.c, one due check per tick as in
    the decode loop of core/cpu_decode.c. */
module Machine {
  import opened Basics
  import opened Scheduler

  import TimetrackPool
  import PicModel
  import KeyboardModel
  import HwTimerModel
  import EventsModel

  datatype M = M(s: Sched, p: PicModel.Pic, k: KeyboardModel.Kbd, t: HwTimerModel.Timer, e: EventsModel.Events)

  // ----- one event

  function Popped(s: Sched): Sched
    requires s.queue != []
  {
    s.(queue := s.queue[1..])
  }

  /** What a callback does. */
  function Call(m: M, cb: Callback): M
    requires |m.p.irqs| == PicModel.IRQS && |m.t.pit| == 3
  {
    match cb
    case KeyboardTransfer =>
      var (k, p) := KeyboardModel.TransferBuffer(m.k, m.p);
      m.(k := k, p := p)
    case KeyboardEveryMsec =>
      var (k, s) := KeyboardModel.EveryMsec(m.k, m.s);
      m.(s := s, k := k)
    case PitEvent =>
      var (t, s, p) := HwTimerModel.PitEventFires(m.t, m.s, m.p);
      m.(s := s, t := t, p := p)
    case ReplayEvent =>
      var (e, k, s) := EventsModel.ReplayCallback(m.e, m.k, m.s);
      m.(s := s, e := e, k := k)
    case NoCallback => m
  }

  /** One iteration of dp_timetrack_run_events: the callback of the first event runs
      with the event off the queue. */
  function Fire(m: M): M
    requires m.s.queue != [] && |m.p.irqs| == PicModel.IRQS && |m.t.pit| == 3
  {
    Call(m.(s := Popped(m.s)), m.s.queue[0].cb)
  }

  // ----- the invariant of the whole machine

  /** While a file is read its next record is scheduled for exactly its time. */
  ghost predicate ReplayArmed(e: EventsModel.Events, s: Sched) {
    && TimesOf(s.queue, ReplayEvent) == (if e.replayFile.None? then [] else [e.pending.time])
    && (e.replayFile.Some? ==> EventsModel.PlayableOne(e.pending) && EventsModel.Playable(e.replayFile.value))
  }

  ghost predicate Inv(m: M) {
    && PicModel.Nested(m.p)
    && KeyboardModel.Inv(m.k, m.s)
    && HwTimerModel.Inv(m.t, m.s)
    && Count(m.s.queue, KeyboardEveryMsec) == 1
    && Count(m.s.queue, NoCallback) == 0
    && ReplayArmed(m.e, m.s)
    && Calm(m.s)
  }

  /** At most four events are ever queued, so the 512 slots cannot run out. */
  lemma FourEvents(m: M)
    requires Inv(m)
    ensures |m.s.queue| <= 4
  {
    CountsAddUp(m.s.queue);
  }

  lemma OthersKept(s: Sched, s': Sched, cb: Callback, c: Callback)
    requires OnlyChanges(s, s', cb) && c != cb
    ensures Count(s'.queue, c) == Count(s.queue, c)
    ensures TimesOf(s'.queue, c) == TimesOf(s.queue, c)
  {
    OthersCounted(s, s', cb, c);
    OthersTimes(s.queue, cb, c);
    OthersTimes(s'.queue, cb, c);
  }

  /** What a change to the entries of one callback leaves of the invariant. */
  lemma OnlyTransfersKeeps(m: M, s': Sched, k: KeyboardModel.Kbd)
    requires Inv(m) && Roomy(m.s) && KeyboardModel.OnlyTransfers(m.s, s') && KeyboardModel.Inv(k, s')
    ensures Inv(m.(s := s', k := k))
  {
    OthersKept(m.s, s', KeyboardTransfer, KeyboardEveryMsec);
    OthersKept(m.s, s', KeyboardTransfer, PitEvent);
    OthersKept(m.s, s', KeyboardTransfer, ReplayEvent);
    OthersKept(m.s, s', KeyboardTransfer, NoCallback);
  }

  lemma OnlyPitEventsKeeps(m: M, s': Sched, t: HwTimerModel.Timer)
    requires Inv(m) && Roomy(m.s) && HwTimerModel.OnlyPitEvents(m.s, s') && HwTimerModel.Inv(t, s')
    ensures Inv(m.(s := s', t := t))
  {
    OthersKept(m.s, s', PitEvent, KeyboardTransfer);
    OthersKept(m.s, s', PitEvent, KeyboardEveryMsec);
    OthersKept(m.s, s', PitEvent, ReplayEvent);
    OthersKept(m.s, s', PitEvent, NoCallback);
  }

  /** The first event off the queue. */
  lemma PopIsRemove(s: Sched)
    requires s.queue != []
    ensures Popped(s) == RemoveEvent(s, s.queue[0].cb)
    ensures OnlyChanges(s, Popped(s), s.queue[0].cb)
    ensures Count(Popped(s).queue, s.queue[0].cb) == Count(s.queue, s.queue[0].cb) - 1
    ensures TimesOf(s.queue, s.queue[0].cb) == [s.queue[0].time] + TimesOf(Popped(s).queue, s.queue[0].cb)
    ensures Due(s) ==> DueCount(Popped(s).queue, s.ticks) == DueCount(s.queue, s.ticks) - 1
  {
    RemoveChanges(s, s.queue[0].cb);
  }

  // ----- each callback keeps the invariant

  /** The measure that bounds dp_timetrack_run_events: records still to be read,
      then events due. */
  ghost predicate Advances(m: M, m': M) {
    && m'.s.ticks == m.s.ticks
    && if m.s.queue != [] && m.s.queue[0].cb == ReplayEvent
       then FileLeft(m'.e) < FileLeft(m.e)
       else m'.e == m.e && DueCount(m'.s.queue, m.s.ticks) < DueCount(m.s.queue, m.s.ticks)
  }

  function FileLeft(e: EventsModel.Events): nat {
    if e.replayFile.None? then 0 else |e.replayFile.value| + 1
  }

  lemma RaiseKeeps(p: PicModel.Pic, irq: nat)
    requires PicModel.Nested(p) && irq < PicModel.IRQS
    ensures PicModel.Nested(PicModel.Activate(p, irq))
  {
    PicModel.LineKeeps(p, PicModel.Raise(irq));
  }

  lemma FireTransfer(m: M)
    requires Inv(m) && Roomy(m.s) && Due(m.s) && m.s.queue[0].cb == KeyboardTransfer
    ensures Inv(Fire(m)) && Advances(m, Fire(m))
  {
    PopIsRemove(m.s);
    KeyboardModel.TransferKeeps(m.k, m.s, m.p);
    var (k, p) := KeyboardModel.TransferBuffer(m.k, m.p);
    RaiseKeeps(m.p, 1);
    OnlyTransfersKeeps(m, Popped(m.s), k);
  }

  lemma FirePit(m: M)
    requires Inv(m) && Roomy(m.s) && Due(m.s) && m.s.queue[0].cb == PitEvent
    ensures Inv(Fire(m)) && Advances(m, Fire(m))
  {
    hide HwTimerModel.DelayOf, HwTimerModel.Reloaded, PicModel.Activate, Without, Count, TimesOf;
    PopIsRemove(m.s);
    HwTimerModel.PitEventKeeps(m.t, m.s, m.p);
    var (t, s1, p) := HwTimerModel.PitEventFires(m.t, Popped(m.s), m.p);
    RaiseKeeps(m.p, 0);
    OnlyPitEventsKeeps(m, s1, t);
  }

  lemma FireMsec(m: M)
    requires Inv(m) && Roomy(m.s) && Due(m.s) && m.s.queue[0].cb == KeyboardEveryMsec
    ensures Inv(Fire(m)) && Advances(m, Fire(m))
  {
    var s := Popped(m.s);
    PopIsRemove(m.s);
    OthersKept(m.s, s, KeyboardEveryMsec, KeyboardTransfer);
    OthersKept(m.s, s, KeyboardEveryMsec, PitEvent);
    OthersKept(m.s, s, KeyboardEveryMsec, ReplayEvent);
    OthersKept(m.s, s, KeyboardEveryMsec, NoCallback);
    KeyboardModel.RepeatKeyKeeps(m.k, s);
    KeyboardModel.EveryMsecKeeps(m.k, s);
    var (k, s1) := KeyboardModel.RepeatKey(m.k, s);
    MsecQueued(s, s1);
  }

  lemma MsecQueued(s: Sched, s1: Sched)
    requires KeyboardModel.OnlyTransfers(s, s1) && Roomy(s) && Calm(s)
    ensures var s2 := AddEvent(s1, KeyboardEveryMsec, KeyboardModel.KEYBOARD_PTR, KeyboardModel.MSEC);
      && s2.ticks == s.ticks && Calm(s2)
      && DueCount(s2.queue, s.ticks) <= DueCount(s.queue, s.ticks)
      && Count(s2.queue, KeyboardEveryMsec) == Count(s.queue, KeyboardEveryMsec) + 1
      && Count(s2.queue, PitEvent) == Count(s.queue, PitEvent)
      && Count(s2.queue, NoCallback) == Count(s.queue, NoCallback)
      && TimesOf(s2.queue, ReplayEvent) == TimesOf(s.queue, ReplayEvent)
  {
    var s2 := AddEvent(s1, KeyboardEveryMsec, KeyboardModel.KEYBOARD_PTR, KeyboardModel.MSEC);
    AddChanges(s1, KeyboardEveryMsec, KeyboardModel.KEYBOARD_PTR, KeyboardModel.MSEC);
    OthersKept(s, s1, KeyboardTransfer, KeyboardEveryMsec);
    OthersKept(s, s1, KeyboardTransfer, PitEvent);
    OthersKept(s1, s2, KeyboardEveryMsec, PitEvent);
    OthersKept(s, s1, KeyboardTransfer, NoCallback);
    OthersKept(s1, s2, KeyboardEveryMsec, NoCallback);
    OthersKept(s, s1, KeyboardTransfer, ReplayEvent);
    OthersKept(s1, s2, KeyboardEveryMsec, ReplayEvent);
  }

  // ----- replay

  /** Scheduling the record just read leaves the other callbacks alone. */
  lemma ArmReplay(s: Sched, time: nat)
    requires Calm(s) && Count(s.queue, ReplayEvent) == 0 && s.ticks <= time < TWO64
    ensures var s' := AddEvent(s, ReplayEvent, EventsModel.EVENTS_PTR, time - s.ticks);
      && s'.ticks == s.ticks && Calm(s') && TimesOf(s'.queue, ReplayEvent) == [time]
      && Without(s'.queue, ReplayEvent) == Without(s.queue, ReplayEvent)
  {
    hide Insert, Without, TimesOf, Calm;
    var e := Entry(time, ReplayEvent, EventsModel.EVENTS_PTR);
    AddCalm(s, ReplayEvent, EventsModel.EVENTS_PTR, time - s.ticks);
    TimesInsert(s.queue, e, ReplayEvent);
    WithoutOwnInsert(s.queue, e);
  }

  lemma Fits64(rs: seq<EventsModel.Record>, pending: EventsModel.Record, ticks: nat)
    requires EventsModel.Playable(rs)
    ensures var (file, p) := EventsModel.Advance(rs, pending, ticks); file.Some? ==> p.time < TWO64
  {
    EventsModel.AdvanceKeeps(rs, pending, ticks);
  }

  /** dp_events_replay_one_event arms the next record of the file that is not past,
      and leaves exactly the kept records to be injected. */
  lemma ReplayOneArms(e: EventsModel.Events, s: Sched)
    requires Calm(s) && Count(s.queue, ReplayEvent) == 0
    requires e.replayFile.Some? ==> EventsModel.Playable(e.replayFile.value)
    ensures var (e', s') := EventsModel.ReplayOne(e, s);
      && s'.ticks == s.ticks && Calm(s') && ReplayArmed(e', s')
      && Without(s'.queue, ReplayEvent) == Without(s.queue, ReplayEvent)
      && (e.replayFile.Some? ==> FileLeft(e') < FileLeft(e))
      && e'.injected == e.injected
      && EventsModel.Remaining(e') == if e.replayFile.None? then [] else EventsModel.Kept(e.replayFile.value, s.ticks)
  {
    hide EventsModel.Advance, EventsModel.Kept, EventsModel.Playable, EventsModel.PlayableOne, Without, TimesOf, Calm,
      Insert, Count;
    if e.replayFile.Some? {
      EventsModel.AdvanceKeeps(e.replayFile.value, e.pending, s.ticks);
      Fits64(e.replayFile.value, e.pending, s.ticks);
      var (file, pending) := EventsModel.Advance(e.replayFile.value, e.pending, s.ticks);
      if file.Some? {
        ArmReplay(s, pending.time);
      }
    }
  }

  /** Everything injected so far, then everything replay still will inject. */
  function Story(e: EventsModel.Events): seq<EventsModel.Record> {
    e.injected + EventsModel.Remaining(e)
  }

  lemma PendingIsNow(m: M)
    requires ReplayArmed(m.e, m.s) && Calm(m.s) && Due(m.s) && m.s.queue[0].cb == ReplayEvent
    ensures m.e.replayFile.Some? && m.e.pending.time == m.s.ticks
    ensures Count(Popped(m.s).queue, ReplayEvent) == 0
  {
    PopIsRemove(m.s);
    assert TimesOf(m.s.queue, ReplayEvent)[0] == m.s.queue[0].time;
  }

  /** What dp_events_timetrack_cb does to the log and the file: the record it injects
      moves from the future to the past. */
  lemma ReplayStory(e: EventsModel.Events, s: Sched)
    requires e.replayFile.Some? && EventsModel.Playable(e.replayFile.value) && e.pending.time == s.ticks
    requires Calm(s) && Count(s.queue, ReplayEvent) == 0
    ensures var (e2, s2) := EventsModel.ReplayOne(EventsModel.Note(e, s.ticks, e.pending.event), s);
      && s2.ticks == s.ticks && Calm(s2) && ReplayArmed(e2, s2)
      && Without(s2.queue, ReplayEvent) == Without(s.queue, ReplayEvent)
      && FileLeft(e2) < FileLeft(e)
      && Story(e2) == Story(e) && e2.injected == e.injected + [e.pending]
  {
    hide EventsModel.ReplayOne, EventsModel.Kept, EventsModel.Note, Calm, ReplayArmed, Without, EventsModel.Playable;
    var e1 := EventsModel.Note(e, s.ticks, e.pending.event);
    NoteLogs(e, s.ticks);
    ReplayOneArms(e1, s);
    var (e2, s2) := EventsModel.ReplayOne(e1, s);
    assert e.injected + ([e.pending] + EventsModel.Remaining(e2))
        == (e.injected + [e.pending]) + EventsModel.Remaining(e2);
  }

  lemma NoteLogs(e: EventsModel.Events, ticks: nat)
    requires e.pending.time == ticks
    ensures var e1 := EventsModel.Note(e, ticks, e.pending.event);
      && e1.injected == e.injected + [e.pending]
      && e1.replayFile == e.replayFile && e1.pending == e.pending
  {
  }

  /** The replay event fires at exactly the time of the record it carries. */
  lemma FireReplay(m: M)
    requires Inv(m) && Roomy(m.s) && Due(m.s) && m.s.queue[0].cb == ReplayEvent
    ensures m.s.ticks == m.e.pending.time
    ensures Inv(Fire(m)) && Advances(m, Fire(m))
    ensures Story(Fire(m).e) == Story(m.e)
    ensures Fire(m).e.injected == m.e.injected + [m.e.pending]
  {
    hide Call, Count, TimesOf, Without, DueCount, Story, EventsModel.Playable;
    var s := Popped(m.s);
    PendingIsNow(m);
    PopIsRemove(m.s);
    OthersKept(m.s, s, ReplayEvent, KeyboardTransfer);
    OthersKept(m.s, s, ReplayEvent, KeyboardEveryMsec);
    OthersKept(m.s, s, ReplayEvent, PitEvent);
    OthersKept(m.s, s, ReplayEvent, NoCallback);
    CallReplay(m.(s := s));
  }

  /** The replay callback, with its event off the queue. */
  lemma CallReplay(m: M)
    requires KeyboardModel.Inv(m.k, m.s) && Calm(m.s) && Roomy(m.s) && Count(m.s.queue, ReplayEvent) == 0
    requires m.e.replayFile.Some? && EventsModel.Playable(m.e.replayFile.value) && m.e.pending.time == m.s.ticks
    requires |m.p.irqs| == PicModel.IRQS && |m.t.pit| == 3
    ensures var r := Call(m, ReplayEvent);
      && r.p == m.p && r.t == m.t && r.s.ticks == m.s.ticks && Calm(r.s)
      && KeyboardModel.Inv(r.k, r.s) && ReplayArmed(r.e, r.s)
      && Count(r.s.queue, PitEvent) == Count(m.s.queue, PitEvent)
      && Count(r.s.queue, KeyboardEveryMsec) == Count(m.s.queue, KeyboardEveryMsec)
      && Count(r.s.queue, NoCallback) == Count(m.s.queue, NoCallback)
      && FileLeft(r.e) < FileLeft(m.e) && Story(r.e) == Story(m.e)
      && r.e.injected == m.e.injected + [m.e.pending]
  {
    hide EventsModel.InjectNow, EventsModel.ReplayOne, Without, DueCount, Story, EventsModel.Note,
      EventsModel.Playable, TimesOf, Calm;
    InjectKeeps(m.e, m.k, m.s, m.e.pending.event);
    var (e1, k, s1) := EventsModel.InjectNow(m.e, m.k, m.s, m.e.pending.event);
    OthersKept(m.s, s1, KeyboardTransfer, ReplayEvent);
    ReplayStory(m.e, s1);
    var (e2, s2) := EventsModel.ReplayOne(e1, s1);
    ReplayRearmed(m.s, s1, s2);
  }

  lemma InjectKeeps(e: EventsModel.Events, k: KeyboardModel.Kbd, s: Sched, event: EventsModel.UserEvent)
    requires KeyboardModel.Inv(k, s)
    ensures var (e', k', s') := EventsModel.InjectNow(e, k, s, event);
      && KeyboardModel.Inv(k', s') && KeyboardModel.OnlyTransfers(s, s')
      && e' == EventsModel.Note(e, s.ticks, event)
  {
    match event
    case KeyboardEvent(key, isUp) =>
      KeyboardModel.AddKeyKeeps(k, s, key, !isUp);
    case OtherEvent(_) =>
  }

  lemma ReplayRearmed(s: Sched, s1: Sched, s2: Sched)
    requires KeyboardModel.OnlyTransfers(s, s1)
    requires s2.ticks == s1.ticks && Without(s2.queue, ReplayEvent) == Without(s1.queue, ReplayEvent)
    ensures forall c: Callback | c == PitEvent || c == KeyboardEveryMsec || c == NoCallback ::
      Count(s2.queue, c) == Count(s.queue, c)
    ensures Count(s2.queue, KeyboardTransfer) == Count(s1.queue, KeyboardTransfer)
  {
    forall c: Callback | c != ReplayEvent ensures Count(s2.queue, c) == Count(s1.queue, c) {
      WithoutCount(s2.queue, ReplayEvent, c);
      WithoutCount(s1.queue, ReplayEvent, c);
    }
    OthersCounted(s, s1, KeyboardTransfer, PitEvent);
    OthersCounted(s, s1, KeyboardTransfer, KeyboardEveryMsec);
    OthersCounted(s, s1, KeyboardTransfer, NoCallback);
  }

  /** Whatever callback runs, the machine stays consistent and replay loses nothing. */
  lemma FireKeeps(m: M)
    requires Inv(m) && Roomy(m.s) && Due(m.s)
    ensures Inv(Fire(m)) && Advances(m, Fire(m))
    ensures Story(Fire(m).e) == Story(m.e)
    ensures FileLeft(Fire(m).e) <= FileLeft(m.e)
  {
    match m.s.queue[0].cb
    case KeyboardTransfer => FireTransfer(m);
    case KeyboardEveryMsec => FireMsec(m);
    case PitEvent => FirePit(m);
    case ReplayEvent => FireReplay(m);
    case NoCallback =>
  }

  // ----- dp_timetrack_run_events

  /** Runs events until none is due; every record read and every event due now is
      used up on the way, so it ends. */
  function RunEvents(m: M): M
    requires Inv(m) && Roomy(m.s)
    decreases FileLeft(m.e), DueCount(m.s.queue, m.s.ticks)
  {
    if Due(m.s) then
      FireKeeps(m);
      RunEvents(Fire(m))
    else m
  }

  lemma NoEvent(m: M)
    requires Inv(m) && Roomy(m.s) && !Due(m.s)
    ensures RunEvents(m) == m
  {
  }

  lemma NextEvent(m: M)
    requires Inv(m) && Roomy(m.s) && Due(m.s)
    ensures Inv(Fire(m)) && Roomy(Fire(m).s) && RunEvents(Fire(m)) == RunEvents(m)
    ensures FileLeft(Fire(m).e) <= FileLeft(m.e)
    ensures FileLeft(Fire(m).e) == FileLeft(m.e)
      ==> DueCount(Fire(m).s.queue, Fire(m).s.ticks) < DueCount(m.s.queue, m.s.ticks)
  {
    FireKeeps(m);
  }

  /** Log entries from `base` on carry times before t. */
  predicate LoggedBefore(e: EventsModel.Events, base: nat, t: nat) {
    && base <= |e.injected|
    && forall i | base <= i < |e.injected| :: e.injected[i].time < t
  }

  lemma {:induction false} RunEventsKeeps(m: M, base: nat)
    requires Inv(m) && Roomy(m.s) && LoggedBefore(m.e, base, m.s.ticks + 1)
    ensures var m' := RunEvents(m);
      && Inv(m') && !Due(m'.s) && m'.s.ticks == m.s.ticks
      && Story(m'.e) == Story(m.e)
      && LoggedBefore(m'.e, base, m.s.ticks + 1)
    decreases FileLeft(m.e), DueCount(m.s.queue, m.s.ticks)
  {
    if Due(m.s) {
      FireKeeps(m);
      if m.s.queue[0].cb == ReplayEvent {
        FireReplay(m);
      }
      RunEventsKeeps(Fire(m), base);
    }
  }

  // ----- one instruction of the decode loop

  /** What an instruction can do to the devices through the I/O ports. */
  datatype PortOp =
    | ReadPort60
    | WritePort60(val: nat)
    | WritePort64(val: nat)
    | ReadCounter(c: nat)
    | WriteCounter(c: nat, val: nat)
    | WriteControl(val: nat)
    | Gate2(on: bool)
    | PicPort(op: PicModel.PicOp)

  /** Accesses the handlers do not abort on. */
  predicate Enabled(m: M, op: PortOp)
    requires PicModel.WellFormed(m.p)
  {
    match op
    case ReadPort60 => true
    case WritePort60(val) => val < 256 && !m.k.command.CmdSetOutPort?
    case WritePort64(val) => val < 256 && val != 0xd0
    case ReadCounter(c) => c < 3
    case WriteCounter(c, val) => c < 3 && val < 256
    case WriteControl(val) => val < 256
    case Gate2(_) => true
    case PicPort(op) => PicModel.Allowed(m.p, op)
  }

  function Do(m: M, op: PortOp): M
    requires PicModel.WellFormed(m.p) && HwTimerModel.WellFormed(m.t) && Enabled(m, op)
  {
    match op
    case ReadPort60 =>
      var (k, s) := KeyboardModel.ReadP60(m.k, m.s);
      m.(k := k, s := s)
    case WritePort60(val) =>
      var (k, s) := KeyboardModel.WriteP60(m.k, m.s, val);
      m.(k := k, s := s)
    case WritePort64(val) =>
      var (k, s) := KeyboardModel.WriteP64(m.k, m.s, val);
      m.(k := k, s := s)
    case ReadCounter(c) =>
      m.(t := HwTimerModel.ReadLatch(m.t, m.s.ticks, c).0)
    case WriteCounter(c, val) =>
      var (t, s) := HwTimerModel.WriteLatch(m.t, m.s, c, val);
      m.(t := t, s := s)
    case WriteControl(val) =>
      var (t, s, p) := HwTimerModel.WriteP43(m.t, m.s, m.p, val);
      m.(t := t, s := s, p := p)
    case Gate2(on) =>
      m.(t := HwTimerModel.SetGate2(m.t, m.s.ticks, on))
    case PicPort(op) =>
      m.(p := PicModel.Step(m.p, op))
  }

  /** `deliver` stands for the flag test in front of dp_pic_run_irqs. */
  datatype Instruction = Instruction(deliver: bool, ops: seq<PortOp>)

  function Deliver(m: M, deliver: bool): M
    requires PicModel.WellFormed(m.p)
  {
    if deliver then m.(p := PicModel.RunIrqs(m.p)) else m
  }

  function Charge(m: M): M {
    m.(s := m.s.(ticks := (m.s.ticks + 1) % TWO64))
  }

  lemma DoKeepsKeyboard(m: M, op: PortOp)
    requires Inv(m) && Roomy(m.s) && Enabled(m, op) && (op.ReadPort60? || op.WritePort60? || op.WritePort64?)
    ensures Inv(Do(m, op))
  {
    match op
    case ReadPort60 =>
      KeyboardModel.ReadP60Keeps(m.k, m.s);
      var (k, s) := KeyboardModel.ReadP60(m.k, m.s);
      OnlyTransfersKeeps(m, s, k);
    case WritePort60(val) =>
      KeyboardModel.WriteP60Keeps(m.k, m.s, val);
      var (k, s) := KeyboardModel.WriteP60(m.k, m.s, val);
      OnlyTransfersKeeps(m, s, k);
    case WritePort64(val) =>
      KeyboardModel.WriteP64Keeps(m.k, m.s, val);
      var (k, s) := KeyboardModel.WriteP64(m.k, m.s, val);
      OnlyTransfersKeeps(m, s, k);
    case _ =>
  }

  lemma ControlRaises(t: HwTimerModel.Timer, s: Sched, p: PicModel.Pic, val: nat)
    requires HwTimerModel.WellFormed(t) && PicModel.Nested(p) && val < 256
    ensures PicModel.Nested(HwTimerModel.WriteP43(t, s, p, val).2)
  {
    RaiseKeeps(p, 0);
  }

  lemma DoKeepsTimer(m: M, op: PortOp)
    requires Inv(m) && Roomy(m.s) && Enabled(m, op) && (op.ReadCounter? || op.WriteCounter? || op.WriteControl? || op.Gate2?)
    ensures Inv(Do(m, op))
  {
    hide HwTimerModel.ReadLatch, HwTimerModel.WriteLatch, HwTimerModel.WriteP43, HwTimerModel.SetGate2;
    match op
    case ReadCounter(c) =>
      HwTimerModel.ReadLatchKeeps(m.t, m.s, c);
    case WriteCounter(c, val) =>
      HwTimerModel.WriteLatchKeeps(m.t, m.s, c, val);
      var (t, s) := HwTimerModel.WriteLatch(m.t, m.s, c, val);
      OnlyPitEventsKeeps(m, s, t);
    case WriteControl(val) =>
      HwTimerModel.WriteP43Keeps(m.t, m.s, m.p, val);
      ControlRaises(m.t, m.s, m.p, val);
      var (t, s, p) := HwTimerModel.WriteP43(m.t, m.s, m.p, val);
      OnlyPitEventsKeeps(m, s, t);
    case Gate2(on) =>
      HwTimerModel.SetGate2Keeps(m.t, m.s, on);
    case _ =>
  }

  /** Every port access keeps the machine consistent and leaves replay alone. */
  lemma DoKeeps(m: M, op: PortOp)
    requires Inv(m) && Roomy(m.s) && Enabled(m, op)
    ensures Inv(Do(m, op)) && Do(m, op).e == m.e && Do(m, op).s.ticks == m.s.ticks
  {
    if op.PicPort? {
      PicModel.StepNesting(m.p, op.op);
    } else if op.ReadPort60? || op.WritePort60? || op.WritePort64? {
      DoKeepsKeyboard(m, op);
    } else {
      DoKeepsTimer(m, op);
    }
  }

  /** Room on the clock for n more ticks. */
  predicate RoomFor(m: M, n: nat) {
    m.s.ticks + n + LONGEST < TWO64
  }

  /** The port accesses of one instruction, none of which may abort. */
  ghost predicate AllEnabled(m: M, ops: seq<PortOp>)
    requires Inv(m) && Roomy(m.s)
    decreases |ops|
  {
    ops != [] ==> (
      Enabled(m, ops[0])
      && (DoKeeps(m, ops[0]); AllEnabled(Do(m, ops[0]), ops[1..])))
  }

  ghost function DoAll(m: M, ops: seq<PortOp>): (r: M)
    requires Inv(m) && Roomy(m.s) && AllEnabled(m, ops)
    ensures Inv(r) && r.e == m.e && r.s.ticks == m.s.ticks
    decreases |ops|
  {
    if ops == [] then m
    else
      DoKeeps(m, ops[0]);
      DoAll(Do(m, ops[0]), ops[1..])
  }

  /** The due check, and the tick that is charged before the instruction. */
  ghost function Tick(m: M): M
    requires Inv(m) && Roomy(m.s)
  {
    Charge(RunEvents(m))
  }

  lemma QuietAhead(s: Sched)
    requires Calm(s) && !Due(s)
    ensures From(s.queue, s.ticks + 1)
  {
    assert forall i | 0 <= i < |s.queue| :: s.queue[0].time <= s.queue[i].time;
  }

  lemma ChargeKeeps(m: M)
    requires Inv(m) && RoomFor(m, 1) && !Due(m.s)
    ensures Inv(Charge(m)) && Charge(m).s.ticks == m.s.ticks + 1
  {
    hide PicModel.Nested, EventsModel.Playable, HwTimerModel.WellFormed;
    QuietAhead(m.s);
  }

  lemma TickKeeps(m: M, base: nat)
    requires Inv(m) && RoomFor(m, 1) && LoggedBefore(m.e, base, m.s.ticks + 1)
    ensures var m' := Tick(m);
      && Inv(m') && m'.s.ticks == m.s.ticks + 1
      && Story(m'.e) == Story(m.e) && LoggedBefore(m'.e, base, m'.s.ticks)
  {
    RunEventsKeeps(m, base);
    ChargeKeeps(RunEvents(m));
  }

  /** A turn of the decode loop, or a due check of its own as in dospack_loop. */
  datatype Move = Execute(instruction: Instruction) | Poll

  ghost predicate CanMove(m: M, move: Move)
    requires Inv(m) && RoomFor(m, 1)
  {
    match move
    case Poll => true
    case Execute(i) =>
      && (i.deliver ==> PicModel.RotationOff(m.p))
      && (DeliverKeeps(m, i.deliver); TickKeeps(Deliver(m, i.deliver), |m.e.injected|);
          AllEnabled(Tick(Deliver(m, i.deliver)), i.ops))
  }

  lemma DeliverKeeps(m: M, deliver: bool)
    requires Inv(m) && (deliver ==> PicModel.RotationOff(m.p))
    ensures Inv(Deliver(m, deliver)) && Deliver(m, deliver).e == m.e && Deliver(m, deliver).s == m.s
  {
    if deliver {
      PicModel.StepNesting(m.p, PicModel.Dispatch);
    }
  }

  ghost function Moved(m: M, move: Move): M
    requires Inv(m) && RoomFor(m, 1) && CanMove(m, move)
  {
    match move
    case Poll => RunEvents(m)
    case Execute(i) =>
      DeliverKeeps(m, i.deliver);
      TickKeeps(Deliver(m, i.deliver), |m.e.injected|);
      DoAll(Tick(Deliver(m, i.deliver)), i.ops)
  }

  // ----- replay is exact

  /** The first tick whose events have not all run once the move is done. */
  function NextTick(m: M, move: Move): nat {
    if move.Poll? then m.s.ticks + 1 else m.s.ticks
  }

  lemma MoveKeeps(m: M, move: Move, base: nat)
    requires Inv(m) && RoomFor(m, 1) && CanMove(m, move)
    requires LoggedBefore(m.e, base, m.s.ticks + 1)
    ensures var m' := Moved(m, move);
      && Inv(m') && m'.s.ticks == m.s.ticks + (if move.Poll? then 0 else 1)
      && Story(m'.e) == Story(m.e)
      && LoggedBefore(m'.e, base, NextTick(m', move))
      && From(m'.s.queue, NextTick(m', move))
  {
    match move
    case Poll =>
      RunEventsKeeps(m, base);
      ChargeKeeps(RunEvents(m));
    case Execute(i) =>
      DeliverKeeps(m, i.deliver);
      TickKeeps(Deliver(m, i.deliver), base);
  }

  ghost predicate CanRun(m: M, moves: seq<Move>)
    requires Inv(m) && RoomFor(m, |moves|)
    decreases |moves|
  {
    moves != [] ==> (
      CanMove(m, moves[0])
      && (MoveKeeps(m, moves[0], |m.e.injected|); CanRun(Moved(m, moves[0]), moves[1..])))
  }

  ghost function Run(m: M, moves: seq<Move>): M
    requires Inv(m) && RoomFor(m, |moves|) && CanRun(m, moves)
    decreases |moves|
  {
    if moves == [] then m
    else
      MoveKeeps(m, moves[0], |m.e.injected|);
      Run(Moved(m, moves[0]), moves[1..])
  }

  /** The first tick whose events have not all run after the moves. */
  function Horizon(m: M, moves: seq<Move>): nat {
    if moves == [] then m.s.ticks else NextTick(m, moves[|moves| - 1])
  }

  /** Over any run: the machine stays consistent, no record is lost or invented, and
      the log is behind the clock while the queue is ahead of it. */
  lemma {:induction false} RunKeeps(m: M, moves: seq<Move>, base: nat)
    requires Inv(m) && RoomFor(m, |moves|) && CanRun(m, moves) && LoggedBefore(m.e, base, m.s.ticks + 1)
    requires moves == [] ==> LoggedBefore(m.e, base, m.s.ticks)
    ensures var m' := Run(m, moves);
      && Inv(m') && m'.s.ticks <= m.s.ticks + |moves|
      && Story(m'.e) == Story(m.e)
      && LoggedBefore(m'.e, base, Horizon(m', moves))
      && From(m'.s.queue, Horizon(m', moves))
    decreases |moves|
  {
    if moves != [] {
      MoveKeeps(m, moves[0], |m.e.injected|);
      MoveKeeps(m, moves[0], base);
      if |moves| > 1 {
        RunKeeps(Moved(m, moves[0]), moves[1..], base);
      }
    }
  }

  function Before(rs: seq<EventsModel.Record>, t: nat): seq<EventsModel.Record> {
    if rs == [] then []
    else (if rs[0].time < t then [rs[0]] else []) + Before(rs[1..], t)
  }

  lemma {:induction false} BeforeSplit(a: seq<EventsModel.Record>, b: seq<EventsModel.Record>, t: nat)
    requires forall i | 0 <= i < |a| :: a[i].time < t
    requires forall i | 0 <= i < |b| :: b[i].time >= t
    ensures Before(a + b, t) == a
  {
    if a != [] {
      assert (a + b)[1..] == a[1..] + b;
      BeforeSplit(a[1..], b, t);
    } else if b != [] {
      assert a + b == b;
      BeforeSplit(a, b[1..], t);
      assert a + b[1..] == b[1..];
    }
  }

  lemma StartKeeps(m: M, file: seq<EventsModel.Record>)
    requires Inv(m) && m.e.replayFile.None? && EventsModel.Playable(file)
    ensures Inv(Started(m, file)) && Started(m, file).s.ticks == m.s.ticks
    ensures Started(m, file).e.injected == m.e.injected
    ensures EventsModel.Remaining(Started(m, file).e) == EventsModel.Kept(file, m.s.ticks)
  {
    var e := m.e.(replayFile := Some(file));
    ReplayOneArms(e, m.s);
    var (e', s') := EventsModel.ReplayOne(e, m.s);
    forall c: Callback | c != ReplayEvent ensures Count(s'.queue, c) == Count(m.s.queue, c) {
      WithoutCount(s'.queue, ReplayEvent, c);
      WithoutCount(m.s.queue, ReplayEvent, c);
    }
  }

  /** dp_events_start_replay */
  function Started(m: M, file: seq<EventsModel.Record>): M {
    var (e, s) := EventsModel.StartReplay(m.e, m.s, file);
    m.(e := e, s := s)
  }

  lemma RemainingIsAhead(m: M, t: nat)
    requires ReplayArmed(m.e, m.s) && From(m.s.queue, t)
    ensures forall r | r in EventsModel.Remaining(m.e) :: r.time >= t
  {
    if m.e.replayFile.Some? {
      TimesFrom(m.s.queue, ReplayEvent, t);
      assert TimesOf(m.s.queue, ReplayEvent)[0] == m.e.pending.time;
      EventsModel.KeptInOrder(m.e.replayFile.value, m.e.pending.time);
    }
  }

  lemma TimesFrom(q: seq<Entry>, cb: Callback, t: nat)
    requires From(q, t)
    ensures forall i | 0 <= i < |TimesOf(q, cb)| :: TimesOf(q, cb)[i] >= t
  {
    if q != [] {
      TimesFrom(q[1..], cb, t);
    }
  }

  /** Whatever the guest does and however the other callbacks interleave: once a
      replay is started, the log grows by exactly the records of the file that are
      not before the start and whose tick has been run, each once, in the order of
      the file, and each logged at the tick the file gives. */
  lemma ReplayIsExact(m: M, file: seq<EventsModel.Record>, moves: seq<Move>)
    requires Inv(m) && m.e.replayFile.None? && EventsModel.Playable(file)
    requires RoomFor(m, |moves|)
    requires (StartKeeps(m, file); CanRun(Started(m, file), moves))
    ensures var m' := (StartKeeps(m, file); Run(Started(m, file), moves));
      var kept := EventsModel.Kept(file, m.s.ticks);
      && m'.e.injected == m.e.injected + Before(kept, Horizon(m', moves))
      && m'.e.injected + EventsModel.Remaining(m'.e) == m.e.injected + kept
      && (EventsModel.InTimeOrder(file) ==> kept == EventsModel.NotBefore(file, m.s.ticks))
  {
    var m0, base := Started(m, file), |m.e.injected|;
    StartKeeps(m, file);
    RunKeeps(m0, moves, base);
    var m' := Run(m0, moves);
    var kept, rest := EventsModel.Kept(file, m.s.ticks), EventsModel.Remaining(m'.e);
    RemainingIsAhead(m', Horizon(m', moves));
    ReplayedPart(m.e.injected, kept, m'.e.injected, rest, Horizon(m', moves));
    if EventsModel.InTimeOrder(file) {
      EventsModel.SortedFileIsKept(file, m.s.ticks);
    }
  }

  lemma ReplayedPart(log: seq<EventsModel.Record>, kept: seq<EventsModel.Record>,
                     log': seq<EventsModel.Record>, rest: seq<EventsModel.Record>, t: nat)
    requires log' + rest == log + kept && |log| <= |log'|
    requires forall i | |log| <= i < |log'| :: log'[i].time < t
    requires forall r | r in rest :: r.time >= t
    ensures log' == log + Before(kept, t)
  {
    var played := log'[|log|..];
    assert log' == log + played by {
      assert log == (log' + rest)[..|log|];
    }
    assert kept == played + rest by {
      assert kept == (log + kept)[|log|..];
    }
    BeforeSplit(played, rest, t);
  }

  // ----- the objects

  /** The events dp_hwtimer_init and dp_keyboard_init queue. */
  function BootQueue(delay: nat): Sched {
    AddEvent(AddEvent(Sched(0, []), PitEvent, HwTimerModel.HWTIMER_PTR, delay),
             KeyboardEveryMsec, KeyboardModel.KEYBOARD_PTR, KeyboardModel.MSEC)
  }

  lemma BootCounts(delay: nat)
    requires 1 <= delay <= LONGEST
    ensures var s := BootQueue(delay);
      && s.ticks == 0 && Calm(s)
      && Count(s.queue, PitEvent) == 1 && Count(s.queue, KeyboardEveryMsec) == 1
      && Count(s.queue, KeyboardTransfer) == 0 && Count(s.queue, NoCallback) == 0
      && TimesOf(s.queue, ReplayEvent) == []
  {
    var s0 := Sched(0, []);
    var s1, s2 := AddEvent(s0, PitEvent, HwTimerModel.HWTIMER_PTR, delay), BootQueue(delay);
    AddChanges(s0, PitEvent, HwTimerModel.HWTIMER_PTR, delay);
    AddChanges(s1, KeyboardEveryMsec, KeyboardModel.KEYBOARD_PTR, KeyboardModel.MSEC);
    hide Insert, Without;
    OthersKept(s0, s1, PitEvent, KeyboardEveryMsec);
    OthersKept(s0, s1, PitEvent, KeyboardTransfer);
    OthersKept(s0, s1, PitEvent, NoCallback);
    OthersKept(s0, s1, PitEvent, ReplayEvent);
    OthersKept(s1, s2, KeyboardEveryMsec, PitEvent);
    OthersKept(s1, s2, KeyboardEveryMsec, KeyboardTransfer);
    OthersKept(s1, s2, KeyboardEveryMsec, NoCallback);
    OthersKept(s1, s2, KeyboardEveryMsec, ReplayEvent);
  }

  /** The machine as dospack_init leaves it; the controllers as they come. */
  ghost predicate PoweredOn(m: M) {
    && PicModel.Nested(m.p) && m.t == HwTimerModel.BOOT && m.k == KeyboardModel.BOOT
    && m.s == BootQueue(HwTimerModel.BOOT.pit[0].delay) && m.e.replayFile.None?
  }

  lemma BootTimer()
    ensures var t := HwTimerModel.BOOT;
      HwTimerModel.WellFormed(t) && t.pit[0].mode == 3 && !t.pit[0].newMode && !t.pit[2].updateCount
  {
    hide HwTimerModel.DelayOf;
    HwTimerModel.DelayAtLeastTwo(0x10000);
    HwTimerModel.DelayAtLeastTwo(18);
    HwTimerModel.DelayAtLeastTwo(1320);
  }

  /** The machine starts consistent. */
  lemma BootKeeps(m: M)
    requires PoweredOn(m)
    ensures Inv(m)
  {
    BootTimer();
    hide PicModel.Nested, BootQueue, Count, TimesOf, Calm, HwTimerModel.DelayOf;
    assert HwTimerModel.Sound(m.t.pit[0]);
    BootCounts(m.t.pit[0].delay);
  }

  method QueueFirstEvents(tt: TimetrackPool.Timetrack, delay: nat)
    requires tt.Valid() && tt.View() == Sched(0, []) && tt.inFlight == TimetrackPool.NULL_EVENT
    modifies tt, tt.events
    ensures tt.Valid() && tt.View() == BootQueue(delay) && tt.inFlight == TimetrackPool.NULL_EVENT
    ensures tt.ticks == 0
  {
    tt.HasRoom();
    tt.AddEvent(PitEvent, HwTimerModel.HWTIMER_PTR, delay);
    tt.HasRoom();
    tt.AddEvent(KeyboardEveryMsec, KeyboardModel.KEYBOARD_PTR, KeyboardModel.MSEC);
  }

  lemma CallbackReady(m: M)
    requires Inv(m) && Due(m.s)
    ensures m.k.repeat.wait > 0 ==> KeyboardModel.Supported(m.k.repeat.key)
    ensures m.s.queue[0].cb == ReplayEvent ==> EventsModel.Injectable(m.e.pending.event)
  {
    if m.s.queue[0].cb == ReplayEvent {
      PendingIsNow(m);
    }
  }

  lemma SpecialModeOff(m: M)
    requires Inv(m)
    ensures !m.p.specialMode
  {
  }

  lemma ChargedKeeps(m: M)
    requires Inv(m) && RoomFor(m, 1)
    ensures Inv(Tick(m))
  {
    TickKeeps(m, |m.e.injected|);
  }

  class Dospack {
    const timetrack: TimetrackPool.Timetrack
    const pic: PicModel.PicDevice
    const keyboard: KeyboardModel.Keyboard
    const hwtimer: HwTimerModel.HwTimer
    const events: EventsModel.UserEvents

    /** The objects are wired together and hold their own invariants. */
    ghost predicate Wired()
      reads this, timetrack, timetrack.events, pic, pic.irqs, pic.pics, keyboard, keyboard.buffer,
        hwtimer, hwtimer.pit, events
    {
      && keyboard.timetrack == timetrack && keyboard.pic == pic
      && hwtimer.timetrack == timetrack && hwtimer.pic == pic
      && events.timetrack == timetrack && events.keyboard == keyboard
      && timetrack.Valid() && pic.Valid() && keyboard.Valid() && hwtimer.Valid()
    }

    ghost function View(): M
      requires Wired()
      reads this, timetrack, timetrack.events, pic, pic.irqs, pic.pics, keyboard, keyboard.buffer,
        hwtimer, hwtimer.pit, events
    {
      M(timetrack.View(), pic.View(), keyboard.View(), hwtimer.View(), events.View())
    }

    ghost predicate Valid()
      reads this, timetrack, timetrack.events, pic, pic.irqs, pic.pics, keyboard, keyboard.buffer,
        hwtimer, hwtimer.pit, events
    {
      Wired() && timetrack.inFlight == TimetrackPool.NULL_EVENT && Inv(View())
    }

    /** dospack_init for these devices: the timer's first event, then the keyboard's. */
    constructor ()
      ensures Valid() && PoweredOn(View()) && View().e.injected == []
    {
      hide PicModel.Nested, HwTimerModel.DelayOf, HwTimerModel.WellFormed, Inv, PicModel.WellFormed,
        PicModel.Stack, PicModel.Agrees, TimetrackPool.PoolOk, BootQueue;
      var tt := new TimetrackPool.Timetrack();
      var p := new PicModel.PicDevice();
      var t := new HwTimerModel.HwTimer(tt, p);
      QueueFirstEvents(tt, t.pit[0].delay);
      var k := new KeyboardModel.Keyboard(tt, p);
      var e := new EventsModel.UserEvents(k, tt);
      timetrack, pic, keyboard, hwtimer, events := tt, p, k, t, e;
      new;
      BootKeeps(View());
    }

    /** `event->cb(event->cb_data)` */
    method RunCallback(cb: Callback)
      requires Wired() && |timetrack.View().queue| + 3 < TimetrackPool.MAX_EVENTS
      requires cb == KeyboardEveryMsec && keyboard.repeat.wait > 0 ==> KeyboardModel.Supported(keyboard.repeat.key)
      requires cb == ReplayEvent ==> EventsModel.Injectable(events.replayEvent.event)
      modifies timetrack, timetrack.events, pic`irqCheck, pic.irqs, keyboard, keyboard.buffer, hwtimer.pit, events
      ensures Wired() && timetrack.inFlight == old(timetrack.inFlight)
      ensures View() == Call(old(View()), cb)
    {
      hide KeyboardModel.TransferBuffer, KeyboardModel.EveryMsec, HwTimerModel.PitEventFires,
        EventsModel.ReplayCallback, TimetrackPool.PoolOk, PicModel.Agrees, HwTimerModel.Sound,
        KeyboardModel.Ring, PicModel.WellFormed;
      timetrack.HasRoom();
      match cb {
        case KeyboardTransfer => keyboard.TransferByte();
        case KeyboardEveryMsec => keyboard.EveryMillisecond();
        case PitEvent => hwtimer.FirePitEvent();
        case ReplayEvent => events.ReplayEventCallback();
        case NoCallback =>
      }
    }

    /** One iteration of dp_timetrack_run_events. */
    method RunOneEvent()
      requires Valid() && Due(View().s)
      modifies timetrack, timetrack.events, pic`irqCheck, pic.irqs, keyboard, keyboard.buffer, hwtimer.pit, events
      ensures Wired() && timetrack.inFlight == TimetrackPool.NULL_EVENT
      ensures View() == Fire(old(View()))
    {
      hide Call, TimetrackPool.PoolOk, PicModel.Agrees, HwTimerModel.Sound, KeyboardModel.Ring;
      FourEvents(View());
      CallbackReady(View());
      var index, cb, data := timetrack.BeginEvent();
      RunCallback(cb);
      timetrack.FinishEvent(index);
    }

    /** dp_timetrack_run_events */
    method RunDueEvents()
      requires Valid() && Roomy(View().s)
      modifies timetrack, timetrack.events, pic`irqCheck, pic.irqs, keyboard, keyboard.buffer, hwtimer.pit, events
      ensures Valid() && View() == RunEvents(old(View()))
    {
      hide Inv, Fire, RunEvents, FileLeft, DueCount, TimetrackPool.PoolOk, PicModel.Agrees, HwTimerModel.Sound,
        KeyboardModel.Ring;
      var due := timetrack.IsDue();
      while due
        invariant Valid() && Roomy(View().s) && due == Due(View().s)
        invariant RunEvents(View()) == RunEvents(old(View()))
        decreases FileLeft(View().e), DueCount(View().s.queue, View().s.ticks)
      {
        NextEvent(View());
        RunOneEvent();
        due := timetrack.IsDue();
      }
      NoEvent(View());
    }

    /** `if (IF && irq_check) dp_pic_run_irqs` */
    method DeliverInterrupts(interruptFlag: bool)
      requires Valid() && (interruptFlag ==> PicModel.RotationOff(View().p))
      modifies pic, pic.irqs
      ensures Wired() && View() == Deliver(old(View()), interruptFlag)
    {
      hide Inv, TimetrackPool.PoolOk, HwTimerModel.Sound, KeyboardModel.Ring, PicModel.Agrees, PicModel.RunIrqs;
      SpecialModeOff(View());
      if interruptFlag {
        if pic.irqCheck != {} {
          var _ := pic.RunIrqsNow();
        } else {
          PicModel.EmptyMaskSkips(pic.View());
        }
      }
    }

    /** The head of the decode loop: interrupts if the cheap test asks for them, the
        due check, one tick. */
    method StartInstruction(interruptFlag: bool)
      requires Valid() && RoomFor(View(), 1)
      requires interruptFlag ==> PicModel.RotationOff(View().p)
      modifies timetrack, timetrack.events, pic, pic.irqs, keyboard, keyboard.buffer, hwtimer.pit, events
      ensures Valid()
      ensures View() == (DeliverKeeps(old(View()), interruptFlag); Tick(Deliver(old(View()), interruptFlag)))
    {
      hide Inv, RunEvents, Deliver, TimetrackPool.PoolOk, HwTimerModel.Sound, KeyboardModel.Ring, PicModel.Agrees,
        PicModel.Nested, PicModel.RunIrqs;
      ghost var m := View();
      DeliverKeeps(m, interruptFlag);
      DeliverInterrupts(interruptFlag);
      ChargedKeeps(View());
      RunDueEvents();
      timetrack.ChargeTicks(1);
    }
  }
}
