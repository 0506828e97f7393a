/** The machine's events fire in the order of time and, at one tick, in the order in
    which its own routines scheduled them: beside each routine stand the scheduler calls
    it makes, and a run of the machine is the run of exactly these calls. */
module MachineOrder {
  import opened Basics
  import opened Scheduler
  import opened SchedulerOrder
  import opened Machine

  import PicModel
  import KeyboardModel
  import HwTimerModel
  import EventsModel

  // ----- the calls each routine makes

  const TRANSFER_CALL := Schedule(KeyboardTransfer, KeyboardModel.KEYBOARD_PTR, KeyboardModel.KEYDELAY)
  const MSEC_CALL := Schedule(KeyboardEveryMsec, KeyboardModel.KEYBOARD_PTR, KeyboardModel.MSEC)

  /** A transfer is started. */
  function TransferOps(starts: bool): seq<Op> {
    if starts then [TRANSFER_CALL] else []
  }

  function AddBufferOps(k: KeyboardModel.Kbd): seq<Op> {
    TransferOps(|k.ring| < KeyboardModel.KEYBUFSIZE && !k.scheduled && !k.p60changed)
  }

  function ReadP60Ops(k: KeyboardModel.Kbd): seq<Op> {
    TransferOps(!k.scheduled && k.ring != [])
  }

  function WriteP60Ops(k: KeyboardModel.Kbd): seq<Op> {
    if k.command.CmdSetOutPort? then []
    else [Cancel(KeyboardTransfer)] + TransferOps(!k.p60changed)
  }

  function WriteP64Ops(k: KeyboardModel.Kbd, val: nat): seq<Op> {
    TransferOps(val == 0xae && k.ring != [] && !k.scheduled && !k.p60changed)
  }

  /** Only the first byte of a key can start a transfer. */
  function AddKeyOps(k: KeyboardModel.Kbd, key: KeyboardModel.Key): seq<Op> {
    if key.Pause? || key.Plain? || key.Extended? then AddBufferOps(k) else []
  }

  function EveryMsecOps(k: KeyboardModel.Kbd): seq<Op> {
    (if k.repeat.wait == 1 then AddKeyOps(k, k.repeat.key) else []) + [MSEC_CALL]
  }

  function TimerCall(delay: nat): Op {
    Schedule(PitEvent, HwTimerModel.HWTIMER_PTR, delay)
  }

  function PitEventOps(t: HwTimerModel.Timer): seq<Op>
    requires |t.pit| == 3
  {
    if t.pit[0].mode == 0 then [] else [TimerCall(HwTimerModel.Reloaded(t.pit[0]).delay)]
  }

  function WriteLatchOps(t: HwTimerModel.Timer, c: nat, val: nat): seq<Op>
    requires |t.pit| == 3 && c < 3 && t.pit[c].writeLatch < 0x10000 && val < 256
  {
    var p := HwTimerModel.Latched(t.pit[c], val);
    if p.writeState == 0 || c != 0 || (!p.newMode && p.mode != 0) then []
    else (if p.mode == 0 then [Cancel(PitEvent)] else []) + [TimerCall(HwTimerModel.DelayOf(HwTimerModel.Loaded(p)))]
  }

  function WriteP43Ops(val: nat): seq<Op> {
    if val / 64 == 0 && val / 16 % 4 != 0 then [Cancel(PitEvent)] else []
  }

  function InjectOps(k: KeyboardModel.Kbd, event: EventsModel.UserEvent): seq<Op> {
    match event
    case KeyboardEvent(key, _) => AddKeyOps(k, key)
    case OtherEvent(_) => []
  }

  function ReplayOneOps(e: EventsModel.Events, ticks: nat): seq<Op> {
    if e.replayFile.None? then []
    else
      var (file, pending) := EventsModel.Advance(e.replayFile.value, e.pending, ticks);
      if file.None? || pending.time < ticks then []
      else [Schedule(ReplayEvent, EventsModel.EVENTS_PTR, pending.time - ticks)]
  }

  function ReplayCallbackOps(e: EventsModel.Events, k: KeyboardModel.Kbd, ticks: nat): seq<Op> {
    InjectOps(k, e.pending.event) + ReplayOneOps(e, ticks)
  }

  function CallbackOps(m: M, cb: Callback): seq<Op>
    requires |m.t.pit| == 3
  {
    match cb
    case KeyboardTransfer => []
    case KeyboardEveryMsec => EveryMsecOps(m.k)
    case PitEvent => PitEventOps(m.t)
    case ReplayEvent => ReplayCallbackOps(m.e, m.k, m.s.ticks)
    case NoCallback => []
  }

  function PortOps(m: M, op: PortOp): seq<Op>
    requires PicModel.WellFormed(m.p) && HwTimerModel.WellFormed(m.t) && Enabled(m, op)
  {
    match op
    case ReadPort60 => ReadP60Ops(m.k)
    case WritePort60(_) => WriteP60Ops(m.k)
    case WritePort64(val) => WriteP64Ops(m.k, val)
    case WriteCounter(c, val) => WriteLatchOps(m.t, c, val)
    case WriteControl(val) => WriteP43Ops(val)
    case ReadCounter(_) => []
    case Gate2(_) => []
    case PicPort(_) => []
  }

  /** The calls of one due check: an event is taken off, its callback calls, and so on. */
  ghost function DueOps(m: M): seq<Op>
    requires Inv(m) && Roomy(m.s)
    decreases FileLeft(m.e), DueCount(m.s.queue, m.s.ticks)
  {
    if Due(m.s) then
      FireKeeps(m);
      ([RunOne] + CallbackOps(m, m.s.queue[0].cb)) + DueOps(Fire(m))
    else []
  }

  ghost function AllPortOps(m: M, ops: seq<PortOp>): seq<Op>
    requires Inv(m) && Roomy(m.s) && AllEnabled(m, ops)
    decreases |ops|
  {
    if ops == [] then []
    else
      DoKeeps(m, ops[0]);
      PortOps(m, ops[0]) + AllPortOps(Do(m, ops[0]), ops[1..])
  }

  ghost function MoveOps(m: M, move: Move): seq<Op>
    requires Inv(m) && RoomFor(m, 1) && CanMove(m, move)
  {
    match move
    case Poll => DueOps(m)
    case Execute(i) =>
      DeliverKeeps(m, i.deliver);
      TickKeeps(Deliver(m, i.deliver), |m.e.injected|);
      (DueOps(Deliver(m, i.deliver)) + [SchedulerOrder.Charge(1)]) + AllPortOps(Tick(Deliver(m, i.deliver)), i.ops)
  }

  ghost function OpsOfRun(m: M, moves: seq<Move>): seq<Op>
    requires Inv(m) && RoomFor(m, |moves|) && CanRun(m, moves)
    decreases |moves|
  {
    if moves == [] then []
    else
      MoveKeeps(m, moves[0], |m.e.injected|);
      MoveOps(m, moves[0]) + OpsOfRun(Moved(m, moves[0]), moves[1..])
  }

  /** dp_hwtimer_init and dp_keyboard_init */
  const BOOT_OPS: seq<Op> := [TimerCall(HwTimerModel.BOOT.pit[0].delay), MSEC_CALL]

  // ----- the queue a routine leaves is the one its calls make

  function Done(s: Sched, op: Op): Sched {
    match op
    case Schedule(cb, data, delay) => AddEvent(s, cb, data, delay)
    case Cancel(cb) => RemoveEvent(s, cb)
    case _ => s
  }

  /** These schedulings and cancellations take s to s'. */
  ghost predicate Makes(s: Sched, ops: seq<Op>, s': Sched)
    decreases |ops|
  {
    if ops == [] then s' == s
    else (ops[0].Schedule? || ops[0].Cancel?) && NoWrap(s, ops[0]) && Makes(Done(s, ops[0]), ops[1..], s')
  }

  lemma {:induction false} MakesThen(s: Sched, a: seq<Op>, s1: Sched, b: seq<Op>, s2: Sched)
    requires Makes(s, a, s1) && Makes(s1, b, s2)
    ensures Makes(s, a + b, s2)
    decreases |a|
  {
    if a == [] {
      assert a + b == b;
    } else {
      assert (a + b)[1..] == a[1..] + b;
      MakesThen(Done(s, a[0]), a[1..], s1, b, s2);
    }
  }

  lemma MakesOne(s: Sched, op: Op)
    requires (op.Schedule? || op.Cancel?) && NoWrap(s, op)
    ensures Makes(s, [op], Done(s, op)) && Makes(s, [], s)
  {
    assert [op][1..] == [];
  }

  lemma MakesTwo(s: Sched, a: Op, b: Op)
    requires (a.Schedule? || a.Cancel?) && NoWrap(s, a) && (b.Schedule? || b.Cancel?) && NoWrap(Done(s, a), b)
    ensures Makes(s, [a] + [b], Done(Done(s, a), b))
  {
    MakesOne(s, a);
    MakesOne(Done(s, a), b);
    MakesThen(s, [a], Done(s, a), [b], Done(Done(s, a), b));
  }

  // ----- the keyboard

  lemma AddBufferMakes(k: KeyboardModel.Kbd, s: Sched, data: nat)
    requires Roomy(s)
    ensures var (k', s') := KeyboardModel.AddBuffer(k, s, data);
      Makes(s, AddBufferOps(k), s') && s'.ticks == s.ticks && AddBufferOps(k') == []
  {
    MakesOne(s, TRANSFER_CALL);
  }

  lemma PortsMake(k: KeyboardModel.Kbd, s: Sched, val: nat)
    requires Roomy(s)
    ensures Makes(s, ReadP60Ops(k), KeyboardModel.ReadP60(k, s).1)
    ensures Makes(s, WriteP64Ops(k, val), KeyboardModel.WriteP64(k, s, val).1)
  {
    MakesOne(s, TRANSFER_CALL);
  }

  lemma WriteP60Makes(k: KeyboardModel.Kbd, s: Sched, val: nat)
    requires Roomy(s) && val < 256
    ensures Makes(s, WriteP60Ops(k), KeyboardModel.WriteP60(k, s, val).1)
  {
    hide Makes;
    MakesOne(s, Cancel(KeyboardTransfer));
    MakesTwo(s, Cancel(KeyboardTransfer), TRANSFER_CALL);
    assert [Cancel(KeyboardTransfer)] + [] == [Cancel(KeyboardTransfer)];
  }

  lemma AddKeyMakes(k: KeyboardModel.Kbd, s: Sched, key: KeyboardModel.Key, pressed: bool)
    requires Roomy(s)
    ensures var s' := KeyboardModel.AddKey(k, s, key, pressed).1;
      Makes(s, AddKeyOps(k, key), s') && s'.ticks == s.ticks
  {
    hide KeyboardModel.AddBuffer, AddBufferOps, Makes;
    var up := if pressed then 0 else 0x80;
    var k0 := k.(repeat := KeyboardModel.KeyRepeat(k.repeat, key, pressed));
    SameRing(k, k0);
    MakesNothing(s);
    match key
    case Pause =>
      TwoBytesMake(k, s, 0xe1, 29 + up);
      var (k1, s1) := KeyboardModel.AddBuffer(k, s, 0xe1);
      var (k2, s2) := KeyboardModel.AddBuffer(k1, s1, 29 + up);
      AddBufferMakes(k2, s2, 69 + up);
      MakesSame(s2, KeyboardModel.AddBuffer(k2, s2, 69 + up).1);
    case Plain(code) =>
      AddBufferMakes(k0, s, (code + up) % 256);
    case Extended(code) =>
      TwoBytesMake(k0, s, 0xe0, (code + up) % 256);
    case _ =>
  }

  lemma SameRing(k: KeyboardModel.Kbd, k': KeyboardModel.Kbd)
    requires k' == k.(repeat := k'.repeat)
    ensures AddBufferOps(k') == AddBufferOps(k)
  {
  }

  lemma MakesNothing(s: Sched)
    ensures Makes(s, [], s)
  {
  }

  lemma MakesSame(s: Sched, s': Sched)
    requires Makes(s, [], s')
    ensures s' == s
  {
  }

  lemma TwoBytesMake(k: KeyboardModel.Kbd, s: Sched, a: nat, b: nat)
    requires Roomy(s)
    ensures var (k1, s1) := KeyboardModel.AddBuffer(k, s, a);
      var (k2, s2) := KeyboardModel.AddBuffer(k1, s1, b);
      Makes(s, AddBufferOps(k), s2) && s2.ticks == s.ticks && AddBufferOps(k2) == []
  {
    hide KeyboardModel.AddBuffer, AddBufferOps, Makes;
    AddBufferMakes(k, s, a);
    var (k1, s1) := KeyboardModel.AddBuffer(k, s, a);
    AddBufferMakes(k1, s1, b);
    MakesSame(s1, KeyboardModel.AddBuffer(k1, s1, b).1);
  }

  lemma EveryMsecMakes(k: KeyboardModel.Kbd, s: Sched)
    requires Roomy(s)
    ensures Makes(s, EveryMsecOps(k), KeyboardModel.EveryMsec(k, s).1)
  {
    hide KeyboardModel.AddKey, Makes, AddKeyOps;
    var k0 := k.(repeat := k.repeat.(wait := if k.repeat.wait > 0 then k.repeat.wait - 1 else 0));
    AddKeyMakes(k0, s, k0.repeat.key, true);
    SameKeyOps(k, k0, k.repeat.key);
    MakesNothing(s);
    var s1 := KeyboardModel.RepeatKey(k, s).1;
    var ops := if k.repeat.wait == 1 then AddKeyOps(k, k.repeat.key) else [];
    assert Makes(s, ops, s1);
    MakesOne(s1, MSEC_CALL);
    MakesThen(s, ops, s1, [MSEC_CALL], KeyboardModel.EveryMsec(k, s).1);
  }

  lemma SameKeyOps(k: KeyboardModel.Kbd, k': KeyboardModel.Kbd, key: KeyboardModel.Key)
    requires k' == k.(repeat := k'.repeat)
    ensures AddKeyOps(k', key) == AddKeyOps(k, key)
  {
  }

  // ----- the timer

  lemma PitEventMakes(t: HwTimerModel.Timer, s: Sched, p: PicModel.Pic)
    requires Roomy(s) && HwTimerModel.WellFormed(t) && |p.irqs| == PicModel.IRQS
    ensures Makes(s, PitEventOps(t), HwTimerModel.PitEventFires(t, s, p).1)
  {
    hide HwTimerModel.DelayOf, PicModel.Activate;
    if t.pit[0].updateCount {
      HwTimerModel.DelayAtLeastTwo(t.pit[0].cntr);
    }
    MakesOne(s, TimerCall(HwTimerModel.Reloaded(t.pit[0]).delay));
  }

  lemma WriteLatchMakes(t: HwTimerModel.Timer, s: Sched, c: nat, val: nat)
    requires Roomy(s) && HwTimerModel.WellFormed(t) && c < 3 && val < 256
    ensures Makes(s, WriteLatchOps(t, c, val), HwTimerModel.WriteLatch(t, s, c, val).1)
  {
    hide HwTimerModel.DelayOf, HwTimerModel.Latched, HwTimerModel.LoadPit, HwTimerModel.Loaded, Makes;
    var p := HwTimerModel.Latched(t.pit[c], val);
    HwTimerModel.LatchedSound(t.pit[c], val);
    LoadedInRange(p);
    var call := TimerCall(HwTimerModel.DelayOf(HwTimerModel.Loaded(p)));
    HwTimerModel.DelayAtLeastTwo(HwTimerModel.Loaded(p));
    MakesOne(s, call);
    MakesTwo(s, Cancel(PitEvent), call);
    assert [] + [call] == [call];
  }

  lemma LoadedInRange(p: HwTimerModel.Pit)
    requires HwTimerModel.Sound(p)
    ensures 1 <= HwTimerModel.Loaded(p) <= 0x10000
  {
  }

  lemma WriteP43Makes(t: HwTimerModel.Timer, s: Sched, p: PicModel.Pic, val: nat)
    requires HwTimerModel.WellFormed(t) && val < 256 && |p.irqs| == PicModel.IRQS
    ensures Makes(s, WriteP43Ops(val), HwTimerModel.WriteP43(t, s, p, val).1)
  {
    hide HwTimerModel.CounterLatch, HwTimerModel.LatchSome, HwTimerModel.StatusSome, HwTimerModel.RaisesIrq0,
      HwTimerModel.Reprogrammed, Makes;
    MakesOne(s, Cancel(PitEvent));
  }

  // ----- user events

  lemma InjectMakes(e: EventsModel.Events, k: KeyboardModel.Kbd, s: Sched, event: EventsModel.UserEvent)
    requires Roomy(s)
    ensures var s' := EventsModel.InjectNow(e, k, s, event).2;
      Makes(s, InjectOps(k, event), s') && s'.ticks == s.ticks
  {
    hide KeyboardModel.AddKey, Makes, AddKeyOps;
    MakesNothing(s);
    if event.KeyboardEvent? {
      AddKeyMakes(k, s, event.key, !event.isUp);
    }
  }

  lemma ReplayOneMakes(e: EventsModel.Events, s: Sched)
    requires s.ticks < TWO64 && (e.replayFile.Some? ==> EventsModel.Playable(e.replayFile.value))
    ensures Makes(s, ReplayOneOps(e, s.ticks), EventsModel.ReplayOne(e, s).1)
  {
    hide Makes;
    MakesNothing(s);
    if e.replayFile.Some? {
      EventsModel.AdvanceKeeps(e.replayFile.value, e.pending, s.ticks);
      var (file, pending) := EventsModel.Advance(e.replayFile.value, e.pending, s.ticks);
      if file.Some? {
        MakesOne(s, Schedule(ReplayEvent, EventsModel.EVENTS_PTR, pending.time - s.ticks));
      }
    }
  }

  lemma ReplayCallbackMakes(e: EventsModel.Events, k: KeyboardModel.Kbd, s: Sched)
    requires Roomy(s) && (e.replayFile.Some? ==> EventsModel.Playable(e.replayFile.value))
    ensures Makes(s, ReplayCallbackOps(e, k, s.ticks), EventsModel.ReplayCallback(e, k, s).2)
  {
    hide EventsModel.ReplayOne, KeyboardModel.AddKey, Makes, InjectOps, ReplayOneOps;
    InjectMakes(e, k, s, e.pending.event);
    var (e1, k1, s1) := EventsModel.InjectNow(e, k, s, e.pending.event);
    SameFile(e, e1, s.ticks);
    ReplayOneMakes(e1, s1);
    MakesThen(s, InjectOps(k, e.pending.event), s1, ReplayOneOps(e, s.ticks), EventsModel.ReplayOne(e1, s1).1);
  }

  lemma SameFile(e: EventsModel.Events, e1: EventsModel.Events, ticks: nat)
    requires e1.replayFile == e.replayFile && e1.pending == e.pending
    ensures ReplayOneOps(e1, ticks) == ReplayOneOps(e, ticks)
  {
  }

  // ----- the machine

  /** The callback of an event, with the event off the queue. */
  lemma CallbackMakes(m: M, cb: Callback)
    requires |m.p.irqs| == PicModel.IRQS && HwTimerModel.WellFormed(m.t) && Roomy(m.s)
    requires m.e.replayFile.Some? ==> EventsModel.Playable(m.e.replayFile.value)
    ensures Makes(m.s, CallbackOps(m, cb), Call(m, cb).s)
  {
    hide KeyboardModel.TransferBuffer, KeyboardModel.EveryMsec, HwTimerModel.PitEventFires, EventsModel.ReplayCallback,
      Makes, EveryMsecOps, PitEventOps, ReplayCallbackOps;
    MakesNothing(m.s);
    match cb
    case KeyboardEveryMsec => EveryMsecMakes(m.k, m.s);
    case PitEvent => PitEventMakes(m.t, m.s, m.p);
    case ReplayEvent => ReplayCallbackMakes(m.e, m.k, m.s);
    case _ =>
  }

  lemma DoMakes(m: M, op: PortOp)
    requires Inv(m) && Roomy(m.s) && Enabled(m, op)
    ensures Makes(m.s, PortOps(m, op), Do(m, op).s)
  {
    hide KeyboardModel.ReadP60, KeyboardModel.WriteP60, KeyboardModel.WriteP64, HwTimerModel.WriteLatch,
      HwTimerModel.WriteP43, HwTimerModel.ReadLatch, HwTimerModel.SetGate2, PicModel.Step, Makes, ReadP60Ops,
      WriteP60Ops, WriteP64Ops, WriteLatchOps, WriteP43Ops;
    MakesNothing(m.s);
    match op
    case ReadPort60 => PortsMake(m.k, m.s, 0);
    case WritePort60(val) => WriteP60Makes(m.k, m.s, val);
    case WritePort64(val) => PortsMake(m.k, m.s, val);
    case WriteCounter(c, val) => WriteLatchMakes(m.t, m.s, c, val);
    case WriteControl(val) => WriteP43Makes(m.t, m.s, m.p, val);
    case _ =>
  }

  // ----- traces

  lemma GoodIsConsistent(t: Trace)
    requires Good(t)
    ensures Consistent(t)
  {
  }

  lemma {:induction false} OpsThen(t: Trace, a: seq<Op>, b: seq<Op>)
    requires Good(t) && NoWraps(t, a) && (FiringOrder(t, a); NoWraps(RunOps(t, a), b))
    ensures NoWraps(t, a + b) && RunOps(t, a + b) == (FiringOrder(t, a); RunOps(RunOps(t, a), b))
    decreases |a|
  {
    hide Good, Apply;
    FiringOrder(t, a);
    if a == [] {
      assert a + b == b;
    } else {
      assert (a + b)[1..] == a[1..] + b;
      GoodIsConsistent(t);
      StepKeepsGood(t, a[0]);
      OpsThen(Apply(t, a[0]), a[1..], b);
    }
  }

  function Entries(fired: seq<Stamped>): seq<Entry> {
    seq(|fired|, i requires 0 <= i < |fired| => fired[i].e)
  }

  /** From t these calls lead to the queue of m', and in between `es` are fired. */
  ghost predicate Traces(t: Trace, ops: seq<Op>, m': M, es: seq<Entry>) {
    && Good(t) && NoWraps(t, ops) && RunOps(t, ops).s == m'.s
    && Entries(RunOps(t, ops).fired) == Entries(t.fired) + es
  }

  lemma TracesThen(t: Trace, a: seq<Op>, m1: M, x: seq<Entry>, b: seq<Op>, m2: M, y: seq<Entry>)
    requires Traces(t, a, m1, x) && Traces(RunOps(t, a), b, m2, y)
    ensures Traces(t, a + b, m2, x + y)
  {
    hide Good;
    FiringOrder(t, a);
    OpsThen(t, a, b);
    assert (Entries(t.fired) + x) + y == Entries(t.fired) + (x + y);
  }

  /** What a trace leads to can be gone on from. */
  lemma TracesTo(t: Trace, ops: seq<Op>, m': M, es: seq<Entry>)
    requires Traces(t, ops, m', es)
    ensures Good(t) && NoWraps(t, ops) && Good(RunOps(t, ops)) && RunOps(t, ops).s == m'.s
  {
    FiringOrder(t, ops);
  }

  lemma TracesNone(t: Trace, m: M)
    requires Good(t) && t.s == m.s
    ensures Traces(t, [], m, [])
  {
    assert Entries(t.fired) + [] == Entries(t.fired);
  }

  lemma RunsOne(t: Trace, op: Op)
    requires Good(t) && NoWrap(t.s, op)
    ensures Consistent(t) && NoWraps(t, [op]) && RunOps(t, [op]) == Apply(t, op)
  {
    hide Good, Apply;
    GoodIsConsistent(t);
    StepKeepsGood(t, op);
    assert [op][1..] == [];
  }

  /** Schedulings and cancellations fire nothing. */
  lemma {:induction false} MakesTraced(t: Trace, ops: seq<Op>, m': M)
    requires Good(t) && Makes(t.s, ops, m'.s)
    ensures Traces(t, ops, m', [])
    decreases |ops|
  {
    if ops == [] {
      TracesNone(t, m');
    } else {
      hide Good, Apply;
      GoodIsConsistent(t);
      AppliesAs(t, ops[0]);
      StepKeepsGood(t, ops[0]);
      MakesTraced(Apply(t, ops[0]), ops[1..], m');
    }
  }

  lemma AppliesAs(t: Trace, op: Op)
    requires Good(t) && (op.Schedule? || op.Cancel?)
    ensures Apply(t, op).s == Done(t.s, op) && Apply(t, op).fired == t.fired
  {
  }

  lemma FireTraced(t: Trace, m: M)
    requires Good(t) && t.s == m.s && Inv(m) && Roomy(m.s) && Due(m.s)
    ensures |m.p.irqs| == PicModel.IRQS && |m.t.pit| == 3
    ensures Traces(t, [RunOne] + CallbackOps(m, m.s.queue[0].cb), Fire(m), [m.s.queue[0]])
  {
    hide Good, Call, Makes, NoWraps, RunOps;
    var m1, cb := m.(s := Popped(m.s)), m.s.queue[0].cb;
    RunsOne(t, RunOne);
    PopsAs(t);
    StepKeepsGood(t, RunOne);
    CallbackMakes(m1, cb);
    MakesTraced(Apply(t, RunOne), CallbackOps(m1, cb), Fire(m));
    TracesThen(t, [RunOne], m1, [m.s.queue[0]], CallbackOps(m, cb), Fire(m), []);
    assert [m.s.queue[0]] + [] == [m.s.queue[0]];
  }

  lemma PopsAs(t: Trace)
    requires Good(t) && Due(t.s)
    ensures Apply(t, RunOne).s == Popped(t.s)
    ensures Entries(Apply(t, RunOne).fired) == Entries(t.fired) + [t.s.queue[0]]
  {
  }

  /** The events one due check fires. */
  ghost function FiredNow(m: M): seq<Entry>
    requires Inv(m) && Roomy(m.s)
    decreases FileLeft(m.e), DueCount(m.s.queue, m.s.ticks)
  {
    if Due(m.s) then
      FireKeeps(m);
      [m.s.queue[0]] + FiredNow(Fire(m))
    else []
  }

  lemma {:induction false} RunEventsTraced(t: Trace, m: M)
    requires Good(t) && t.s == m.s && Inv(m) && Roomy(m.s)
    ensures Traces(t, DueOps(m), RunEvents(m), FiredNow(m))
    decreases FileLeft(m.e), DueCount(m.s.queue, m.s.ticks)
  {
    hide Good, Fire, Inv, Traces, CallbackOps, NoWraps, RunOps;
    if Due(m.s) {
      FireTraced(t, m);
      NextEvent(m);
      FireKeeps(m);
      var ops := [RunOne] + CallbackOps(m, m.s.queue[0].cb);
      TracesTo(t, ops, Fire(m), [m.s.queue[0]]);
      RunEventsTraced(RunOps(t, ops), Fire(m));
      TracesThen(t, ops, Fire(m), [m.s.queue[0]], DueOps(Fire(m)), RunEvents(m), FiredNow(Fire(m)));
    } else {
      NoEvent(m);
      TracesNone(t, m);
    }
  }

  lemma {:induction false} DoAllTraced(t: Trace, m: M, ops: seq<PortOp>)
    requires Good(t) && t.s == m.s && Inv(m) && Roomy(m.s) && AllEnabled(m, ops)
    ensures Traces(t, AllPortOps(m, ops), DoAll(m, ops), [])
    decreases |ops|
  {
    hide Good, Do, Enabled, Traces, PortOps, NoWraps, RunOps, Makes;
    if ops == [] {
      TracesNone(t, m);
    } else {
      DoKeeps(m, ops[0]);
      DoMakes(m, ops[0]);
      var m1, calls := Do(m, ops[0]), PortOps(m, ops[0]);
      MakesTraced(t, calls, m1);
      TracesTo(t, calls, m1, []);
      DoAllTraced(RunOps(t, calls), m1, ops[1..]);
      TracesThen(t, calls, m1, [], AllPortOps(m1, ops[1..]), DoAll(m, ops), []);
      NothingMore([]);
    }
  }

  lemma NothingMore(es: seq<Entry>)
    ensures es + [] == es
  {
  }

  lemma ChargeTraced(t: Trace, m: M)
    requires Good(t) && t.s == m.s && RoomFor(m, 1)
    ensures Traces(t, [SchedulerOrder.Charge(1)], Machine.Charge(m), [])
  {
    hide Good, NoWraps, RunOps;
    RunsOne(t, SchedulerOrder.Charge(1));
    NothingMore(Entries(t.fired));
  }

  /** The events a move fires. */
  ghost function FiredBy(m: M, move: Move): seq<Entry>
    requires Inv(m) && RoomFor(m, 1) && CanMove(m, move)
  {
    match move
    case Poll => FiredNow(m)
    case Execute(i) =>
      DeliverKeeps(m, i.deliver);
      FiredNow(Deliver(m, i.deliver))
  }

  lemma NestedIsWellFormed(m: M)
    requires Inv(m)
    ensures PicModel.WellFormed(m.p)
  {
  }

  lemma MoveTraced(t: Trace, m: M, move: Move)
    requires Good(t) && t.s == m.s && Inv(m) && RoomFor(m, 1) && CanMove(m, move)
    ensures Traces(t, MoveOps(m, move), Moved(m, move), FiredBy(m, move))
  {
    hide Good, RunEvents, FiredNow, Inv, Traces, DueOps, AllPortOps, NoWraps, RunOps;
    match move
    case Poll =>
      RunEventsTraced(t, m);
    case Execute(i) =>
      NestedIsWellFormed(m);
      DeliverKeeps(m, i.deliver);
      var d := Deliver(m, i.deliver);
      TickKeeps(d, |m.e.injected|);
      TickTraced(t, d);
      var ops := DueOps(d) + [SchedulerOrder.Charge(1)];
      TracesTo(t, ops, Tick(d), FiredNow(d));
      DoAllTraced(RunOps(t, ops), Tick(d), i.ops);
      TracesThen(t, ops, Tick(d), FiredNow(d), AllPortOps(Tick(d), i.ops), Moved(m, move), []);
      NothingMore(FiredNow(d));
  }

  lemma TickTraced(t: Trace, m: M)
    requires Good(t) && t.s == m.s && Inv(m) && RoomFor(m, 1)
    ensures Traces(t, DueOps(m) + [SchedulerOrder.Charge(1)], Tick(m), FiredNow(m))
  {
    hide Good, RunEvents, FiredNow, Inv, Traces, DueOps, NoWraps, RunOps;
    RunEventsKeeps(m, |m.e.injected|);
    RunEventsTraced(t, m);
    TracesTo(t, DueOps(m), RunEvents(m), FiredNow(m));
    ChargeTraced(RunOps(t, DueOps(m)), RunEvents(m));
    TracesThen(t, DueOps(m), RunEvents(m), FiredNow(m), [SchedulerOrder.Charge(1)], Tick(m), []);
    NothingMore(FiredNow(m));
  }

  /** The events a run fires. */
  ghost function Fired(m: M, moves: seq<Move>): seq<Entry>
    requires Inv(m) && RoomFor(m, |moves|) && CanRun(m, moves)
    decreases |moves|
  {
    if moves == [] then []
    else
      MoveKeeps(m, moves[0], |m.e.injected|);
      FiredBy(m, moves[0]) + Fired(Moved(m, moves[0]), moves[1..])
  }

  /** A run of the machine, every callback included, is the run of its own calls. */
  lemma {:induction false} RunTraced(t: Trace, m: M, moves: seq<Move>)
    requires Good(t) && t.s == m.s && Inv(m) && RoomFor(m, |moves|) && CanRun(m, moves)
    ensures Traces(t, OpsOfRun(m, moves), Run(m, moves), Fired(m, moves))
    decreases |moves|
  {
    hide Good, Inv, CanMove, Moved, FiredBy, MoveOps, Traces, NoWraps, RunOps;
    if moves == [] {
      TracesNone(t, m);
    } else {
      MoveTraced(t, m, moves[0]);
      MoveKeeps(m, moves[0], |m.e.injected|);
      var m1, ops := Moved(m, moves[0]), MoveOps(m, moves[0]);
      TracesTo(t, ops, m1, FiredBy(m, moves[0]));
      RunTraced(RunOps(t, ops), m1, moves[1..]);
      TracesThen(t, ops, m1, FiredBy(m, moves[0]), OpsOfRun(m1, moves[1..]), Run(m, moves), Fired(m1, moves[1..]));
    }
  }

  const START := Trace(Sched(0, []), [], 0, [])

  /** From power-on, whatever the guest does: number the calls the initialization, the
      callbacks and the port handlers make, in the order they make them. The events the
      machine fires are then in the order of time and, at one time, in the order of the
      calls that scheduled them, and ahead of everything still queued. */
  lemma MachineFiresInOrder(m: M, moves: seq<Move>)
    requires PoweredOn(m) && RoomFor(m, |moves|) && (BootKeeps(m); CanRun(m, moves))
    ensures Inv(m) && Good(START) && NoWraps(START, BOOT_OPS + OpsOfRun(m, moves))
    ensures var t := RunOps(START, BOOT_OPS + OpsOfRun(m, moves));
      && t.s == Run(m, moves).s && Entries(t.fired) == Fired(m, moves)
      && InOrder(t.fired) && Consistent(t)
      && forall i, j | 0 <= i < |t.fired| && 0 <= j < |Labelled(t)| :: SchedulerOrder.Before(t.fired[i], Labelled(t)[j])
  {
    hide Good, CanRun, Run, Fired, OpsOfRun, NoWraps, RunOps;
    StartIsGood(0);
    BootKeeps(m);
    BootMakes(m);
    MakesTraced(START, BOOT_OPS, m);
    TracesTo(START, BOOT_OPS, m, []);
    RunTraced(RunOps(START, BOOT_OPS), m, moves);
    TracesThen(START, BOOT_OPS, m, [], OpsOfRun(m, moves), Run(m, moves), Fired(m, moves));
    assert Entries([]) + ([] + Fired(m, moves)) == Fired(m, moves);
    FiringOrder(START, BOOT_OPS + OpsOfRun(m, moves));
  }

  lemma BootMakes(m: M)
    requires PoweredOn(m)
    ensures Makes(START.s, BOOT_OPS, m.s)
  {
    hide HwTimerModel.DelayOf;
    BootTimer();
    var call := TimerCall(HwTimerModel.BOOT.pit[0].delay);
    MakesTwo(START.s, call, MSEC_CALL);
    assert [call] + [MSEC_CALL] == BOOT_OPS;
  }
}
