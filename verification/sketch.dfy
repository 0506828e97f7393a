/** One tick as a program of inputs and callbacks: what such a program does to keyboard,
    timer and queue, worked out without running the machine. */
module ReplaySketch {
  import opened Basics
  import opened Scheduler
  import opened Machine
  import opened ReplaySame

  import PicModel
  import KeyboardModel
  import HwTimerModel
  import EventsModel

  lemma Join<T>(a: seq<T>, b: seq<T>, c: seq<T>)
    ensures (a + b) + c == a + (b + c)
  {
  }

  // ----- what an input and a callback do to the keyboard

  function KeyBytes(key: KeyboardModel.Key, pressed: bool): seq<nat> {
    var up := if pressed then 0 else 0x80;
    match key
    case Pause => [0xe1, 29 + up, 69 + up]
    case Plain(code) => [(code + up) % 256]
    case Extended(code) => [0xe0, (code + up) % 256]
    case _ => []
  }

  /** The bytes an input offers to the ring. */
  function Bytes(event: EventsModel.UserEvent): seq<nat> {
    match event
    case KeyboardEvent(key, isUp) => KeyBytes(key, !isUp)
    case OtherEvent(_) => []
  }

  /** The input sets the typematic state: an ordinary key, pressed or released. */
  predicate SetsRepeat(event: EventsModel.UserEvent) {
    event.KeyboardEvent? && (event.key.Plain? || event.key.Extended?)
  }

  function RepeatAfter(r: KeyboardModel.Repeat, event: EventsModel.UserEvent): KeyboardModel.Repeat {
    if SetsRepeat(event) then KeyboardModel.KeyRepeat(r, event.key, !event.isUp) else r
  }

  /** The periodic event repeats the held key now. */
  predicate RepeatsNow(r: KeyboardModel.Repeat) { r.wait == 1 }

  function RepeatedBytes(r: KeyboardModel.Repeat): seq<nat> {
    if RepeatsNow(r) then KeyBytes(r.key, true) else []
  }

  function CountedDown(r: KeyboardModel.Repeat): KeyboardModel.Repeat {
    if r.wait == 0 then r
    else if r.wait == 1 then r.(wait := r.rate)
    else r.(wait := r.wait - 1)
  }

  /** The part of the controller that bytes pass through. */
  datatype Port = Port(ring: seq<nat>, data: nat, changed: bool, scheduled: bool)

  function PortOf(k: KeyboardModel.Kbd): Port { Port(k.ring, k.p60data, k.p60changed, k.scheduled) }

  function WithPort(k: KeyboardModel.Kbd, r: KeyboardModel.Repeat, p: Port): KeyboardModel.Kbd {
    k.(repeat := r, ring := p.ring, p60data := p.data, p60changed := p.changed, scheduled := p.scheduled)
  }

  /** A byte comes in, or the transfer event takes one out. */
  datatype Act = Push(b: nat) | Pop

  function Play(p: Port, a: Act): Port {
    match a
    case Push(b) =>
      if |p.ring| >= KeyboardModel.KEYBUFSIZE then p
      else p.(ring := p.ring + [b], scheduled := p.scheduled || !p.changed)
    case Pop =>
      if p.ring == [] then p.(scheduled := false)
      else p.(ring := p.ring[1..], data := p.ring[0], changed := true, scheduled := false)
  }

  function PlayAll(p: Port, acts: seq<Act>): Port
    decreases |acts|
  {
    if acts == [] then p else PlayAll(Play(p, acts[0]), acts[1..])
  }

  function Pushes(bytes: seq<nat>): seq<Act> {
    seq(|bytes|, i requires 0 <= i < |bytes| => Push(bytes[i]))
  }

  lemma {:induction false} PlayBoth(p: Port, a: seq<Act>, b: seq<Act>)
    ensures PlayAll(p, a + b) == PlayAll(PlayAll(p, a), b)
    decreases |a|
  {
    if a == [] {
      assert a + b == b;
    } else {
      assert (a + b)[1..] == a[1..] + b;
      PlayBoth(Play(p, a[0]), a[1..], b);
    }
  }

  // ----- bytes into the ring

  function TransferEntry(ticks: nat): Entry {
    Entry((ticks + KeyboardModel.KEYDELAY) % TWO64, KeyboardTransfer, KeyboardModel.KEYBOARD_PTR)
  }

  /** A byte put in now starts a transfer; the invariant makes the ring empty then. */
  predicate Asleep(p: Port) { !p.scheduled && !p.changed }

  /** The entry that bytes make. */
  function Awakened(p: Port, ticks: nat, bytes: seq<nat>): seq<Entry> {
    if bytes != [] && Asleep(p) then [TransferEntry(ticks)] else []
  }

  function InsertAll(q: seq<Entry>, es: seq<Entry>): seq<Entry>
    decreases |es|
  {
    if es == [] then q else InsertAll(Insert(q, es[0]), es[1..])
  }

  function AddBytes(k: KeyboardModel.Kbd, s: Sched, bytes: seq<nat>): (KeyboardModel.Kbd, Sched)
    decreases |bytes|
  {
    if bytes == [] then (k, s)
    else
      var (k1, s1) := KeyboardModel.AddBuffer(k, s, bytes[0]);
      AddBytes(k1, s1, bytes[1..])
  }

  predicate PortOk(p: Port) {
    |p.ring| <= KeyboardModel.KEYBUFSIZE && (Asleep(p) ==> p.ring == []) && !(p.scheduled && p.changed)
  }

  lemma AddByteIs(k: KeyboardModel.Kbd, s: Sched, b: nat)
    requires PortOk(PortOf(k))
    ensures var (k', s') := KeyboardModel.AddBuffer(k, s, b);
      && k' == WithPort(k, k.repeat, Play(PortOf(k), Push(b))) && PortOk(PortOf(k')) && !Asleep(PortOf(k'))
      && s' == s.(queue := InsertAll(s.queue, Awakened(PortOf(k), s.ticks, [b])))
  {
    assert [TransferEntry(s.ticks)][1..] == [];
  }

  /** Bytes in a row: only the first of them can start a transfer. */
  lemma {:induction false} AddBytesIs(k: KeyboardModel.Kbd, s: Sched, bytes: seq<nat>)
    requires PortOk(PortOf(k))
    ensures var (k', s') := AddBytes(k, s, bytes);
      && k' == WithPort(k, k.repeat, PlayAll(PortOf(k), Pushes(bytes))) && PortOk(PortOf(k'))
      && s' == s.(queue := InsertAll(s.queue, Awakened(PortOf(k), s.ticks, bytes)))
    decreases |bytes|
  {
    if bytes != [] {
      AddByteIs(k, s, bytes[0]);
      var (k1, s1) := KeyboardModel.AddBuffer(k, s, bytes[0]);
      AddBytesIs(k1, s1, bytes[1..]);
      assert Pushes(bytes)[1..] == Pushes(bytes[1..]);
      assert Awakened(PortOf(k1), s.ticks, bytes[1..]) == [];
    }
  }

  lemma AddKeyIs(k: KeyboardModel.Kbd, s: Sched, event: EventsModel.UserEvent)
    requires event.KeyboardEvent?
    ensures KeyboardModel.AddKey(k, s, event.key, !event.isUp)
         == AddBytes(k.(repeat := RepeatAfter(k.repeat, event)), s, Bytes(event))
  {
    hide KeyboardModel.AddBuffer;
    var up := if event.isUp then 0x80 else 0;
    var k0 := k.(repeat := RepeatAfter(k.repeat, event));
    match event.key
    case Pause =>
      assert Bytes(event) == [0xe1] + ([29 + up] + ([69 + up] + []));
      AddBytesCons(k0, s, 0xe1, [29 + up] + ([69 + up] + []));
      var (k1, s1) := KeyboardModel.AddBuffer(k0, s, 0xe1);
      AddBytesCons(k1, s1, 29 + up, [69 + up] + []);
      var (k2, s2) := KeyboardModel.AddBuffer(k1, s1, 29 + up);
      AddBytesCons(k2, s2, 69 + up, []);
    case Plain(code) =>
      assert Bytes(event) == [(code + up) % 256] + [];
      AddBytesCons(k0, s, (code + up) % 256, []);
    case Extended(code) =>
      assert Bytes(event) == [0xe0] + ([(code + up) % 256] + []);
      AddBytesCons(k0, s, 0xe0, [(code + up) % 256] + []);
      var (k1, s1) := KeyboardModel.AddBuffer(k0, s, 0xe0);
      AddBytesCons(k1, s1, (code + up) % 256, []);
    case _ =>
  }

  lemma AddBytesCons(k: KeyboardModel.Kbd, s: Sched, b: nat, rest: seq<nat>)
    ensures AddBytes(k, s, [b] + rest)
         == var (k1, s1) := KeyboardModel.AddBuffer(k, s, b); AddBytes(k1, s1, rest)
    ensures AddBytes(k, s, []) == (k, s)
  {
    assert ([b] + rest)[1..] == rest;
  }

  /** The periodic event: the held key's bytes, and itself a millisecond later. */
  lemma EveryMsecIs(k: KeyboardModel.Kbd, s: Sched)
    requires k.repeat.wait > 0 ==> k.repeat.key.Plain? || k.repeat.key.Extended?
    ensures KeyboardModel.EveryMsec(k, s)
         == var (k1, s1) := AddBytes(k.(repeat := CountedDown(k.repeat)), s, RepeatedBytes(k.repeat));
            (k1, AddEvent(s1, KeyboardEveryMsec, KeyboardModel.KEYBOARD_PTR, KeyboardModel.MSEC))
  {
    hide AddBytes, KeyboardModel.AddKey;
    if RepeatsNow(k.repeat) {
      var k0 := k.(repeat := k.repeat.(wait := 0));
      AddKeyIs(k0, s, EventsModel.KeyboardEvent(k.repeat.key, false));
    } else {
      AddBytesCons(k.(repeat := CountedDown(k.repeat)), s, 0, []);
    }
  }

  // ----- programs of inputs and callbacks

  /** A callback of an event due now, or an input. */
  datatype Step = Ev(cb: Callback) | In(event: EventsModel.UserEvent)

  /** What a program of steps makes of a machine, without running it: typematic state,
      port, the entries it queues, interrupt controllers and timer. */
  datatype Sketch = Sketch(r: KeyboardModel.Repeat, port: Port, added: seq<Entry>, p: PicModel.Pic, t: HwTimerModel.Timer)

  function Feed(z: Sketch, ticks: nat, bytes: seq<nat>): Sketch {
    z.(port := PlayAll(z.port, Pushes(bytes)), added := z.added + Awakened(z.port, ticks, bytes))
  }

  function PeriodicEntry(ticks: nat): Entry {
    Entry((ticks + KeyboardModel.MSEC) % TWO64, KeyboardEveryMsec, KeyboardModel.KEYBOARD_PTR)
  }

  function TimerEntry(t: HwTimerModel.Timer, ticks: nat): Entry
    requires |t.pit| == 3
  {
    Entry((ticks + HwTimerModel.Reloaded(t.pit[0]).delay) % TWO64, PitEvent, HwTimerModel.HWTIMER_PTR)
  }

  /** The entry the timer event queues. */
  function TimerEntries(t: HwTimerModel.Timer, ticks: nat): seq<Entry>
    requires |t.pit| == 3
  {
    if t.pit[0].mode == 0 then [] else [TimerEntry(t, ticks)]
  }

  function StepSketch(z: Sketch, ticks: nat, step: Step): (r: Sketch)
    requires |z.p.irqs| == PicModel.IRQS && |z.t.pit| == 3
    ensures |r.p.irqs| == PicModel.IRQS && |r.t.pit| == 3
  {
    match step
    case In(event) => Feed(z.(r := RepeatAfter(z.r, event)), ticks, Bytes(event))
    case Ev(cb) =>
      match cb
      case KeyboardEveryMsec =>
        var z1 := Feed(z.(r := CountedDown(z.r)), ticks, RepeatedBytes(z.r));
        z1.(added := z1.added + [PeriodicEntry(ticks)])
      case KeyboardTransfer =>
        z.(port := Play(z.port, Pop), p := PicModel.Activate(z.p, 1))
      case PitEvent =>
        var (t, s, p) := HwTimerModel.PitEventFires(z.t, Sched(ticks, []), z.p);
        z.(t := t, p := p, added := z.added + TimerEntries(z.t, ticks))
      case _ => z
  }

  function RunSketch(z: Sketch, ticks: nat, steps: seq<Step>): Sketch
    requires |z.p.irqs| == PicModel.IRQS && |z.t.pit| == 3
    decreases |steps|
  {
    if steps == [] then z else RunSketch(StepSketch(z, ticks, steps[0]), ticks, steps[1..])
  }

  // ----- the machine follows its sketch

  /** The callbacks due by tick t, in queue order. */
  function DueList(q: seq<Entry>, t: nat): seq<Callback> {
    if q == [] || q[0].time > t then [] else [q[0].cb] + DueList(q[1..], t)
  }

  /** The queue behind the entries due. */
  function NotDue(q: seq<Entry>, t: nat): seq<Entry> {
    if q == [] || q[0].time > t then q else NotDue(q[1..], t)
  }

  /** A future entry goes behind the due ones. */
  lemma FutureInsert(q: seq<Entry>, t: nat, e: Entry)
    requires e.time > t
    ensures DueList(Insert(q, e), t) == DueList(q, t)
    ensures NotDue(Insert(q, e), t) == Insert(NotDue(q, t), e)
  {
    if q == [] || q[0].time > e.time {
    } else {
      FutureInsert(q[1..], t, e);
      assert ([q[0]] + Insert(q[1..], e))[1..] == Insert(q[1..], e);
    }
  }

  lemma FutureInserts(q: seq<Entry>, t: nat, es: seq<Entry>)
    requires forall i | 0 <= i < |es| :: es[i].time > t
    ensures DueList(InsertAll(q, es), t) == DueList(q, t)
    ensures NotDue(InsertAll(q, es), t) == InsertAll(NotDue(q, t), es)
    decreases |es|
  {
    if es != [] {
      FutureInsert(q, t, es[0]);
      FutureInserts(Insert(q, es[0]), t, es[1..]);
    }
  }

  lemma {:induction false} InsertAllThen(q: seq<Entry>, a: seq<Entry>, b: seq<Entry>)
    ensures InsertAll(q, a + b) == InsertAll(InsertAll(q, a), b)
    decreases |a|
  {
    if a == [] {
      assert a + b == b;
    } else {
      assert (a + b)[1..] == a[1..] + b;
      InsertAllThen(Insert(q, a[0]), a[1..], b);
    }
  }

  function Ran(m: M, step: Step): M
    requires |m.p.irqs| == PicModel.IRQS && |m.t.pit| == 3 && (step.Ev? ==> m.s.queue != [])
  {
    match step
    case In(event) => Injected(m, event)
    case Ev(_) => Fire(m)
  }

  function SketchOf(m: M): Sketch { Sketch(m.k.repeat, PortOf(m.k), [], m.p, m.t) }

  /** m came from m0 by the steps that made the sketch, and `due` is still to run. */
  ghost predicate Follows(m0: M, m: M, z: Sketch, due: seq<Callback>) {
    && m.s.ticks == m0.s.ticks
    && DueList(m.s.queue, m.s.ticks) == due
    && NotDue(m.s.queue, m.s.ticks) == InsertAll(NotDue(m0.s.queue, m0.s.ticks), z.added)
    && m.k == WithPort(m0.k, z.r, z.port) && m.p == z.p && m.t == z.t
  }

  /** A live machine in the middle of a tick. */
  ghost predicate Going(m: M) {
    Inv(m) && Roomy(m.s) && m.e.replayFile.None?
  }

  /** What bytes do to keyboard and queue, as the sketch has it. */
  lemma FeedFollows(k: KeyboardModel.Kbd, s: Sched, z: Sketch, q0: seq<Entry>, bytes: seq<nat>)
    requires PortOk(z.port) && PortOf(k) == z.port && Roomy(s)
    requires NotDue(s.queue, s.ticks) == InsertAll(q0, z.added)
    ensures var ((k', s'), z') := (AddBytes(k, s, bytes), Feed(z, s.ticks, bytes));
      && k' == WithPort(k, k.repeat, z'.port) && PortOk(z'.port)
      && s'.ticks == s.ticks && DueList(s'.queue, s.ticks) == DueList(s.queue, s.ticks)
      && NotDue(s'.queue, s.ticks) == InsertAll(q0, z'.added)
  {
    hide AddBytes, PlayAll, InsertAll, Pushes, PortOk;
    AddBytesIs(k, s, bytes);
    FutureInserts(s.queue, s.ticks, Awakened(z.port, s.ticks, bytes));
    InsertAllThen(q0, z.added, Awakened(z.port, s.ticks, bytes));
  }

  lemma EventFollows(s: Sched, added: seq<Entry>, q0: seq<Entry>, cb: Callback, data: nat, delay: nat)
    requires Roomy(s) && 1 <= delay <= LONGEST && NotDue(s.queue, s.ticks) == InsertAll(q0, added)
    ensures var s' := AddEvent(s, cb, data, delay);
      && s'.ticks == s.ticks && DueList(s'.queue, s.ticks) == DueList(s.queue, s.ticks)
      && NotDue(s'.queue, s.ticks)
        == InsertAll(q0, added + [Entry((s.ticks + delay) % TWO64, cb, data)])
  {
    var e := Entry((s.ticks + delay) % TWO64, cb, data);
    FutureInsert(s.queue, s.ticks, e);
    InsertAllThen(q0, added, [e]);
    assert [e][1..] == [];
  }

  lemma PortIsOk(m: M)
    requires Inv(m)
    ensures PortOk(PortOf(m.k))
  {
  }

  lemma InFollows(m0: M, m: M, z: Sketch, due: seq<Callback>, event: EventsModel.UserEvent)
    requires Going(m) && Follows(m0, m, z, due)
    ensures |z.p.irqs| == PicModel.IRQS && |z.t.pit| == 3
    ensures Going(Injected(m, event)) && Follows(m0, Injected(m, event), StepSketch(z, m.s.ticks, In(event)), due)
  {
    hide AddBytes, InsertAll, DueList, NotDue;
    PortIsOk(m);
    InjectedKeeps(m, event);
    var k := m.k.(repeat := RepeatAfter(m.k.repeat, event));
    FeedFollows(k, m.s, z.(r := k.repeat), NotDue(m0.s.queue, m0.s.ticks), Bytes(event));
    match event
    case KeyboardEvent(key, isUp) =>
      AddKeyIs(m.k, m.s, event);
    case OtherEvent(_) =>
      NoBytes(k, m.s);
  }

  lemma NoBytes(k: KeyboardModel.Kbd, s: Sched)
    ensures AddBytes(k, s, []) == (k, s)
  {
  }

  lemma PoppedDue(s: Sched)
    requires Due(s)
    ensures DueList(s.queue, s.ticks) == [s.queue[0].cb] + DueList(Popped(s).queue, s.ticks)
    ensures NotDue(s.queue, s.ticks) == NotDue(Popped(s).queue, s.ticks)
  {
  }

  lemma MsecFollows(m0: M, m: M, z: Sketch, due: seq<Callback>)
    requires Inv(m) && Roomy(m.s) && Follows(m0, m, z, due) && Due(m.s) && m.s.queue[0].cb == KeyboardEveryMsec
    ensures |z.p.irqs| == PicModel.IRQS && |z.t.pit| == 3 && due != []
    ensures Follows(m0, Fire(m), StepSketch(z, m.s.ticks, Ev(KeyboardEveryMsec)), due[1..])
  {
    hide AddBytes, InsertAll, DueList, NotDue, KeyboardModel.EveryMsec, PlayAll, Pushes, PortOk;
    PortIsOk(m);
    PoppedDue(m.s);
    var s, q0 := Popped(m.s), NotDue(m0.s.queue, m0.s.ticks);
    EveryMsecIs(m.k, s);
    var k := m.k.(repeat := CountedDown(m.k.repeat));
    FeedFollows(k, s, z.(r := k.repeat), q0, RepeatedBytes(m.k.repeat));
    var z1 := Feed(z.(r := k.repeat), s.ticks, RepeatedBytes(m.k.repeat));
    EventFollows(AddBytes(k, s, RepeatedBytes(m.k.repeat)).1, z1.added, q0, KeyboardEveryMsec,
                 KeyboardModel.KEYBOARD_PTR, KeyboardModel.MSEC);
  }

  lemma TransferFollows(m0: M, m: M, z: Sketch, due: seq<Callback>)
    requires Inv(m) && Roomy(m.s) && Follows(m0, m, z, due) && Due(m.s) && m.s.queue[0].cb == KeyboardTransfer
    ensures |z.p.irqs| == PicModel.IRQS && |z.t.pit| == 3 && due != []
    ensures Follows(m0, Fire(m), StepSketch(z, m.s.ticks, Ev(KeyboardTransfer)), due[1..])
  {
    hide InsertAll, DueList, NotDue, PicModel.Activate;
    PoppedDue(m.s);
    PopIsRemove(m.s);
    KeyboardModel.TransferKeeps(m.k, m.s, m.p);
  }

  lemma TimerFollows(m0: M, m: M, z: Sketch, due: seq<Callback>)
    requires Inv(m) && Roomy(m.s) && Follows(m0, m, z, due) && Due(m.s) && m.s.queue[0].cb == PitEvent
    ensures |z.p.irqs| == PicModel.IRQS && |z.t.pit| == 3 && due != []
    ensures Follows(m0, Fire(m), StepSketch(z, m.s.ticks, Ev(PitEvent)), due[1..])
  {
    hide InsertAll, DueList, NotDue, PicModel.Activate, HwTimerModel.DelayOf;
    PoppedDue(m.s);
    var q0 := NotDue(m0.s.queue, m0.s.ticks);
    if m.t.pit[0].mode == 0 {
      assert z.added + [] == z.added;
    } else {
      var p1 := HwTimerModel.Reloaded(m.t.pit[0]);
      ReloadedDelay(m.t.pit[0]);
      EventFollows(Popped(m.s), z.added, q0, PitEvent, HwTimerModel.HWTIMER_PTR, p1.delay);
    }
  }

  lemma ReloadedDelay(p: HwTimerModel.Pit)
    requires HwTimerModel.Sound(p)
    ensures 2 <= HwTimerModel.Reloaded(p).delay <= HwTimerModel.MAX_DELAY
  {
    if p.updateCount {
      HwTimerModel.DelayAtLeastTwo(p.cntr);
    }
  }

  // ----- whole programs

  function EvsOf(steps: seq<Step>): seq<Callback>
    decreases |steps|
  {
    if steps == [] then []
    else (if steps[0].Ev? then [steps[0].cb] else []) + EvsOf(steps[1..])
  }

  function Evs(cbs: seq<Callback>): seq<Step> {
    seq(|cbs|, i requires 0 <= i < |cbs| => Ev(cbs[i]))
  }

  function Ins(inputs: seq<EventsModel.UserEvent>): seq<Step> {
    seq(|inputs|, i requires 0 <= i < |inputs| => In(inputs[i]))
  }

  lemma {:induction false} EvsOfBoth(a: seq<Step>, b: seq<Step>)
    ensures EvsOf(a + b) == EvsOf(a) + EvsOf(b)
    decreases |a|
  {
    if a == [] {
      assert a + b == b;
    } else {
      assert (a + b)[1..] == a[1..] + b;
      EvsOfBoth(a[1..], b);
      Join(if a[0].Ev? then [a[0].cb] else [], EvsOf(a[1..]), EvsOf(b));
    }
  }

  lemma {:induction false} EvsOfEvs(cbs: seq<Callback>)
    ensures EvsOf(Evs(cbs)) == cbs
    decreases |cbs|
  {
    if cbs != [] {
      assert Evs(cbs)[1..] == Evs(cbs[1..]);
      EvsOfEvs(cbs[1..]);
    }
  }

  lemma {:induction false} EvsOfIns(inputs: seq<EventsModel.UserEvent>)
    ensures EvsOf(Ins(inputs)) == []
    decreases |inputs|
  {
    if inputs != [] {
      assert Ins(inputs)[1..] == Ins(inputs[1..]);
      EvsOfIns(inputs[1..]);
    }
  }

  ghost predicate Ready(m: M, steps: seq<Step>) {
    Going(m) && DueList(m.s.queue, m.s.ticks) == EvsOf(steps)
  }

  lemma FollowsItself(m: M)
    ensures Follows(m, m, SketchOf(m), DueList(m.s.queue, m.s.ticks))
  {
  }

  lemma StepFollows(m0: M, m: M, z: Sketch, steps: seq<Step>)
    requires Ready(m, steps) && steps != [] && Follows(m0, m, z, EvsOf(steps))
    ensures |z.p.irqs| == PicModel.IRQS && |z.t.pit| == 3 && |m.p.irqs| == PicModel.IRQS && |m.t.pit| == 3
    ensures steps[0].Ev? ==> m.s.queue != []
    ensures Ready(Ran(m, steps[0]), steps[1..])
    ensures Follows(m0, Ran(m, steps[0]), StepSketch(z, m.s.ticks, steps[0]), EvsOf(steps[1..]))
    ensures Ran(m, steps[0]).s.ticks == m.s.ticks
  {
    hide InsertAll, DueList, NotDue, StepSketch, Injected, Fire;
    match steps[0]
    case In(event) =>
      InFollows(m0, m, z, EvsOf(steps), event);
    case Ev(cb) =>
      HeadDue(m.s, cb, EvsOf(steps[1..]));
      FireKeeps(m);
      NoneCalled(m);
      match cb {
        case KeyboardEveryMsec => MsecFollows(m0, m, z, EvsOf(steps));
        case KeyboardTransfer => TransferFollows(m0, m, z, EvsOf(steps));
        case PitEvent => TimerFollows(m0, m, z, EvsOf(steps));
        case _ =>
      }
      assert EvsOf(steps)[1..] == EvsOf(steps[1..]);
  }

  lemma HeadDue(s: Sched, cb: Callback, due: seq<Callback>)
    requires DueList(s.queue, s.ticks) == [cb] + due
    ensures Due(s) && s.queue[0].cb == cb
  {
    assert DueList(s.queue, s.ticks)[0] == cb;
  }

  /** A live machine has no replay event and no null callback to run. */
  lemma NoneCalled(m: M)
    requires Going(m) && Due(m.s)
    ensures m.s.queue[0].cb != ReplayEvent && m.s.queue[0].cb != NoCallback
    ensures Fire(m).e == m.e
  {
    FireKeeps(m);
  }

  ghost function RunSteps(m: M, steps: seq<Step>): M
    requires Ready(m, steps)
    decreases |steps|
  {
    if steps == [] then m
    else
      FollowsItself(m);
      StepFollows(m, m, SketchOf(m), steps);
      RunSteps(Ran(m, steps[0]), steps[1..])
  }

  lemma {:induction false} RunFollows(m0: M, m: M, z: Sketch, steps: seq<Step>)
    requires Ready(m, steps) && Follows(m0, m, z, EvsOf(steps))
    ensures |z.p.irqs| == PicModel.IRQS && |z.t.pit| == 3
    ensures Follows(m0, RunSteps(m, steps), RunSketch(z, m.s.ticks, steps), [])
    decreases |steps|
  {
    SketchSizes(m0, m, z, EvsOf(steps));
    if steps != [] {
      hide Follows, StepSketch, Ran;
      FollowsItself(m);
      StepFollows(m0, m, z, steps);
      StepFollows(m, m, SketchOf(m), steps);
      RunFollows(m0, Ran(m, steps[0]), StepSketch(z, m.s.ticks, steps[0]), steps[1..]);
    }
  }

  lemma SketchSizes(m0: M, m: M, z: Sketch, due: seq<Callback>)
    requires Going(m) && Follows(m0, m, z, due)
    ensures |z.p.irqs| == PicModel.IRQS && |z.t.pit| == 3
  {
  }

  // ----- the two orders as programs

  lemma {:induction false} InsAreInjections(m: M, inputs: seq<EventsModel.UserEvent>)
    requires Ready(m, Ins(inputs))
    ensures RunSteps(m, Ins(inputs)) == InjectAll(m, inputs)
    decreases |inputs|
  {
    if inputs != [] {
      assert Ins(inputs)[1..] == Ins(inputs[1..]);
      FollowsItself(m);
      StepFollows(m, m, SketchOf(m), Ins(inputs));
      InsAreInjections(Injected(m, inputs[0]), inputs[1..]);
    }
  }

  /** The user's order: every event due, then the inputs. */
  lemma {:induction false} UserOrder(m: M, due: seq<Callback>, inputs: seq<EventsModel.UserEvent>)
    requires Going(m) && DueList(m.s.queue, m.s.ticks) == due
    ensures Ready(m, Evs(due) + Ins(inputs))
    ensures RunSteps(m, Evs(due) + Ins(inputs)) == InjectAll(RunEvents(m), inputs)
    decreases |due|
  {
    var steps := Evs(due) + Ins(inputs);
    EvsOfEvs(due);
    EvsOfIns(inputs);
    EvsOfBoth(Evs(due), Ins(inputs));
    if due == [] {
      assert steps == Ins(inputs);
      NotDueNow(m.s);
      InsAreInjections(m, inputs);
    } else {
      assert steps[1..] == Evs(due[1..]) + Ins(inputs);
      HeadDue(m.s, due[0], due[1..]);
      FollowsItself(m);
      StepFollows(m, m, SketchOf(m), steps);
      EvsOfEvs(due[1..]);
      EvsOfBoth(Evs(due[1..]), Ins(inputs));
      UserOrder(Fire(m), due[1..], inputs);
      NextEvent(m);
    }
  }

  lemma NotDueNow(s: Sched)
    requires DueList(s.queue, s.ticks) == []
    ensures !Due(s)
  {
  }

  /** The replay's order: the first input in front of the events due. */
  lemma ReplayOrder(m: M, due: seq<Callback>, first: EventsModel.UserEvent, rest: seq<EventsModel.UserEvent>)
    requires Going(m) && DueList(m.s.queue, m.s.ticks) == due
    ensures Going(Injected(m, first))
    ensures Ready(m, [In(first)] + (Evs(due) + Ins(rest)))
    ensures RunSteps(m, [In(first)] + (Evs(due) + Ins(rest))) == InjectAll(RunEvents(Injected(m, first)), rest)
  {
    var steps := [In(first)] + (Evs(due) + Ins(rest));
    assert steps[1..] == Evs(due) + Ins(rest);
    EvsOfEvs(due);
    EvsOfIns(rest);
    EvsOfBoth(Evs(due), Ins(rest));
    FollowsItself(m);
    StepFollows(m, m, SketchOf(m), steps);
    UserOrder(Injected(m, first), due, rest);
  }

  // ----- equal sketches, equal machines

  function NoteSteps(e: EventsModel.Events, ticks: nat, steps: seq<Step>): EventsModel.Events
    decreases |steps|
  {
    if steps == [] then e
    else NoteSteps(if steps[0].In? then EventsModel.Note(e, ticks, steps[0].event) else e, ticks, steps[1..])
  }

  lemma {:induction false} RunNotes(m: M, steps: seq<Step>)
    requires Ready(m, steps)
    ensures RunSteps(m, steps).e == NoteSteps(m.e, m.s.ticks, steps)
    decreases |steps|
  {
    if steps != [] {
      FollowsItself(m);
      StepFollows(m, m, SketchOf(m), steps);
      match steps[0] {
        case In(event) => InjectedKeeps(m, event);
        case Ev(cb) => NoneCalled(m);
      }
      RunNotes(Ran(m, steps[0]), steps[1..]);
    }
  }

  lemma {:induction false} NoteSkips(e: EventsModel.Events, ticks: nat, cbs: seq<Callback>, steps: seq<Step>)
    ensures NoteSteps(e, ticks, Evs(cbs) + steps) == NoteSteps(e, ticks, steps)
    decreases |cbs|
  {
    if cbs == [] {
      assert Evs(cbs) + steps == steps;
    } else {
      assert (Evs(cbs) + steps)[1..] == Evs(cbs[1..]) + steps;
      NoteSkips(e, ticks, cbs[1..], steps);
    }
  }

  /** Machines sketched alike that wrote the same log are the same machine. */
  lemma SameSketch(m0: M, a: M, b: M, za: Sketch, zb: Sketch)
    requires Follows(m0, a, za, []) && Follows(m0, b, zb, []) && a.e == b.e
    ensures a == b <==> (
      && za.r == zb.r && za.port == zb.port && za.p == zb.p && za.t == zb.t
      && var q0 := NotDue(m0.s.queue, m0.s.ticks);
         InsertAll(q0, za.added) == InsertAll(q0, zb.added))
  {
    NoneDueLeft(a.s);
    NoneDueLeft(b.s);
    assert a.s == b.s <==> a.s.queue == b.s.queue;
    assert a.k == b.k <==> za.r == zb.r && za.port == zb.port by {
      assert PortOf(a.k) == za.port && PortOf(b.k) == zb.port;
    }
  }

  lemma NoneDueLeft(s: Sched)
    requires DueList(s.queue, s.ticks) == []
    ensures NotDue(s.queue, s.ticks) == s.queue
  {
  }
}
