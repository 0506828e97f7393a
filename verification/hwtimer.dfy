/** core/hwtimer.c: the interval timer. */
module HwTimerModel {
  import opened Scheduler

  import TimetrackPool
  import PicModel

  const PIT_TICK_RATE := 1193182
  const HWTIMER_PTR := 2

  /** The longest delay a counter can ask for. */
  const MAX_DELAY := 0x10000 * TICKS_PER_SECOND / PIT_TICK_RATE

  datatype Pit = Pit(
    cntr: nat, delay: nat, start: nat, readLatch: nat, writeLatch: nat, mode: nat,
    readState: nat, writeState: nat, bcd: bool, goReadLatch: bool, newMode: bool,
    counterstatusSet: bool, counting: bool, updateCount: bool)

  datatype Timer = Timer(pit: seq<Pit>, gate2: bool, latchedStatus: nat, statusLocked: bool)

  /** Ticks for a counter value: the division that sets `delay`. */
  function DelayOf(cntr: nat): nat {
    cntr * TICKS_PER_SECOND / PIT_TICK_RATE
  }

  function Bin2Bcd(v: nat): nat {
    v % 10 + v / 10 % 10 * 0x10 + v / 100 % 10 * 0x100 + v / 1000 % 10 * 0x1000
  }

  function Bcd2Bin(v: nat): nat {
    v % 16 + v / 0x10 % 16 * 10 + v / 0x100 % 16 * 100 + v / 0x1000 % 16 * 1000
  }

  /** `latch | (val << 8)` on a u16 */
  function OrHighByte(latch: nat, val: nat): nat
    requires latch < 0x10000 && val < 256
  {
    latch % 256 + 256 * (if latch < 256 then val else ((latch / 256) as bv8 | val as bv8) as nat)
  }

  predicate WellFormed(t: Timer) {
    && |t.pit| == 3
    && (forall i | 0 <= i < 3 :: Sound(t.pit[i]))
  }

  /** Field widths, and the lower bound on delay that keeps every division defined. */
  predicate Sound(p: Pit) {
    && 2 <= p.delay <= MAX_DELAY && p.cntr <= 0x10000
    && p.writeLatch < 0x10000 && p.readLatch < 0x10000
    && p.readState < 4 && p.writeState < 4 && p.mode < 6
    && (p.updateCount ==> p.cntr >= 1)
  }

  /** `ticks - start` as a u64 */
  function Elapsed(p: Pit, ticks: nat): nat {
    (ticks - p.start) % TWO64
  }

  /** The counters as dp_hwtimer_init sets them. */
  const BOOT := Timer(
    [Pit(0x10000, DelayOf(0x10000), 0, 0, 0, 3, 3, 3, false, true, false, false, false, false),
     Pit(18, DelayOf(18), 0, 0, 0, 2, 1, 3, false, true, false, false, false, false),
     Pit(1320, DelayOf(1320), 0, 1320, 0, 3, 3, 3, false, true, false, false, false, false)],
    false, 0, false)

  // ----- the routines on values

  /** dp_hwtimer_pit_event */
  function PitEventFires(t: Timer, s: Sched, p: PicModel.Pic): (Timer, Sched, PicModel.Pic)
    requires |t.pit| == 3 && |p.irqs| == PicModel.IRQS
  {
    var p0, pic := t.pit[0], PicModel.Activate(p, 0);
    if p0.mode == 0 then (t, s, pic)
    else
      var p1 := Reloaded(p0);
      (t.(pit := t.pit[0 := p1]), AddEvent(s, PitEvent, HWTIMER_PTR, p1.delay), pic)
  }

  function Reloaded(p: Pit): Pit {
    var p1 := p.(start := (p.start + p.delay) % TWO64);
    if p.updateCount then p1.(delay := DelayOf(p.cntr), updateCount := false) else p1
  }

  /** counter_output */
  function CounterOutput(p: Pit, ticks: nat): bool
    requires p.delay > 0
  {
    match p.mode
    case 0 => !p.newMode && Elapsed(p, ticks) > p.delay
    case 2 => p.newMode || Elapsed(p, ticks) % p.delay > 0
    case 3 => p.newMode || Elapsed(p, ticks) % p.delay * 2 < p.delay
    case _ => true
  }

  /** The status byte of status_latch. */
  function StatusByte(p: Pit, ticks: nat): nat
    requires p.delay > 0
  {
    (if p.bcd then 0x01 else 0) + p.mode % 8 * 2
    + (match p.readState case 1 => 0x10 case 2 => 0x20 case _ => 0x30)
    + (if CounterOutput(p, ticks) then 0x80 else 0) + (if p.newMode then 0x40 else 0)
  }

  function StatusLatch(t: Timer, ticks: nat, c: nat): Timer
    requires |t.pit| == 3 && c < 3 && t.pit[c].delay > 0
  {
    if t.statusLocked then t
    else t.(latchedStatus := StatusByte(t.pit[c], ticks), statusLocked := true,
            pit := t.pit[c := t.pit[c].(counterstatusSet := true)])
  }

  /** Counter units that pass in a number of ticks. */
  function Units(ticks: nat): nat {
    ticks * PIT_TICK_RATE / TICKS_PER_SECOND
  }

  /** The value counter_latch stores; modes 2 and 3 over exact quotients. */
  function LatchValue(p: Pit, ticks: nat): nat
    requires p.delay > 0
  {
    var index := Elapsed(p, ticks);
    match p.mode
    case 0 => CountDown(p, index)
    case 4 => CountDown(p, index)
    case 1 =>
      if !p.counting then p.readLatch
      else if index > p.delay then 0xffff
      else (p.cntr - Units(index)) % 0x10000
    case 2 => Share(p, index % p.delay) % 0x10000
    case 3 =>
      var i := index % p.delay * 2;
      var v := Share(p, if i > p.delay then i - p.delay else i) % 0x10000;
      v - v % 2
    case _ => 0xffff
  }

  function CountDown(p: Pit, index: nat): nat {
    if index > p.delay then
      var past := (index - p.delay) % (TICKS_PER_SECOND * 10000 / PIT_TICK_RATE);
      ((if p.bcd then 9999 else 0xffff) - Units(past)) % 0x10000
    else (p.cntr - Units(index)) % 0x10000
  }

  /** cntr - index / delay * cntr, rounded down. */
  function Share(p: Pit, index: nat): nat
    requires p.delay > 0
  {
    if index <= p.delay then ScaledBy(p.cntr, p.delay - index, p.delay) else 0
  }

  function ScaledBy(v: nat, num: nat, den: nat): nat
    requires den > 0
  {
    v * num / den
  }

  /** counter_latch */
  function CounterLatch(t: Timer, ticks: nat, c: nat): (r: Timer)
    requires |t.pit| == 3 && c < 3 && t.pit[c].delay > 0
    ensures |r.pit| == 3
  {
    var p := t.pit[c].(goReadLatch := false);
    if c == 2 && !t.gate2 && p.mode != 1 then t.(pit := t.pit[c := p])
    else t.(pit := t.pit[c := p.(readLatch := LatchValue(p, ticks))])
  }

  /** The conversions around every use of a latch of a BCD counter. */
  function Shown(bcd: bool, v: nat): nat { if bcd then Bin2Bcd(v) % 0x10000 else v }
  function Stored(bcd: bool, v: nat): nat { if bcd then Bcd2Bin(v) else v }

  /** The byte of write_latch taken into the write latch. */
  function Latched(p: Pit, val: nat): Pit
    requires p.writeLatch < 0x10000 && val < 256
  {
    var (latch, state) := TakeIn(Shown(p.bcd, p.writeLatch), p.writeState, val);
    p.(writeLatch := Stored(p.bcd, latch), writeState := state)
  }

  function TakeIn(latch: nat, state: nat, val: nat): (nat, nat)
    requires latch < 0x10000 && val < 256
  {
    match state
    case 0 => (OrHighByte(latch, val), 3)
    case 3 => (val, 0)
    case 1 => (val, 1)
    case 2 => (val * 256, 2)
    case other => (latch, other)
  }

  /** The counter value a complete write loads. */
  function Loaded(p: Pit): nat {
    if p.writeLatch == 0 then (if p.bcd then 9999 else 0x10000) else p.writeLatch
  }

  /** In mode 2 counter 0 takes a new value only when the old one has run out. */
  predicate Deferred(p: Pit, c: nat) {
    !p.newMode && p.mode == 2 && c == 0
  }

  function LoadPit(p: Pit, c: nat, ticks: nat): Pit {
    var p1 := p.(cntr := Loaded(p));
    if Deferred(p, c) then p1.(updateCount := true)
    else p1.(start := ticks, delay := DelayOf(p1.cntr), newMode := false)
  }

  /** The event of timer 0 after a load. */
  function LoadSched(p: Pit, c: nat, s: Sched): Sched {
    if c == 0 && (p.newMode || p.mode == 0) then Rearmed(p.mode, DelayOf(Loaded(p)), s) else s
  }

  function Rearmed(mode: nat, delay: nat, s: Sched): Sched {
    AddEvent(if mode == 0 then RemoveEvent(s, PitEvent) else s, PitEvent, HWTIMER_PTR, delay)
  }

  /** write_latch */
  function WriteLatch(t: Timer, s: Sched, c: nat, val: nat): (Timer, Sched)
    requires |t.pit| == 3 && c < 3 && t.pit[c].writeLatch < 0x10000 && val < 256
  {
    var p := Latched(t.pit[c], val);
    if p.writeState == 0 then (t.(pit := t.pit[c := p]), s)
    else (t.(pit := t.pit[c := LoadPit(p, c, s.ticks)]), LoadSched(p, c, s))
  }

  /** The u16 a read takes its byte from, and what it leaves in the latch. */
  function ShownLatch(p: Pit): nat { Shown(p.bcd, p.readLatch) }

  function AfterRead(p: Pit): nat { Stored(p.bcd, ShownLatch(p)) }

  /** The state machine of read_latch: the counter after the read, and the byte. */
  function ReadByte(p: Pit): (Pit, nat) {
    var latch, p1 := ShownLatch(p), p.(readLatch := AfterRead(p));
    match p.readState
    case 0 => (p1.(readState := 3, goReadLatch := true), latch / 256)
    case 3 => (p1.(readState := 0), latch % 256)
    case 1 => (p1.(goReadLatch := true), latch % 256)
    case _ => (p1.(goReadLatch := true), latch / 256)
  }

  /** read_latch */
  function ReadLatch(t: Timer, ticks: nat, c: nat): (Timer, nat)
    requires |t.pit| == 3 && c < 3 && t.pit[c].delay > 0
  {
    if t.pit[c].counterstatusSet then
      (t.(pit := t.pit[c := t.pit[c].(counterstatusSet := false)], statusLocked := false), t.latchedStatus)
    else
      var t1 := if t.pit[c].goReadLatch then CounterLatch(t, ticks, c) else t;
      var (p, val) := ReadByte(t1.pit[c]);
      (t1.(pit := t1.pit[c := p]), val)
  }

  /** The counter a control word reprograms. */
  function Reprogrammed(p: Pit, val: nat): Pit
    requires val < 256
  {
    var bcd, mode := val % 2 == 1, ControlMode(val);
    p.(bcd := bcd, cntr := if bcd && p.cntr >= 9999 then 9999 else p.cntr,
       counterstatusSet := false, updateCount := false, counting := false,
       readState := val / 16 % 4, writeState := val / 16 % 4, newMode := true, mode := mode)
  }

  function ControlMode(val: nat): nat {
    var mode := val / 2 % 8;
    if mode > 5 then mode - 4 else mode
  }

  /** What counter_output sees in the middle of write_p43. */
  function MidReprogram(p: Pit, val: nat): Pit
    requires val < 256
  {
    if p.mode == 0 then p.(mode := ControlMode(val)) else p
  }

  /** Whether a control word for counter 0 raises IRQ 0. */
  function RaisesIrq0(p: Pit, ticks: nat, val: nat): bool
    requires p.delay > 0 && val < 256
  {
    ControlMode(val) == 0 || !CounterOutput(MidReprogram(p, val), ticks)
  }

  /** write_p43 for one counter: a latch command or a new control word. */
  function ControlWord(t: Timer, s: Sched, p: PicModel.Pic, c: nat, val: nat): (Timer, Sched, PicModel.Pic)
    requires |t.pit| == 3 && c < 3 && t.pit[c].delay > 0 && val < 256 && |p.irqs| == PicModel.IRQS
  {
    if val / 16 % 4 == 0 then (CounterLatch(t, s.ticks, c), s, p)
    else
      var t' := t.(pit := t.pit[c := Reprogrammed(t.pit[c], val)],
                   statusLocked := t.statusLocked && !t.pit[c].counterstatusSet);
      if c == 0 then
        (t', RemoveEvent(s, PitEvent),
         if RaisesIrq0(t.pit[0], s.ticks, val) then PicModel.Activate(p, 0) else p)
      else (t', s, p)
  }

  /** The counters a read-back command names, in its order. */
  function LatchSome(t: Timer, ticks: nat, val: nat): Timer
    requires WellFormed(t) && val < 256
  {
    var t0 := if val / 2 % 2 == 1 then CounterLatch(t, ticks, 0) else t;
    var t1 := if val / 4 % 2 == 1 then CounterLatch(t0, ticks, 1) else t0;
    if val / 8 % 2 == 1 then CounterLatch(t1, ticks, 2) else t1
  }

  function StatusSome(t: Timer, ticks: nat, val: nat): Timer
    requires |t.pit| == 3 && t.pit[0].delay > 0 && t.pit[1].delay > 0 && t.pit[2].delay > 0 && val < 256
  {
    if val / 2 % 2 == 1 then StatusLatch(t, ticks, 0)
    else if val / 4 % 2 == 1 then StatusLatch(t, ticks, 1)
    else if val / 8 % 2 == 1 then StatusLatch(t, ticks, 2)
    else t
  }

  /** write_p43 */
  function WriteP43(t: Timer, s: Sched, p: PicModel.Pic, val: nat): (Timer, Sched, PicModel.Pic)
    requires WellFormed(t) && val < 256 && |p.irqs| == PicModel.IRQS
  {
    if val / 64 < 3 then ControlWord(t, s, p, val / 64, val)
    else
      var t1 := if val / 32 % 2 == 0 then LatchSome(t, s.ticks, val) else t;
      (if val / 16 % 2 == 0 then StatusSome(t1, s.ticks, val) else t1, s, p)
  }

  /** dp_hwtimer_setgate2 */
  function SetGate2(t: Timer, ticks: nat, on: bool): Timer
    requires |t.pit| == 3 && t.pit[2].delay > 0
  {
    if t.gate2 == on then t
    else
      var p := t.pit[2];
      var t1 :=
        match p.mode
        case 0 =>
          if on then t.(pit := t.pit[2 := p.(start := ticks)])
          else
            var q := CounterLatch(t, ticks, 2).pit[2];
            t.(pit := t.pit[2 := q.(cntr := q.readLatch)])
        case 1 => if on then t.(pit := t.pit[2 := p.(counting := true, start := ticks)]) else t
        case 2 => if on then t.(pit := t.pit[2 := p.(start := ticks)]) else CounterLatch(t, ticks, 2)
        case 3 => if on then t.(pit := t.pit[2 := p.(start := ticks)]) else CounterLatch(t, ticks, 2)
        case _ => t;
      t1.(gate2 := on)
  }

  // ----- timer 0 never has two pending events

  /** A counter waiting for its value has no event; one running in a periodic mode
      has exactly one; none ever has two. */
  ghost predicate Inv(t: Timer, s: Sched) {
    && WellFormed(t)
    && Count(s.queue, PitEvent) <= 1
    && !t.pit[2].updateCount
    && (t.pit[0].newMode ==> Count(s.queue, PitEvent) == 0)
    && (!t.pit[0].newMode && t.pit[0].mode != 0 ==> Count(s.queue, PitEvent) == 1)
  }

  ghost predicate OnlyPitEvents(s: Sched, s': Sched) {
    OnlyChanges(s, s', PitEvent)
  }

  lemma DelayAtLeastTwo(cntr: nat)
    requires 1 <= cntr <= 0x10000
    ensures 2 <= DelayOf(cntr) <= MAX_DELAY
  {
  }

  lemma BcdBounds(v: nat)
    ensures Bin2Bcd(v) < 0x10000 && Bcd2Bin(v) < 0x10000
  {
  }

  /** The timer event, run with its entry off the queue, re-arms itself once. */
  lemma PitEventKeeps(t: Timer, s: Sched, p: PicModel.Pic)
    requires Inv(t, s) && Count(s.queue, PitEvent) == 1 && |p.irqs| == PicModel.IRQS
    ensures OnlyPitEvents(s, RemoveEvent(s, PitEvent))
    ensures var (t', s', p') := PitEventFires(t, RemoveEvent(s, PitEvent), p);
      Inv(t', s') && OnlyPitEvents(RemoveEvent(s, PitEvent), s')
  {
    RemoveChanges(s, PitEvent);
    var p1 := Reloaded(t.pit[0]);
    if t.pit[0].updateCount {
      DelayAtLeastTwo(t.pit[0].cntr);
    }
    AddChanges(RemoveEvent(s, PitEvent), PitEvent, HWTIMER_PTR, p1.delay);
  }

  lemma LatchedSound(p: Pit, val: nat)
    requires Sound(p) && val < 256
    ensures Sound(Latched(p, val))
  {
    BcdBounds(TakeIn(Shown(p.bcd, p.writeLatch), p.writeState, val).0);
  }

  lemma LoadPitSound(p: Pit, c: nat, ticks: nat)
    requires Sound(p)
    ensures var p' := LoadPit(p, c, ticks);
      Sound(p') && p'.mode == p.mode && p'.newMode == (p.newMode && Deferred(p, c))
      && (c != 0 ==> p'.updateCount == p.updateCount)
  {
    DelayAtLeastTwo(Loaded(p));
  }

  lemma LoadSchedCounts(p: Pit, c: nat, s: Sched)
    requires Sound(p) && Count(s.queue, PitEvent) <= 1 && (p.newMode ==> Count(s.queue, PitEvent) == 0)
    ensures OnlyPitEvents(s, LoadSched(p, c, s))
    ensures Count(LoadSched(p, c, s).queue, PitEvent)
      == if c == 0 && (p.newMode || p.mode == 0) then 1 else Count(s.queue, PitEvent)
  {
    hide DelayOf;
    var delay := DelayOf(Loaded(p));
    DelayAtLeastTwo(Loaded(p));
    RemoveChanges(s, PitEvent);
    AddChanges(s, PitEvent, HWTIMER_PTR, delay);
    AddChanges(RemoveEvent(s, PitEvent), PitEvent, HWTIMER_PTR, delay);
  }

  lemma WriteLatchKeeps(t: Timer, s: Sched, c: nat, val: nat)
    requires Inv(t, s) && c < 3 && val < 256
    ensures var (t', s') := WriteLatch(t, s, c, val); Inv(t', s') && OnlyPitEvents(s, s')
  {
    hide DelayOf, Latched, LoadPit, LoadSched;
    LatchedSound(t.pit[c], val);
    LatchedCounter(t.pit[c], val);
    var p := Latched(t.pit[c], val);
    LoadPitSound(p, c, s.ticks);
    if c == 0 {
      LoadSchedCounts(p, c, s);
    } else {
      LoadSchedOther(p, c, s);
    }
  }

  lemma LoadSchedOther(p: Pit, c: nat, s: Sched)
    requires c != 0
    ensures LoadSched(p, c, s) == s
  {
  }

  lemma LatchKeeps(t: Timer, ticks: nat, c: nat)
    requires WellFormed(t) && c < 3
    ensures WellFormed(CounterLatch(t, ticks, c))
    ensures CounterLatch(t, ticks, c).pit[0].newMode == t.pit[0].newMode
    ensures CounterLatch(t, ticks, c).pit[0].mode == t.pit[0].mode
    ensures CounterLatch(t, ticks, c).pit[2].updateCount == t.pit[2].updateCount
  {
    hide LatchValue;
    LatchIsWord(t.pit[c].(goReadLatch := false), ticks);
  }

  lemma LatchIsWord(p: Pit, ticks: nat)
    requires Sound(p)
    ensures LatchValue(p, ticks) < 0x10000
  {
    hide Elapsed, Share, CountDown, Units;
    CountDownIsWord(p, Elapsed(p, ticks));
  }

  lemma CountDownIsWord(p: Pit, index: nat)
    ensures CountDown(p, index) < 0x10000
  {
    hide Units;
  }

  lemma ReadByteSound(p: Pit)
    requires Sound(p)
    ensures Sound(ReadByte(p).0)
    ensures ReadByte(p).0.newMode == p.newMode && ReadByte(p).0.mode == p.mode
  {
    BcdBounds(Bin2Bcd(p.readLatch) % 0x10000);
  }

  lemma ReadLatchKeeps(t: Timer, s: Sched, c: nat)
    requires Inv(t, s) && c < 3
    ensures Inv(ReadLatch(t, s.ticks, c).0, s)
  {
    if !t.pit[c].counterstatusSet {
      LatchKeeps(t, s.ticks, c);
      ReadByteSound((if t.pit[c].goReadLatch then CounterLatch(t, s.ticks, c) else t).pit[c]);
    }
  }

  lemma ControlWordKeeps(t: Timer, s: Sched, p: PicModel.Pic, c: nat, val: nat)
    requires Inv(t, s) && c < 3 && val < 256 && |p.irqs| == PicModel.IRQS
    ensures var (t', s', p') := ControlWord(t, s, p, c, val); Inv(t', s') && OnlyPitEvents(s, s')
  {
    LatchKeeps(t, s.ticks, c);
    RemoveChanges(s, PitEvent);
  }

  lemma SetGate2Keeps(t: Timer, s: Sched, on: bool)
    requires Inv(t, s)
    ensures Inv(SetGate2(t, s.ticks, on), s)
  {
    LatchKeeps(t, s.ticks, 2);
  }

  lemma LatchSomeKeeps(t: Timer, s: Sched, val: nat)
    requires Inv(t, s) && val < 256
    ensures Inv(LatchSome(t, s.ticks, val), s)
  {
    hide CounterLatch, Count;
    LatchKeeps(t, s.ticks, 0);
    var t0 := if val / 2 % 2 == 1 then CounterLatch(t, s.ticks, 0) else t;
    LatchKeeps(t0, s.ticks, 1);
    var t1 := if val / 4 % 2 == 1 then CounterLatch(t0, s.ticks, 1) else t0;
    LatchKeeps(t1, s.ticks, 2);
  }

  lemma StatusLatchKeeps(t: Timer, s: Sched, c: nat)
    requires Inv(t, s) && c < 3
    ensures Inv(StatusLatch(t, s.ticks, c), s)
  {
  }

  lemma StatusSomeKeeps(t: Timer, s: Sched, val: nat)
    requires Inv(t, s) && val < 256
    ensures Inv(StatusSome(t, s.ticks, val), s)
  {
    StatusLatchKeeps(t, s, 0);
    StatusLatchKeeps(t, s, 1);
    StatusLatchKeeps(t, s, 2);
  }

  lemma WriteP43Keeps(t: Timer, s: Sched, p: PicModel.Pic, val: nat)
    requires Inv(t, s) && val < 256 && |p.irqs| == PicModel.IRQS
    ensures var (t', s', p') := WriteP43(t, s, p, val); Inv(t', s') && OnlyPitEvents(s, s')
  {
    if val / 64 < 3 {
      ControlWordKeeps(t, s, p, val / 64, val);
    } else {
      LatchSomeKeeps(t, s, val);
      var t1 := if val / 32 % 2 == 0 then LatchSome(t, s.ticks, val) else t;
      StatusSomeKeeps(t1, s, val);
    }
  }

  // ----- counts are faithful

  predicate BcdDigits(b: nat) {
    b % 16 < 10 && b / 16 < 10
  }

  /** The number a low and a high byte stand for. */
  function Written(bcd: bool, lo: nat, hi: nat): nat {
    if bcd then Bcd2Bin(lo + 256 * hi) else lo + 256 * hi
  }

  lemma LowByteSurvives(lo: nat, bcd: bool)
    requires lo < 256
    ensures bcd && BcdDigits(lo) ==> Bin2Bcd(Bcd2Bin(lo)) == lo
  {
    if bcd && BcdDigits(lo) {
      var a, b := lo % 16, lo / 16;
      assert Bcd2Bin(lo) == a + 10 * b;
      assert (a + 10 * b) % 10 == a && (a + 10 * b) / 10 == b;
    }
  }

  lemma WriteLoads(t: Timer, s: Sched, c: nat, val: nat)
    requires WellFormed(t) && c < 3 && val < 256
    ensures var p, p' := Latched(t.pit[c], val), WriteLatch(t, s, c, val).0.pit[c];
      && p'.writeState == p.writeState && p'.writeLatch == p.writeLatch && p'.bcd == p.bcd
      && p'.cntr == if p.writeState == 0 then t.pit[c].cntr else Loaded(p)
  {
    hide Latched, LoadSched, LoadPit, Loaded;
    LatchedCounter(t.pit[c], val);
    LoadPitFields(Latched(t.pit[c], val), c, s.ticks);
  }

  lemma LoadPitFields(p: Pit, c: nat, ticks: nat)
    ensures var p' := LoadPit(p, c, ticks);
      p'.writeState == p.writeState && p'.writeLatch == p.writeLatch && p'.bcd == p.bcd && p'.cntr == Loaded(p)
  {
  }

  lemma LatchedCounter(p: Pit, val: nat)
    requires p.writeLatch < 0x10000 && val < 256
    ensures var p' := Latched(p, val);
      p'.cntr == p.cntr && p'.bcd == p.bcd && p'.mode == p.mode && p'.newMode == p.newMode
      && p'.updateCount == p.updateCount
  {
  }

  lemma OrIntoEmptyHalf(lo: nat, hi: nat)
    requires lo < 256 && hi < 256
    ensures OrHighByte(lo, hi) == lo + 256 * hi
  {
  }

  lemma LatchedHigh(p: Pit, lo: nat, hi: nat)
    requires Sound(p) && lo < 256 && hi < 256 && p.writeState == 0
    requires p.writeLatch == Stored(p.bcd, lo)
    requires p.bcd ==> BcdDigits(lo)
    ensures Latched(p, hi) == p.(writeLatch := Written(p.bcd, lo, hi), writeState := 3)
  {
    hide Bcd2Bin, Bin2Bcd, OrHighByte;
    LowByteSurvives(lo, p.bcd);
    OrIntoEmptyHalf(lo, hi);
  }

  lemma LatchedPair(p: Pit, lo: nat, hi: nat)
    requires Sound(p) && lo < 256 && hi < 256 && p.writeState == 3
    requires p.bcd ==> BcdDigits(lo) && BcdDigits(hi)
    ensures Sound(Latched(p, lo)) && Latched(p, lo).writeState == 0
    ensures Latched(Latched(p, lo), hi)
      == p.(writeLatch := Written(p.bcd, lo, hi), writeState := 3)
  {
    LatchedSound(p, lo);
    LatchedHigh(Latched(p, lo), lo, hi);
  }

  /** A low byte and then a high byte load exactly the number written, whatever
      happens to the clock and the queue in between; zero stands for the maximum. */
  lemma TwoBytesLoad(t: Timer, s: Sched, s1: Sched, c: nat, lo: nat, hi: nat)
    requires WellFormed(t) && c < 3 && lo < 256 && hi < 256
    requires t.pit[c].writeState == 3
    requires t.pit[c].bcd ==> BcdDigits(lo) && BcdDigits(hi)
    ensures var t1 := WriteLatch(t, s, c, lo).0;
      var n := Written(t.pit[c].bcd, lo, hi);
      && t1.pit[c].writeLatch < 0x10000
      && var p := WriteLatch(t1, s1, c, hi).0.pit[c];
      && p.cntr == (if n > 0 then n else if t.pit[c].bcd then 9999 else 0x10000)
      && p.writeState == 3
  {
    LatchedPair(t.pit[c], lo, hi);
    WriteLoads(t, s, c, lo);
    var t1 := WriteLatch(t, s, c, lo).0;
    assert t1 == t.(pit := t.pit[c := Latched(t.pit[c], lo)]);
    WriteLoads(t1, s1, c, hi);
  }

  lemma HexDigits(d0: nat, d1: nat, d2: nat, d3: nat)
    requires d0 < 16 && d1 < 16 && d2 < 16 && d3 < 16
    ensures var x := d0 + d1 * 0x10 + d2 * 0x100 + d3 * 0x1000;
      x % 16 == d0 && x / 0x10 % 16 == d1 && x / 0x100 % 16 == d2 && x / 0x1000 % 16 == d3
  {
    var x := d0 + d1 * 0x10 + d2 * 0x100 + d3 * 0x1000;
    assert x / 0x10 == d1 + d2 * 0x10 + d3 * 0x100;
    assert x / 0x100 == d2 + d3 * 0x10;
    assert x / 0x1000 == d3;
  }

  lemma DecimalDigits(v: nat)
    ensures v % 10 + v / 10 % 10 * 10 + v / 100 % 10 * 100 + v / 1000 % 10 * 1000 == v % 10000
  {
    var a, b, c, d := v / 10, v / 100, v / 1000, v / 10000;
    assert b == a / 10;
    assert c == b / 10;
    assert d == c / 10;
    var d0, d1, d2, d3 := v % 10, a % 10, b % 10, c % 10;
    assert v == 10 * a + d0 && a == 10 * b + d1 && b == 10 * c + d2 && c == 10 * d + d3;
    Remainder(v, d, d0 + 10 * d1 + 100 * d2 + 1000 * d3);
  }

  lemma Remainder(v: nat, d: nat, r: nat)
    requires v == 10000 * d + r && r < 10000
    ensures v % 10000 == r
  {
  }

  lemma BcdThere(v: nat)
    ensures Bcd2Bin(Bin2Bcd(v)) == v % 10000
  {
    HexDigits(v % 10, v / 10 % 10, v / 100 % 10, v / 1000 % 10);
    DecimalDigits(v);
  }

  /** The BCD conversions around a read give the latch back exactly when it holds
      at most four decimal digits. */
  lemma ReadKeepsLatch(p: Pit)
    ensures ReadByte(p).0.readLatch == p.readLatch <==> !p.bcd || p.readLatch < 10000
  {
    hide Bcd2Bin, Bin2Bcd;
    var v := p.readLatch;
    BcdBounds(v);
    BcdThere(v);
    SmallRemainder(v);
  }

  lemma SmallRemainder(v: nat)
    ensures v % 10000 == v <==> v < 10000
  {
  }

  lemma ShareBound(v: nat, num: nat, den: nat)
    requires num <= den && den > 0
    ensures ScaledBy(v, num, den) <= v
  {
    var x := v * num / den;
    MulMonotone(v, num, den);
    assert x * den <= v * num;
    if x > v {
      MulMonotone(den, v + 1, x);
    }
  }

  lemma MulMonotone(v: nat, a: nat, b: nat)
    requires a <= b
    ensures v * a <= v * b
  {
  }

  lemma ShareFits(p: Pit, index: nat)
    requires p.delay > 0 && p.cntr <= 9999
    ensures Share(p, index) <= 9999
  {
    if index <= p.delay {
      ShareBound(p.cntr, p.delay - index, p.delay);
    }
  }

  /** Two reads of a latched counter, low byte first, give back the latched value. */
  lemma ReadsBackLatched(p: Pit)
    requires p.readState == 3 && p.readLatch < 0x10000 && (p.bcd ==> p.readLatch < 10000)
    ensures var (p1, lo) := ReadByte(p);
      var (p2, hi) := ReadByte(p1);
      Written(p.bcd, lo, hi) == p.readLatch && p2.readState == 3
  {
    ReadKeepsLatch(p);
    BcdThere(p.readLatch);
    BcdBounds(p.readLatch);
  }

  // ----- the device

  class HwTimer {
    const pit: array<Pit>
    var gate2: bool
    var latchedStatus: nat
    var statusLocked: bool
    const timetrack: TimetrackPool.Timetrack
    const pic: PicModel.PicDevice

    ghost predicate Valid()
      reads this, pit
    {
      pit.Length == 3 && WellFormed(View())
    }

    ghost function View(): Timer
      reads this, pit
    {
      Timer(pit[..], gate2, latchedStatus, statusLocked)
    }

    /** dp_hwtimer_init; the first event of timer 0 is queued by the machine. */
    constructor (timetrack: TimetrackPool.Timetrack, pic: PicModel.PicDevice)
      ensures Valid() && fresh(pit) && this.timetrack == timetrack && this.pic == pic
      ensures View() == BOOT
    {
      pit := new Pit[3](i requires 0 <= i < 3 => BOOT.pit[i]);
      gate2, latchedStatus, statusLocked := false, 0, false;
      this.timetrack, this.pic := timetrack, pic;
      new;
      DelayAtLeastTwo(0x10000);
      DelayAtLeastTwo(18);
      DelayAtLeastTwo(1320);
      assert pit[..] == BOOT.pit;
    }

    /** dp_hwtimer_pit_event */
    method FirePitEvent()
      requires Valid() && timetrack.Valid() && pic.Valid()
      requires timetrack.freeEvent != TimetrackPool.NULL_EVENT
      modifies pit, timetrack, timetrack.events, pic`irqCheck, pic.irqs
      ensures Valid() && timetrack.Valid() && pic.Valid() && timetrack.inFlight == old(timetrack.inFlight)
      ensures (View(), timetrack.View(), pic.View())
        == PitEventFires(old(View()), old(timetrack.View()), old(pic.View()))
    {
      hide DelayOf, TimetrackPool.PoolOk, PicModel.Agrees, PicModel.WellFormed;
      pic.ActivateIrq(0);
      if pit[0].mode != 0 {
        if pit[0].updateCount {
          DelayAtLeastTwo(pit[0].cntr);
        }
        var p := pit[0].(start := (pit[0].start + pit[0].delay) % TWO64);
        if p.updateCount {
          p := p.(delay := DelayOf(p.cntr), updateCount := false);
        }
        pit[0] := p;
        timetrack.AddEvent(PitEvent, HWTIMER_PTR, p.delay);
      }
    }

    /** counter_latch */
    method LatchCounter(c: nat)
      requires Valid() && c < 3
      modifies pit
      ensures Valid() && View() == CounterLatch(old(View()), timetrack.ticks, c)
    {
      LatchKeeps(View(), timetrack.ticks, c);
      pit[c] := pit[c].(goReadLatch := false);
      if c == 2 && !gate2 && pit[c].mode != 1 {
        return;
      }
      pit[c] := pit[c].(readLatch := LatchValue(pit[c], timetrack.ticks));
    }

    /** status_latch */
    method LatchStatus(c: nat)
      requires Valid() && c < 3
      modifies this`latchedStatus, this`statusLocked, pit
      ensures Valid() && View() == StatusLatch(old(View()), timetrack.ticks, c)
    {
      if !statusLocked {
        latchedStatus := StatusByte(pit[c], timetrack.ticks);
        pit[c] := pit[c].(counterstatusSet := true);
        statusLocked := true;
      }
    }

    /** read_latch */
    method ReadPort(c: nat) returns (val: nat)
      requires Valid() && c < 3
      modifies this`statusLocked, pit
      ensures Valid() && (View(), val) == ReadLatch(old(View()), timetrack.ticks, c)
    {
      if pit[c].counterstatusSet {
        pit[c] := pit[c].(counterstatusSet := false);
        statusLocked := false;
        return latchedStatus;
      }
      if pit[c].goReadLatch {
        LatchCounter(c);
      }
      hide CounterLatch, ReadByte;
      val := GiveByte(c);
    }

    /** The state machine of read_latch. */
    method GiveByte(c: nat) returns (val: nat)
      requires Valid() && c < 3
      modifies pit
      ensures Valid()
      ensures pit[..] == old(pit[..])[c := ReadByte(old(pit[c])).0] && val == ReadByte(old(pit[c])).1
    {
      ReadByteSound(pit[c]);
      hide Sound, Shown, Stored;
      var p := pit[c];
      var latch := Shown(p.bcd, p.readLatch);
      match p.readState {
        case 0 =>
          val := latch / 256;
          p := p.(readState := 3, goReadLatch := true);
        case 3 =>
          val := latch % 256;
          p := p.(readState := 0);
        case 1 =>
          val := latch % 256;
          p := p.(goReadLatch := true);
        case _ =>
          val := latch / 256;
          p := p.(goReadLatch := true);
      }
      pit[c] := p.(readLatch := Stored(p.bcd, latch));
    }

    /** The statements of write_latch before a complete value is loaded. */
    method TakeByte(c: nat, val: nat)
      requires Valid() && c < 3 && val < 256
      modifies pit
      ensures Valid() && pit[..] == old(pit[..])[c := Latched(old(pit[c]), val)]
    {
      LatchedSound(pit[c], val);
      var p := pit[c];
      var latch := Shown(p.bcd, p.writeLatch);
      match p.writeState {
        case 0 =>
          latch := OrHighByte(latch, val);
          p := p.(writeState := 3);
        case 3 =>
          latch := val;
          p := p.(writeState := 0);
        case 1 =>
          latch := val;
        case _ =>
          latch := val * 256;
      }
      pit[c] := p.(writeLatch := Stored(p.bcd, latch));
    }

    /** write_latch */
    method WritePort(c: nat, val: nat)
      requires Valid() && c < 3 && val < 256 && timetrack.Valid()
      requires |timetrack.View().queue| + 1 < TimetrackPool.MAX_EVENTS
      modifies pit, timetrack, timetrack.events
      ensures Valid() && timetrack.Valid() && timetrack.inFlight == old(timetrack.inFlight)
      ensures (View(), timetrack.View()) == WriteLatch(old(View()), old(timetrack.View()), c, val)
    {
      ghost var was := pit[..];
      TakeByte(c, val);
      if pit[c].writeState != 0 {
        LoadCounter(c);
        assert pit[..] == was[c := pit[c]];
      }
    }

    method StoreCounter(c: nat, p: Pit)
      requires Valid() && c < 3 && Sound(p)
      modifies pit
      ensures Valid() && pit[..] == old(pit[..])[c := p]
    {
      pit[c] := p;
    }

    /** The statements of write_latch that load a complete value. */
    method LoadCounter(c: nat)
      requires Valid() && c < 3 && timetrack.Valid()
      requires |timetrack.View().queue| + 1 < TimetrackPool.MAX_EVENTS
      modifies pit, timetrack, timetrack.events
      ensures Valid() && timetrack.Valid() && timetrack.inFlight == old(timetrack.inFlight)
      ensures pit[..] == old(pit[..])[c := LoadPit(old(pit[c]), c, old(timetrack.ticks))]
      ensures timetrack.View() == LoadSched(old(pit[c]), c, old(timetrack.View()))
    {
      hide DelayOf, Rearmed, Sound, Scheduler.Count, TimetrackPool.PoolOk;
      var p := pit[c];
      LoadPitSound(p, c, timetrack.ticks);
      p := p.(cntr := if p.writeLatch == 0 then (if p.bcd then 9999 else 0x10000) else p.writeLatch);
      if !p.newMode && p.mode == 2 && c == 0 {
        StoreCounter(c, p.(updateCount := true));
        return;
      }
      p := p.(start := timetrack.ticks, delay := DelayOf(p.cntr));
      StoreCounter(c, p.(newMode := false));
      if c == 0 && (p.newMode || p.mode == 0) {
        RescheduleTimer(p.mode, p.delay);
      }
    }

    /** The events of timer 0 in write_latch. */
    method RescheduleTimer(mode: nat, delay: nat)
      requires timetrack.Valid() && |timetrack.View().queue| + 1 < TimetrackPool.MAX_EVENTS
      modifies timetrack, timetrack.events
      ensures timetrack.Valid() && timetrack.inFlight == old(timetrack.inFlight)
      ensures timetrack.View() == Rearmed(mode, delay, old(timetrack.View()))
    {
      if mode == 0 {
        timetrack.RemoveEvent(PitEvent);
      }
      timetrack.HasRoom();
      timetrack.AddEvent(PitEvent, HWTIMER_PTR, delay);
    }

    /** The statements of write_p43 for one counter. */
    method Reprogram(c: nat, val: nat)
      requires Valid() && c < 3 && val < 256 && val / 16 % 4 != 0 && timetrack.Valid() && pic.Valid()
      modifies this`statusLocked, pit, timetrack, timetrack.events, pic`irqCheck, pic.irqs
      ensures Valid() && timetrack.Valid() && pic.Valid() && timetrack.inFlight == old(timetrack.inFlight)
      ensures (View(), timetrack.View(), pic.View())
        == ControlWord(old(View()), old(timetrack.View()), old(pic.View()), c, val)
    {
      hide RaisesIrq0, DelayOf, PicModel.Activate;
      var p := pit[c];
      if p.counterstatusSet {
        statusLocked := false;
      }
      if c == 0 {
        StopTimer(val);
      }
      pit[c] := Reprogrammed(p, val);
    }

    /** The part of write_p43 for the timer's event and IRQ 0. */
    method StopTimer(val: nat)
      requires Valid() && val < 256 && timetrack.Valid() && pic.Valid()
      modifies timetrack, timetrack.events, pic`irqCheck, pic.irqs
      ensures timetrack.Valid() && pic.Valid() && timetrack.inFlight == old(timetrack.inFlight)
      ensures timetrack.View() == RemoveEvent(old(timetrack.View()), PitEvent)
      ensures pic.View()
        == if RaisesIrq0(pit[0], old(timetrack.ticks), val) then PicModel.Activate(old(pic.View()), 0) else old(pic.View())
    {
      hide CounterOutput, ControlMode, DelayOf, PicModel.Activate;
      var p, mode := pit[0], ControlMode(val);
      timetrack.RemoveEvent(PitEvent);
      var mid := if p.mode == 0 then p.(mode := mode) else p;
      if mode == 0 || !CounterOutput(mid, timetrack.ticks) {
        pic.ActivateIrq(0);
      }
    }

    /** write_p43 */
    method WriteControl(val: nat)
      requires Valid() && val < 256 && timetrack.Valid() && pic.Valid()
      modifies this, pit, timetrack, timetrack.events, pic`irqCheck, pic.irqs
      ensures Valid() && timetrack.Valid() && pic.Valid() && timetrack.inFlight == old(timetrack.inFlight)
      ensures (View(), timetrack.View(), pic.View())
        == WriteP43(old(View()), old(timetrack.View()), old(pic.View()), val)
    {
      var latch := val / 64;
      if latch < 3 {
        if val / 16 % 4 == 0 {
          LatchCounter(latch);
        } else {
          Reprogram(latch, val);
        }
      } else {
        if val / 32 % 2 == 0 {
          LatchCounters(val);
        }
        if val / 16 % 2 == 0 {
          LatchStatuses(val);
        }
      }
    }

    /** dp_hwtimer_setgate2 */
    method SetGate(on: bool)
      requires Valid() && !pit[2].updateCount
      modifies this`gate2, pit
      ensures Valid() && View() == SetGate2(old(View()), timetrack.ticks, on)
    {
      hide LatchValue, DelayOf;
      if gate2 == on {
        return;
      }
      match pit[2].mode
      case 0 =>
        RestartOrLatch(on);
        if !on {
          pit[2] := pit[2].(cntr := pit[2].readLatch);
        }
        gate2 := on;
      case 1 =>
        if on {
          pit[2] := pit[2].(counting := true, start := timetrack.ticks);
        }
        gate2 := on;
      case 2 =>
        RestartOrLatch(on);
        gate2 := on;
      case 3 =>
        RestartOrLatch(on);
        gate2 := on;
      case _ =>
        gate2 := on;
    }

    method RestartOrLatch(on: bool)
      requires Valid()
      modifies pit
      ensures Valid()
      ensures View() == if on then old(View()).(pit := old(pit[..])[2 := old(pit[2]).(start := timetrack.ticks)])
                        else CounterLatch(old(View()), timetrack.ticks, 2)
    {
      if on {
        pit[2] := pit[2].(start := timetrack.ticks);
      } else {
        LatchCounter(2);
      }
    }

    method LatchCounters(val: nat)
      requires Valid() && val < 256
      modifies pit
      ensures Valid() && View() == LatchSome(old(View()), timetrack.ticks, val)
    {
      if val / 2 % 2 == 1 {
        LatchCounter(0);
      }
      if val / 4 % 2 == 1 {
        LatchCounter(1);
      }
      if val / 8 % 2 == 1 {
        LatchCounter(2);
      }
    }

    method LatchStatuses(val: nat)
      requires Valid() && val < 256
      modifies this`latchedStatus, this`statusLocked, pit
      ensures Valid() && View() == StatusSome(old(View()), timetrack.ticks, val)
    {
      if val / 2 % 2 == 1 {
        LatchStatus(0);
      } else if val / 4 % 2 == 1 {
        LatchStatus(1);
      } else if val / 8 % 2 == 1 {
        LatchStatus(2);
      }
    }
  }
}
