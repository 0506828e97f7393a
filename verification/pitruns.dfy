/** What the counters of core/hwtimer.c keep over any sequence of port accesses, gate
    changes and timer events. */
module PitRuns {
  import opened Scheduler
  import opened HwTimerModel

  import PicModel

  // ----- runs of the timer

  datatype Op = Write(c: nat, val: nat) | Read(c: nat) | Control(val: nat) | Gate(on: bool) | Fires

  /** An access or event of the timer at a tick, with whatever queue and interrupt
      controllers there are then. */
  datatype Access = Access(s: Sched, p: PicModel.Pic, op: Op)

  predicate Possible(a: Access) {
    && |a.p.irqs| == PicModel.IRQS
    && match a.op
       case Write(c, val) => c < 3 && val < 256
       case Read(c) => c < 3
       case Control(val) => val < 256
       case _ => true
  }

  function Stepped(t: Timer, a: Access): (r: Timer)
    requires WellFormed(t) && Possible(a)
    ensures |r.pit| == 3
  {
    match a.op
    case Write(c, val) => WriteLatch(t, a.s, c, val).0
    case Read(c) => ReadLatch(t, a.s.ticks, c).0
    case Control(val) => WriteP43(t, a.s, a.p, val).0
    case Gate(on) => SetGate2(t, a.s.ticks, on)
    case Fires => PitEventFires(t, a.s, a.p).0
  }

  // ----- what the counters keep

  /** A counter and the number it was last loaded with. The delay is that of the load
      unless a control word still waits for its load, or a load waits for the old
      count to run out; only a gate changes the count between loads. */
  predicate Consistent(p: Pit, c: nat, loaded: nat) {
    && Sound(p) && 1 <= loaded <= 0x10000
    && (!p.newMode && !p.updateCount ==> p.delay == DelayOf(loaded))
    && (p.updateCount ==> c == 0 && p.mode == 2 && !p.newMode)
    && (c < 2 && !p.newMode ==> p.cntr == loaded)
    && (c < 2 ==> !p.counting)
  }

  ghost predicate Kept(t: Timer, loaded: seq<nat>) {
    && |t.pit| == 3 && |loaded| == 3
    && forall c | 0 <= c < 3 :: Consistent(t.pit[c], c, loaded[c])
  }

  lemma KeptIsWellFormed(t: Timer, loaded: seq<nat>)
    requires Kept(t, loaded)
    ensures WellFormed(t) && |loaded| == 3
  {
  }

  /** The numbers the counters were last loaded with, after one more access. */
  function Noted(t: Timer, loaded: seq<nat>, a: Access): seq<nat>
    requires WellFormed(t) && Possible(a) && |loaded| == 3
  {
    if a.op.Write? && Latched(t.pit[a.op.c], a.op.val).writeState != 0
    then loaded[a.op.c := Loaded(Latched(t.pit[a.op.c], a.op.val))]
    else loaded
  }

  /** Fields that a latch of the count leaves alone. */
  predicate LatchOnly(p: Pit, q: Pit) {
    q.readLatch < 0x10000 && q.readState < 4
    && q == p.(readLatch := q.readLatch, readState := q.readState, goReadLatch := q.goReadLatch,
               counterstatusSet := q.counterstatusSet)
  }

  ghost predicate OnlyLatches(t: Timer, t': Timer) {
    |t.pit| == 3 == |t'.pit| && forall c | 0 <= c < 3 :: LatchOnly(t.pit[c], t'.pit[c])
  }

  lemma LatchesKeep(t: Timer, t': Timer, loaded: seq<nat>)
    requires Kept(t, loaded) && OnlyLatches(t, t')
    ensures Kept(t', loaded)
  {
  }

  lemma CounterLatchOnly(t: Timer, ticks: nat, c: nat)
    requires WellFormed(t) && c < 3
    ensures OnlyLatches(t, CounterLatch(t, ticks, c))
  {
    hide Units, Share, CountDown, DelayOf;
    LatchKeeps(t, ticks, c);
  }

  lemma LatchesAgain(t: Timer, t1: Timer, t2: Timer)
    requires OnlyLatches(t, t1) && OnlyLatches(t1, t2)
    ensures OnlyLatches(t, t2)
  {
  }

  lemma SoundLatches(t: Timer, t': Timer)
    requires WellFormed(t) && OnlyLatches(t, t')
    ensures WellFormed(t')
  {
  }

  lemma ReadByteOnly(p: Pit)
    requires Sound(p)
    ensures LatchOnly(p, ReadByte(p).0)
  {
    hide Shown, Stored;
    ReadByteSound(p);
  }

  lemma ReadLatchOnly(t: Timer, ticks: nat, c: nat)
    requires WellFormed(t) && c < 3
    ensures OnlyLatches(t, ReadLatch(t, ticks, c).0)
  {
    hide CounterLatch, ReadByte;
    CounterLatchOnly(t, ticks, c);
    if !t.pit[c].counterstatusSet {
      var t1 := if t.pit[c].goReadLatch then CounterLatch(t, ticks, c) else t;
      SoundLatches(t, t1);
      ReadByteOnly(t1.pit[c]);
    }
  }

  lemma StatusLatchOnly(t: Timer, ticks: nat, c: nat)
    requires WellFormed(t) && c < 3
    ensures OnlyLatches(t, StatusLatch(t, ticks, c))
  {
    hide StatusByte;
  }

  /** Read-back commands latch counts and a status, and nothing else. */
  lemma ReadBackOnly(t: Timer, s: Sched, p: PicModel.Pic, val: nat)
    requires WellFormed(t) && val < 256 && |p.irqs| == PicModel.IRQS && (val / 64 >= 3 || val / 16 % 4 == 0)
    ensures OnlyLatches(t, WriteP43(t, s, p, val).0)
  {
    hide CounterLatch, StatusLatch, OnlyLatches;
    LatchesNothing(t);
    if val / 64 < 3 {
      CounterLatchOnly(t, s.ticks, val / 64);
    } else {
      var t1 := if val / 32 % 2 == 0 then LatchSome(t, s.ticks, val) else t;
      LatchSomeOnly(t, s.ticks, val);
      SoundLatches(t, t1);
      StatusSomeOnly(t1, s.ticks, val);
      LatchesAgain(t, t1, StatusSome(t1, s.ticks, val));
    }
  }

  lemma LatchesNothing(t: Timer)
    requires WellFormed(t)
    ensures OnlyLatches(t, t)
  {
  }

  lemma LatchSomeOnly(t: Timer, ticks: nat, val: nat)
    requires WellFormed(t) && val < 256
    ensures OnlyLatches(t, LatchSome(t, ticks, val))
  {
    hide CounterLatch, OnlyLatches;
    LatchesNothing(t);
    CounterLatchOnly(t, ticks, 0);
    var t0 := if val / 2 % 2 == 1 then CounterLatch(t, ticks, 0) else t;
    SoundLatches(t, t0);
    LatchesNothing(t0);
    CounterLatchOnly(t0, ticks, 1);
    var t1 := if val / 4 % 2 == 1 then CounterLatch(t0, ticks, 1) else t0;
    SoundLatches(t0, t1);
    LatchesNothing(t1);
    CounterLatchOnly(t1, ticks, 2);
    var t2 := if val / 8 % 2 == 1 then CounterLatch(t1, ticks, 2) else t1;
    LatchesAgain(t, t0, t1);
    LatchesAgain(t, t1, t2);
  }

  lemma StatusSomeOnly(t: Timer, ticks: nat, val: nat)
    requires WellFormed(t) && val < 256
    ensures OnlyLatches(t, StatusSome(t, ticks, val))
  {
    hide StatusLatch, OnlyLatches;
    LatchesNothing(t);
    StatusLatchOnly(t, ticks, 0);
    StatusLatchOnly(t, ticks, 1);
    StatusLatchOnly(t, ticks, 2);
  }

  // ----- each access keeps it

  lemma ReprogramKeeps(p: Pit, c: nat, val: nat, loaded: nat)
    requires Consistent(p, c, loaded) && val < 256
    ensures Consistent(Reprogrammed(p, val), c, loaded) && Reprogrammed(p, val).newMode
  {
  }

  lemma LoadKeeps(p: Pit, c: nat, val: nat, ticks: nat, loaded: nat)
    requires Consistent(p, c, loaded) && val < 256
    ensures var q := Latched(p, val);
      Consistent(if q.writeState == 0 then q else LoadPit(q, c, ticks), c, if q.writeState == 0 then loaded else Loaded(q))
  {
    hide DelayOf, Latched;
    LatchedSound(p, val);
    LatchedLeaves(p, val);
    LoadPitSound(Latched(p, val), c, ticks);
  }

  lemma LatchedLeaves(p: Pit, val: nat)
    requires p.writeLatch < 0x10000 && val < 256
    ensures Latched(p, val) == p.(writeLatch := Latched(p, val).writeLatch, writeState := Latched(p, val).writeState)
  {
  }

  lemma WriteKeeps(t: Timer, loaded: seq<nat>, a: Access)
    requires Kept(t, loaded) && Possible(a) && a.op.Write?
    ensures WellFormed(t) && Kept(Stepped(t, a), Noted(t, loaded, a))
  {
    hide Latched, LoadPit, Loaded;
    LoadKeeps(t.pit[a.op.c], a.op.c, a.op.val, a.s.ticks, loaded[a.op.c]);
  }

  lemma ControlKeeps(t: Timer, loaded: seq<nat>, a: Access)
    requires Kept(t, loaded) && Possible(a) && a.op.Control?
    ensures WellFormed(t) && Kept(Stepped(t, a), loaded)
  {
    hide Reprogrammed, LatchSome, StatusSome, CounterLatch;
    var val := a.op.val;
    if val / 64 < 3 && val / 16 % 4 != 0 {
      ReprogramKeeps(t.pit[val / 64], val / 64, val, loaded[val / 64]);
    } else {
      ReadBackOnly(t, a.s, a.p, val);
      LatchesKeep(t, Stepped(t, a), loaded);
    }
  }

  lemma GateKeeps(t: Timer, loaded: seq<nat>, a: Access)
    requires Kept(t, loaded) && Possible(a) && a.op.Gate?
    ensures WellFormed(t) && Kept(Stepped(t, a), loaded)
  {
    hide SetGate2, DelayOf;
    GateFields(t, a.s.ticks, a.op.on);
  }

  /** A gate restarts counter 2 or stores its count. */
  lemma GateFields(t: Timer, ticks: nat, on: bool)
    requires WellFormed(t)
    ensures var q := SetGate2(t, ticks, on).pit;
      && |q| == 3 && q[0] == t.pit[0] && q[1] == t.pit[1]
      && q[2].cntr <= 0x10000 && q[2].readLatch < 0x10000
      && q[2] == t.pit[2].(start := q[2].start, counting := q[2].counting, cntr := q[2].cntr,
                           readLatch := q[2].readLatch, goReadLatch := q[2].goReadLatch)
  {
    hide CounterLatch, Sound;
    LatchedTwo(t, ticks);
    var p, q, l := t.pit[2], SetGate2(t, ticks, on).pit[2], CounterLatch(t, ticks, 2).pit[2];
    assert q == p || q == p.(start := ticks) || q == p.(counting := true, start := ticks) || q == l
      || q == l.(cntr := l.readLatch);
  }

  lemma LatchedTwo(t: Timer, ticks: nat)
    requires WellFormed(t)
    ensures var (p, l) := (t.pit[2], CounterLatch(t, ticks, 2));
      && l.pit[2].readLatch < 0x10000 && p.cntr <= 0x10000 && p.readLatch < 0x10000 && p.delay > 0
      && l == t.(pit := t.pit[2 := p.(goReadLatch := false, readLatch := l.pit[2].readLatch)])
  {
    hide LatchValue;
    LatchIsWord(t.pit[2].(goReadLatch := false), ticks);
  }

  lemma FiresKeeps(t: Timer, loaded: seq<nat>, a: Access)
    requires Kept(t, loaded) && Possible(a) && a.op.Fires?
    ensures WellFormed(t) && Kept(Stepped(t, a), loaded)
  {
    hide DelayOf;
    DelayAtLeastTwo(loaded[0]);
  }

  lemma StepKeeps(t: Timer, loaded: seq<nat>, a: Access)
    requires Kept(t, loaded) && Possible(a)
    ensures WellFormed(t) && Kept(Stepped(t, a), Noted(t, loaded, a))
  {
    hide Kept;
    KeptIsWellFormed(t, loaded);
    match a.op
    case Write(_, _) => WriteKeeps(t, loaded, a);
    case Read(c) =>
      ReadLatchOnly(t, a.s.ticks, c);
      LatchesKeep(t, Stepped(t, a), loaded);
    case Control(_) => ControlKeeps(t, loaded, a);
    case Gate(_) => GateKeeps(t, loaded, a);
    case Fires => FiresKeeps(t, loaded, a);
  }

  ghost predicate CanRun(run: seq<Access>) {
    forall i | 0 <= i < |run| :: Possible(run[i])
  }

  /** The timer after a run, and the numbers it was last loaded with. */
  ghost function Ran(t: Timer, loaded: seq<nat>, run: seq<Access>): (r: (Timer, seq<nat>))
    requires Kept(t, loaded) && CanRun(run)
    ensures Kept(r.0, r.1)
    decreases |run|
  {
    if run == [] then (t, loaded)
    else
      StepKeeps(t, loaded, run[0]);
      Ran(Stepped(t, run[0]), Noted(t, loaded, run[0]), run[1..])
  }

  const BOOT_LOADS: seq<nat> := [0x10000, 18, 1320]

  lemma BootKept()
    ensures Kept(BOOT, BOOT_LOADS)
  {
    hide DelayOf;
    DelayAtLeastTwo(0x10000);
    DelayAtLeastTwo(18);
    DelayAtLeastTwo(1320);
  }

  /** The timer after a run from power-on. */
  ghost function FromBoot(run: seq<Access>): (r: (Timer, seq<nat>))
    requires CanRun(run)
    ensures Kept(r.0, r.1)
  {
    BootKept();
    Ran(BOOT, BOOT_LOADS, run)
  }
}
