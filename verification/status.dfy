/** The latched status byte of core/hwtimer.c. */
module PitStatus {
  import opened Scheduler
  import opened HwTimerModel
  import opened PitRuns

  import PicModel

  // ----- the latched status

  /** The fields of a status byte: BCD, mode, access mode (1 low byte, 2 high byte, 3
      both), a count still to be loaded, and the output line. */
  lemma StatusDecodes(p: Pit, ticks: nat)
    requires Sound(p)
    ensures var b := StatusByte(p, ticks);
      && b < 256
      && (b % 2 == 1 <==> p.bcd)
      && b / 2 % 8 == p.mode
      && b / 16 % 4 == (if p.readState == 0 then 3 else p.readState)
      && (b / 64 % 2 == 1 <==> p.newMode)
      && (b / 128 == 1 <==> CounterOutput(p, ticks))
  {
    var access := if p.readState == 0 then 3 else p.readState;
    var low, high := if p.bcd then 1 else 0, if p.newMode then 1 else 0;
    var out := if CounterOutput(p, ticks) then 1 else 0;
    hide CounterOutput;
    assert StatusByte(p, ticks) == low + 2 * p.mode + 16 * access + 64 * high + 128 * out;
    Fields(low, p.mode, access, high, out);
  }

  lemma Fields(low: nat, mode: nat, access: nat, high: nat, out: nat)
    requires low < 2 && mode < 8 && access < 4 && high < 2 && out < 2
    ensures var b := low + 2 * mode + 16 * access + 64 * high + 128 * out;
      b < 256 && b % 2 == low && b / 2 % 8 == mode && b / 16 % 4 == access && b / 64 % 2 == high && b / 128 == out
  {
    var b := low + 2 * mode + 16 * access + 64 * high + 128 * out;
    assert b / 2 == mode + 8 * (access + 4 * (high + 2 * out));
    assert b / 16 == access + 4 * (high + 2 * out);
    assert b / 64 == high + 2 * out;
  }

  /** The lock is set exactly while one counter has a status to be read. */
  ghost predicate OneStatus(t: Timer) {
    && |t.pit| == 3
    && (forall c, d | 0 <= c < d < 3 :: !(t.pit[c].counterstatusSet && t.pit[d].counterstatusSet))
    && (t.statusLocked <==> exists c :: 0 <= c < 3 && t.pit[c].counterstatusSet)
  }

  /** An access that reads counter c or gives it a control word. */
  predicate Frees(a: Access, c: nat) {
    match a.op
    case Read(d) => d == c
    case Control(val) => val / 64 == c && val / 16 % 4 != 0
    case _ => false
  }

  /** A status is held for counter c. */
  predicate Holds(t: Timer, c: nat, status: nat)
    requires |t.pit| == 3
  {
    c < 3 && t.statusLocked && t.pit[c].counterstatusSet && t.latchedStatus == status
  }

  /** Nobody's status flag changes, nor the lock and the latched byte. */
  ghost predicate StatusAlone(t: Timer, t': Timer) {
    && |t.pit| == 3 == |t'.pit| && t'.statusLocked == t.statusLocked && t'.latchedStatus == t.latchedStatus
    && forall c | 0 <= c < 3 :: t'.pit[c].counterstatusSet == t.pit[c].counterstatusSet
  }

  lemma AloneKeeps(t: Timer, t': Timer, c: nat, status: nat)
    requires StatusAlone(t, t')
    ensures OneStatus(t) ==> OneStatus(t')
    ensures Holds(t, c, status) ==> Holds(t', c, status)
  {
  }

  lemma AloneAgain(t: Timer, t1: Timer, t2: Timer)
    requires StatusAlone(t, t1) && StatusAlone(t1, t2)
    ensures StatusAlone(t, t2)
  {
  }

  lemma CounterLatchAlone(t: Timer, ticks: nat, c: nat)
    requires |t.pit| == 3 && c < 3 && t.pit[c].delay > 0
    ensures StatusAlone(t, CounterLatch(t, ticks, c))
  {
    hide LatchValue;
  }

  lemma WriteAlone(t: Timer, s: Sched, c: nat, val: nat)
    requires WellFormed(t) && c < 3 && val < 256
    ensures StatusAlone(t, WriteLatch(t, s, c, val).0)
  {
    hide Latched, DelayOf, Loaded;
    LatchedLeaves(t.pit[c], val);
  }

  lemma GateAlone(t: Timer, ticks: nat, on: bool)
    requires WellFormed(t)
    ensures StatusAlone(t, SetGate2(t, ticks, on))
  {
    hide CounterLatch;
    CounterLatchAlone(t, ticks, 2);
  }

  lemma LatchSomeAlone(t: Timer, ticks: nat, val: nat)
    requires WellFormed(t) && val < 256
    ensures StatusAlone(t, LatchSome(t, ticks, val))
  {
    hide CounterLatch, StatusAlone;
    AloneItself(t);
    CounterLatchOnly(t, ticks, 0);
    CounterLatchAlone(t, ticks, 0);
    var t0 := if val / 2 % 2 == 1 then CounterLatch(t, ticks, 0) else t;
    LatchesNothing(t);
    SoundLatches(t, t0);
    AloneItself(t0);
    CounterLatchOnly(t0, ticks, 1);
    CounterLatchAlone(t0, ticks, 1);
    var t1 := if val / 4 % 2 == 1 then CounterLatch(t0, ticks, 1) else t0;
    LatchesNothing(t0);
    SoundLatches(t0, t1);
    AloneItself(t1);
    CounterLatchAlone(t1, ticks, 2);
    var t2 := if val / 8 % 2 == 1 then CounterLatch(t1, ticks, 2) else t1;
    AloneAgain(t, t0, t1);
    AloneAgain(t, t1, t2);
  }

  lemma AloneItself(t: Timer)
    requires |t.pit| == 3
    ensures StatusAlone(t, t)
  {
  }

  /** A status latch takes effect only while no status is held. */
  lemma StatusLatchIs(t: Timer, ticks: nat, c: nat, d: nat, status: nat)
    requires WellFormed(t) && OneStatus(t) && c < 3
    ensures var t' := StatusLatch(t, ticks, c);
      && OneStatus(t')
      && (if t.statusLocked then t' == t else Holds(t', c, StatusByte(t.pit[c], ticks)))
      && (Holds(t, d, status) ==> Holds(t', d, status))
  {
    hide StatusByte;
    var t' := StatusLatch(t, ticks, c);
    if !t.statusLocked {
      assert t'.pit[c].counterstatusSet;
    }
  }

  lemma StatusSomeIs(t: Timer, ticks: nat, val: nat, d: nat, status: nat)
    requires WellFormed(t) && OneStatus(t) && val < 256
    ensures var t' := StatusSome(t, ticks, val);
      OneStatus(t') && (Holds(t, d, status) ==> Holds(t', d, status))
  {
    hide StatusLatch, OneStatus, Holds;
    StatusLatchIs(t, ticks, 0, d, status);
    StatusLatchIs(t, ticks, 1, d, status);
    StatusLatchIs(t, ticks, 2, d, status);
  }

  lemma ReprogramStatus(t: Timer, s: Sched, p: PicModel.Pic, c: nat, val: nat, d: nat, status: nat)
    requires WellFormed(t) && OneStatus(t) && c < 3 && val < 256 && val / 16 % 4 != 0 && |p.irqs| == PicModel.IRQS
    ensures var t' := ControlWord(t, s, p, c, val).0;
      OneStatus(t') && (Holds(t, d, status) && d != c ==> Holds(t', d, status))
  {
    hide ControlMode;
    var t' := ControlWord(t, s, p, c, val).0;
    assert forall d | 0 <= d < 3 && d != c :: t'.pit[d] == t.pit[d];
  }

  lemma ReadByteFlag(p: Pit)
    ensures ReadByte(p).0.counterstatusSet == p.counterstatusSet
  {
    hide Shown, Stored;
  }

  lemma ReadStatus(t: Timer, ticks: nat, c: nat, d: nat, status: nat)
    requires WellFormed(t) && OneStatus(t) && c < 3
    ensures var (t', val) := ReadLatch(t, ticks, c);
      && OneStatus(t') && (Holds(t, d, status) && d != c ==> Holds(t', d, status))
      && (Holds(t, c, status) ==> val == status && !t'.statusLocked)
  {
    hide CounterLatch, ReadByte;
    CounterLatchAlone(t, ticks, c);
    AloneKeeps(t, CounterLatch(t, ticks, c), d, status);
    ReadByteFlag((if t.pit[c].goReadLatch then CounterLatch(t, ticks, c) else t).pit[c]);
    var t' := ReadLatch(t, ticks, c).0;
    assert forall d | 0 <= d < 3 && d != c :: t'.pit[d].counterstatusSet == t.pit[d].counterstatusSet;
  }

  /** An access keeps the status of every counter it does not free. */
  lemma StepStatus(t: Timer, a: Access, d: nat, status: nat)
    requires WellFormed(t) && Possible(a) && OneStatus(t)
    ensures OneStatus(Stepped(t, a))
    ensures Holds(t, d, status) && !Frees(a, d) ==> Holds(Stepped(t, a), d, status)
  {
    hide OneStatus, Holds, LatchSome, StatusSome, WriteLatch, ControlWord, ReadLatch, SetGate2, StatusAlone;
    match a.op
    case Write(c, val) =>
      WriteAlone(t, a.s, c, val);
      AloneKeeps(t, Stepped(t, a), d, status);
    case Read(c) =>
      ReadStatus(t, a.s.ticks, c, d, status);
    case Control(val) =>
      ControlStatus(t, a, d, status);
    case Gate(on) =>
      GateAlone(t, a.s.ticks, on);
      AloneKeeps(t, Stepped(t, a), d, status);
    case Fires =>
      FiresAlone(t, a);
      AloneKeeps(t, Stepped(t, a), d, status);
  }

  lemma FiresAlone(t: Timer, a: Access)
    requires WellFormed(t) && Possible(a) && a.op.Fires?
    ensures StatusAlone(t, Stepped(t, a))
  {
    hide DelayOf, Sound;
  }

  lemma ControlStatus(t: Timer, a: Access, d: nat, status: nat)
    requires WellFormed(t) && Possible(a) && OneStatus(t) && a.op.Control?
    ensures OneStatus(Stepped(t, a))
    ensures Holds(t, d, status) && !Frees(a, d) ==> Holds(Stepped(t, a), d, status)
  {
    hide OneStatus, Holds, LatchSome, StatusSome, CounterLatch, Reprogrammed, StatusAlone;
    var val, ticks := a.op.val, a.s.ticks;
    if val / 64 < 3 {
      if val / 16 % 4 == 0 {
        CounterLatchAlone(t, ticks, val / 64);
        AloneKeeps(t, Stepped(t, a), d, status);
      } else {
        ReprogramStatus(t, a.s, a.p, val / 64, val, d, status);
      }
    } else {
      var t1 := if val / 32 % 2 == 0 then LatchSome(t, ticks, val) else t;
      AloneItself(t);
      LatchSomeAlone(t, ticks, val);
      AloneKeeps(t, t1, d, status);
      LatchesNothing(t);
      LatchSomeOnly(t, ticks, val);
      SoundLatches(t, t1);
      StatusSomeIs(t1, ticks, val, d, status);
    }
  }

  lemma {:induction false} RunStatus(t: Timer, loaded: seq<nat>, run: seq<Access>, c: nat, status: nat)
    requires Kept(t, loaded) && CanRun(run) && OneStatus(t)
    ensures OneStatus(Ran(t, loaded, run).0)
    ensures Holds(t, c, status) && (forall i | 0 <= i < |run| :: !Frees(run[i], c)) ==> Holds(Ran(t, loaded, run).0, c, status)
    decreases |run|
  {
    if run != [] {
      hide Kept, OneStatus, Holds, Stepped, Noted, Frees;
      KeptIsWellFormed(t, loaded);
      StepKeeps(t, loaded, run[0]);
      StepStatus(t, run[0], c, status);
      RunStatus(Stepped(t, run[0]), Noted(t, loaded, run[0]), run[1..], c, status);
    }
  }

  /** After any run from power-on in which no status is held: status_latch holds the
      status of its counter, and whatever happens next, until that counter is read or
      gets a control word, its next read returns the status of the latch's moment and
      frees the lock. */
  lemma LatchedStatusIsRead(before: seq<Access>, c: nat, ticks: nat, run: seq<Access>, later: nat)
    requires CanRun(before) && CanRun(run) && c < 3
    requires !FromBoot(before).0.statusLocked && forall i | 0 <= i < |run| :: !Frees(run[i], c)
    ensures var (t, loaded) := FromBoot(before);
      && WellFormed(t) && Kept(StatusLatch(t, ticks, c), loaded)
      && var t' := Ran(StatusLatch(t, ticks, c), loaded, run).0;
      && WellFormed(t')
      && var (t2, val) := ReadLatch(t', later, c);
      val == StatusByte(t.pit[c], ticks) && !t2.statusLocked
  {
    hide Kept, OneStatus, Holds, Frees, StatusLatch, StatusByte;
    var (t, loaded) := FromBoot(before);
    BootKept();
    BootStatus();
    RunStatus(BOOT, BOOT_LOADS, before, c, 0);
    KeptIsWellFormed(t, loaded);
    var status := StatusByte(t.pit[c], ticks);
    StatusLatchIs(t, ticks, c, c, status);
    StatusLatchOnly(t, ticks, c);
    LatchesKeep(t, StatusLatch(t, ticks, c), loaded);
    RunStatus(StatusLatch(t, ticks, c), loaded, run, c, status);
    var (t', loaded') := Ran(StatusLatch(t, ticks, c), loaded, run);
    KeptIsWellFormed(t', loaded');
    ReadStatus(t', later, c, c, status);
  }

  lemma BootStatus()
    ensures OneStatus(BOOT)
  {
  }
}
