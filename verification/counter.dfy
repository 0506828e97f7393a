/** What a latch of a counter is worth to the program that reads it: counters in BCD,
    and counts that fall. */
module PitCounter {
  import opened Scheduler
  import opened HwTimerModel
  import opened PitRuns

  import PicModel

  // ----- BCD counters

  /** A counter in BCD holds at most four digits; between the two bytes of a load its
      write latch holds two. */
  predicate FourDigits(p: Pit) {
    p.bcd ==> p.cntr <= 9999 && (p.writeState == 0 ==> p.writeLatch <= 99)
  }

  /** A byte written to a counter in BCD is two decimal digits. */
  predicate Decimal(t: Timer, a: Access)
    requires |t.pit| == 3 && Possible(a)
  {
    a.op.Write? && t.pit[a.op.c].bcd ==> BcdDigits(a.op.val)
  }

  ghost predicate AllDecimal(t: Timer, loaded: seq<nat>, run: seq<Access>)
    requires Kept(t, loaded) && CanRun(run)
    decreases |run|
  {
    run != [] ==> (
      Decimal(t, run[0])
      && (StepKeeps(t, loaded, run[0]); AllDecimal(Stepped(t, run[0]), Noted(t, loaded, run[0]), run[1..])))
  }

  lemma DigitsBound(v: nat)
    requires v % 16 < 10 && v / 0x10 % 16 < 10 && v / 0x100 % 16 < 10 && v / 0x1000 % 16 < 10
    ensures Bcd2Bin(v) <= 9999
    ensures v < 256 ==> Bcd2Bin(v) <= 99
  {
  }

  lemma TwoDigits(w: nat)
    requires w <= 99
    ensures Bin2Bcd(w) < 256 && BcdDigits(Bin2Bcd(w))
  {
    var a, b := w % 10, w / 10;
    assert w / 100 == 0 && w / 1000 == 0 && b % 10 == b;
    assert Bin2Bcd(w) == a + 16 * b;
    assert (a + 16 * b) % 16 == a && (a + 16 * b) / 16 == b;
  }

  lemma PairDigits(lo: nat, hi: nat)
    requires lo < 256 && hi < 256 && BcdDigits(lo) && BcdDigits(hi)
    ensures Bcd2Bin(lo + 256 * hi) <= 9999
  {
    var v := lo + 256 * hi;
    assert v / 0x10 == lo / 16 + 16 * hi && v / 0x100 == hi && v / 0x1000 == hi / 16;
    DigitsBound(v);
  }

  lemma TakenDigits(p: Pit, val: nat)
    requires Sound(p) && val < 256 && p.bcd && FourDigits(p) && BcdDigits(val)
    ensures Latched(p, val).writeLatch <= 9999 && FourDigits(Latched(p, val))
    ensures Latched(p, val).bcd && Latched(p, val).cntr <= 9999
  {
    hide Bcd2Bin, Bin2Bcd, OrHighByte;
    match p.writeState
    case 0 =>
      TwoDigits(p.writeLatch);
      OrIntoEmptyHalf(Bin2Bcd(p.writeLatch), val);
      PairDigits(Bin2Bcd(p.writeLatch), val);
    case 2 =>
      PairDigits(0, val);
    case _ =>
      OneByte(val);
  }

  lemma OneByte(val: nat)
    requires val < 256 && BcdDigits(val)
    ensures Bcd2Bin(val) <= 99
  {
    DigitsBound(val);
  }

  lemma WriteDigits(t: Timer, a: Access, c: nat)
    requires WellFormed(t) && Possible(a) && c < 3 && a.op.Write? && Decimal(t, a) && FourDigits(t.pit[c])
    ensures FourDigits(Stepped(t, a).pit[c])
  {
    hide Latched, DelayOf, BcdDigits;
    var p := t.pit[a.op.c];
    LatchedLeaves(p, a.op.val);
    if a.op.c == c && p.bcd {
      TakenDigits(p, a.op.val);
    }
  }

  lemma StepDigits(t: Timer, loaded: seq<nat>, a: Access, c: nat)
    requires Kept(t, loaded) && Possible(a) && c < 2 && Decimal(t, a) && FourDigits(t.pit[c])
    ensures WellFormed(t) && FourDigits(Stepped(t, a).pit[c])
  {
    KeptIsWellFormed(t, loaded);
    hide Kept, CounterLatch, LatchSome, StatusSome, DelayOf, BcdDigits;
    match a.op
    case Write(_, _) => WriteDigits(t, a, c);
    case Read(d) => ReadLatchOnly(t, a.s.ticks, d);
    case Control(val) =>
      if val / 64 >= 3 || val / 16 % 4 == 0 {
        ReadBackOnly(t, a.s, a.p, val);
      }
    case Gate(_) => CounterLatchOnly(t, a.s.ticks, 2);
    case Fires =>
  }

  lemma {:induction false} RunDigits(t: Timer, loaded: seq<nat>, run: seq<Access>, c: nat)
    requires Kept(t, loaded) && CanRun(run) && AllDecimal(t, loaded, run) && c < 2 && FourDigits(t.pit[c])
    ensures FourDigits(Ran(t, loaded, run).0.pit[c])
    decreases |run|
  {
    if run != [] {
      hide Kept, FourDigits, Stepped, Noted;
      StepKeeps(t, loaded, run[0]);
      StepDigits(t, loaded, run[0], c);
      RunDigits(Stepped(t, run[0]), Noted(t, loaded, run[0]), run[1..], c);
    }
  }

  /** Whether a latch of a counter in BCD fits four digits. In modes 0 and 4 it does
      not while a control word waits for its load and the old, longer delay runs
      below zero; mode 1 keeps the last latch; mode 5 is not read. */
  predicate LatchesFourDigits(p: Pit, ticks: nat) {
    match p.mode
    case 1 => p.readLatch < 10000
    case 5 => false
    case 2 => true
    case 3 => true
    case _ => !(p.newMode && Elapsed(p, ticks) <= p.delay && p.cntr < Units(Elapsed(p, ticks)) <= p.cntr + 55536)
  }

  lemma UnitsBound(index: nat)
    requires index <= MAX_DELAY
    ensures Units(index) <= 0xffff
  {
  }

  lemma UnitsMonotone(i: nat, j: nat)
    requires i <= j
    ensures Units(i) <= Units(j)
  {
  }

  lemma UnitsOfLoad(cntr: nat)
    ensures Units(DelayOf(cntr)) <= cntr
  {
  }

  lemma CountDownDigits(p: Pit, index: nat)
    requires Sound(p) && p.bcd && p.cntr <= 9999 && (p.newMode || p.delay == DelayOf(p.cntr))
    ensures CountDown(p, index) < 10000 <==> !(p.newMode && index <= p.delay && p.cntr < Units(index) <= p.cntr + 55536)
  {
    hide Units, DelayOf;
    if index <= p.delay {
      UnitsBound(index);
      UnitsMonotone(index, p.delay);
      UnitsOfLoad(p.cntr);
    } else {
      PastDigits((index - p.delay) % (TICKS_PER_SECOND * 10000 / PIT_TICK_RATE));
    }
  }

  lemma PastDigits(past: nat)
    requires past < TICKS_PER_SECOND * 10000 / PIT_TICK_RATE
    ensures Units(past) <= 9999
  {
    assert past <= 25141;
  }

  lemma LatchDigits(p: Pit, c: nat, loaded: nat, ticks: nat)
    requires Consistent(p, c, loaded) && c < 2 && p.bcd && p.cntr <= 9999
    ensures LatchValue(p, ticks) < 10000 <==> LatchesFourDigits(p, ticks)
  {
    hide CountDown, Share, DelayOf, Elapsed, Units;
    var index := Elapsed(p, ticks);
    if p.mode == 0 || p.mode == 4 {
      CountDownDigits(p, index);
    } else if p.mode == 2 {
      ShareFits(p, index % p.delay);
    } else if p.mode == 3 {
      var i := index % p.delay * 2;
      ShareFits(p, if i > p.delay then i - p.delay else i);
    }
  }

  lemma SameLatch(p: Pit, ticks: nat)
    requires p.delay > 0
    ensures LatchValue(p.(goReadLatch := false), ticks) == LatchValue(p, ticks)
  {
  }

  /** After any run from power-on whose BCD bytes are decimal: latching counter 0 or 1
      in BCD and reading the latch loses nothing exactly if the latch fits. */
  lemma LatchFitsBcd(run: seq<Access>, c: nat, ticks: nat)
    requires CanRun(run) && (BootKept(); AllDecimal(BOOT, BOOT_LOADS, run)) && c < 2
    ensures var (t, _) := FromBoot(run);
      && WellFormed(t)
      && (t.pit[c].bcd ==>
        var q := CounterLatch(t, ticks, c).pit[c];
        ReadByte(q).0.readLatch == q.readLatch <==> LatchesFourDigits(t.pit[c], ticks))
  {
    hide LatchesFourDigits, ReadByte, LatchValue, Consistent;
    BootKept();
    var (t, loaded) := FromBoot(run);
    KeptIsWellFormed(t, loaded);
    RunDigits(BOOT, BOOT_LOADS, run, c);
    if t.pit[c].bcd {
      LatchDigits(t.pit[c], c, loaded[c], ticks);
      SameLatch(t.pit[c], ticks);
      ReadKeepsLatch(CounterLatch(t, ticks, c).pit[c]);
    }
  }

  /** A latch that does not fit: counter 0 of a machine just started gets the control
      word for BCD and mode 0 and is latched before its load; the count 35763 comes
      out of a read as 5763. */
  lemma LatchLosesDigits(s: Sched, p: PicModel.Pic)
    requires s.ticks == 0 && |p.irqs| == PicModel.IRQS
    ensures CanRun([Access(s, p, Control(0x31))])
    ensures var (t, _) := FromBoot([Access(s, p, Control(0x31))]);
      && WellFormed(t) && t.pit[0].bcd && !LatchesFourDigits(t.pit[0], 100000)
      && var q := CounterLatch(t, 100000, 0).pit[0];
      q.readLatch == 35763 && ReadByte(q).0.readLatch == 5763
  {
    hide DelayOf, ReadByte, LatchValue, Kept;
    var a := Access(s, p, Control(0x31));
    BootKept();
    RunOne(BOOT, BOOT_LOADS, a);
    ReprogrammedBoot(s, p);
    LongestDelay();
    LosingLatch(Reprogrammed(BOOT.pit[0], 0x31));
    SameLatch(Reprogrammed(BOOT.pit[0], 0x31), 100000);
  }

  lemma LongestDelay()
    ensures DelayOf(0x10000) == 164776
  {
  }

  lemma ReprogrammedBoot(s: Sched, p: PicModel.Pic)
    requires |p.irqs| == PicModel.IRQS && WellFormed(BOOT)
    ensures Stepped(BOOT, Access(s, p, Control(0x31))).pit[0] == Reprogrammed(BOOT.pit[0], 0x31)
  {
    hide DelayOf;
  }

  lemma LosingLatch(p: Pit)
    requires p.start == 0 && p.delay == 164776 && p.cntr == 9999 && p.mode == 0 && p.bcd && p.newMode
    ensures LatchValue(p, 100000) == 35763 && !LatchesFourDigits(p, 100000)
    ensures ReadByte(p.(goReadLatch := false, readLatch := 35763)).0.readLatch == 5763
  {
    hide Bcd2Bin, Bin2Bcd;
    assert Units(100000) == 39772;
    BcdThere(35763);
    BcdBounds(35763);
  }

  lemma RunOne(t: Timer, loaded: seq<nat>, a: Access)
    requires Kept(t, loaded) && Possible(a)
    ensures CanRun([a]) && WellFormed(t) && Ran(t, loaded, [a]) == (Stepped(t, a), Noted(t, loaded, a))
  {
    hide Kept, Stepped, Noted;
    StepKeeps(t, loaded, a);
    assert [a][1..] == [];
  }

  // ----- counts fall

  /** 1500000 has an inverse modulo 596591. */
  lemma WholeMultiple(n: nat, k: nat)
    requires n * 1500000 == k * 596591
    ensures n == (k * 372865 - n * 937489) * 596591
  {
    assert n + n * 937489 * 596591 == n * 1500000 * 372865 == k * 596591 * 372865;
  }

  lemma MultiplesAreLarge(m: int)
    ensures m * 596591 <= 0 || m * 596591 >= 596591
  {
  }

  /** No number up to the largest load is a whole number of ticks. */
  lemma NeverWhole(n: nat, k: nat)
    requires 1 <= n <= 0x10000
    ensures n * TICKS_PER_SECOND != k * PIT_TICK_RATE
  {
    if n * TICKS_PER_SECOND == k * PIT_TICK_RATE {
      WholeMultiple(n, k);
      MultiplesAreLarge(k * 372865 - n * 937489);
    }
  }

  /** The delay of a load lets exactly one unit less than the load go by. */
  lemma UnitsOfDelay(n: nat)
    requires 1 <= n <= 0x10000
    ensures Units(DelayOf(n)) == n - 1
  {
    var d := DelayOf(n);
    NeverWhole(n, d);
    var r := n * TICKS_PER_SECOND - d * PIT_TICK_RATE;
    assert 0 < r < PIT_TICK_RATE;
    assert d * PIT_TICK_RATE == (n - 1) * TICKS_PER_SECOND + (TICKS_PER_SECOND - r);
  }

  /** The count a latch stands for: as in a load, 0 stands for 0x10000 if the counter
      counts from there. */
  function CountAt(p: Pit, ticks: nat): nat
    requires p.delay > 0
  {
    var v := LatchValue(p, ticks);
    if v == 0 && p.cntr == 0x10000 then 0x10000 else v
  }

  /** Up to terminal count the count lies between 0 and its start, and never rises. */
  ghost predicate NeverRises(p: Pit)
    requires p.delay > 0
  {
    forall i: nat, j: nat | Elapsed(p, i) <= Elapsed(p, j) <= p.delay ::
      CountAt(p, j) <= CountAt(p, i) <= p.cntr
  }

  lemma CountIs(p: Pit, ticks: nat)
    requires Sound(p) && p.mode in {0, 4} && Elapsed(p, ticks) <= p.delay
    ensures var u := Units(Elapsed(p, ticks));
      CountAt(p, ticks) == if u <= p.cntr then p.cntr - u else 0x10000 + p.cntr - u
    ensures Units(Elapsed(p, ticks)) <= 0xffff
  {
    hide Units, Elapsed;
    UnitsBound(Elapsed(p, ticks));
  }

  lemma ElapsedAtDelay(p: Pit)
    requires p.delay < TWO64
    ensures Elapsed(p, (p.start + p.delay) % TWO64) == p.delay
  {
    var x := p.start + p.delay;
    var r := x % TWO64;
    var q := x / TWO64;
    assert x == q * TWO64 + r;
    assert r - p.start == -q * TWO64 + p.delay;
  }

  /** The count of a mode 0 or mode 4 counter never rises exactly if its delay does not
      outlast it. */
  lemma NeverRisesIff(p: Pit)
    requires Sound(p) && p.mode in {0, 4}
    ensures NeverRises(p) <==> Units(p.delay) <= p.cntr
  {
    hide CountAt, Units, Elapsed;
    if Units(p.delay) <= p.cntr {
      forall i: nat, j: nat | Elapsed(p, i) <= Elapsed(p, j) <= p.delay
        ensures CountAt(p, j) <= CountAt(p, i) <= p.cntr
      {
        CountIs(p, i);
        CountIs(p, j);
        UnitsMonotone(Elapsed(p, i), Elapsed(p, j));
        UnitsMonotone(Elapsed(p, j), p.delay);
      }
    } else {
      var i := (p.start + p.delay) % TWO64;
      ElapsedAtDelay(p);
      CountIs(p, i);
    }
  }

  /** After any run from power-on, of a counter loaded since its control word: the
      count never rises exactly if gate pauses have taken at most one unit off the
      number loaded. Counters 0 and 1 have no gate. */
  lemma CountNeverRises(run: seq<Access>, c: nat)
    requires CanRun(run) && c < 3
    ensures var (t, loaded) := FromBoot(run);
      var p := t.pit[c];
      && p.delay > 0
      && (p.mode in {0, 4} && !p.newMode ==>
        && (NeverRises(p) <==> loaded[c] <= p.cntr + 1)
        && (c < 2 ==> NeverRises(p)))
  {
    hide Units, DelayOf, NeverRises;
    var (t, loaded) := FromBoot(run);
    var p := t.pit[c];
    if p.mode in {0, 4} && !p.newMode {
      NeverRisesIff(p);
      UnitsOfDelay(loaded[c]);
    }
  }

  /** Only a gate pause and a control word come between a count and its load. */
  predicate Unpaused(a: Access, c: nat) {
    && (a.op.Gate? ==> a.op.on)
    && (a.op.Control? ==> a.op.val / 64 != c || a.op.val / 16 % 4 == 0)
  }

  predicate SameCount(p: Pit, q: Pit) {
    q.cntr == p.cntr && q.newMode == p.newMode && q.mode == p.mode
  }

  lemma WriteUnpaused(t: Timer, loaded: seq<nat>, a: Access, c: nat)
    requires Kept(t, loaded) && Possible(a) && c < 3 && a.op.Write? && t.pit[c].cntr == loaded[c]
    ensures WellFormed(t)
    ensures var q := Stepped(t, a).pit[c];
      q.cntr == Noted(t, loaded, a)[c] && (!t.pit[c].newMode ==> !q.newMode) && q.mode == t.pit[c].mode
  {
    hide DelayOf, Latched;
    LatchedLeaves(t.pit[a.op.c], a.op.val);
  }

  lemma ReadUnpaused(t: Timer, a: Access, c: nat)
    requires WellFormed(t) && Possible(a) && c < 3 && a.op.Read?
    ensures SameCount(t.pit[c], Stepped(t, a).pit[c])
  {
    hide ReadLatch, Sound;
    ReadLatchOnly(t, a.s.ticks, a.op.c);
  }

  lemma ControlUnpaused(t: Timer, a: Access, c: nat)
    requires WellFormed(t) && Possible(a) && c < 3 && a.op.Control? && Unpaused(a, c)
    ensures SameCount(t.pit[c], Stepped(t, a).pit[c])
  {
    hide LatchSome, StatusSome, CounterLatch, Reprogrammed;
    var val := a.op.val;
    if val / 64 >= 3 || val / 16 % 4 == 0 {
      ReadBackOnly(t, a.s, a.p, val);
    }
  }

  lemma GateUnpaused(t: Timer, a: Access, c: nat)
    requires WellFormed(t) && Possible(a) && c < 3 && a.op == Gate(true)
    ensures SameCount(t.pit[c], Stepped(t, a).pit[c])
  {
    hide CounterLatch, SetGate2;
    GateOn(t, a.s.ticks);
  }

  lemma GateOn(t: Timer, ticks: nat)
    requires |t.pit| == 3 && t.pit[2].delay > 0
    ensures var q := SetGate2(t, ticks, true).pit;
      |q| == 3 && q[0] == t.pit[0] && q[1] == t.pit[1] && SameCount(t.pit[2], q[2])
  {
    hide CounterLatch;
    var p := t.pit[2];
    var p' := SetGate2(t, ticks, true).pit[2];
    assert p' == p || p' == p.(start := ticks) || p' == p.(counting := true, start := ticks);
  }

  lemma FiresUnpaused(t: Timer, a: Access, c: nat)
    requires WellFormed(t) && Possible(a) && c < 3 && a.op.Fires?
    ensures SameCount(t.pit[c], Stepped(t, a).pit[c])
  {
    hide DelayOf, Sound;
  }

  lemma StepUnpaused(t: Timer, loaded: seq<nat>, a: Access, c: nat)
    requires Kept(t, loaded) && Possible(a) && c < 3 && Unpaused(a, c)
    requires t.pit[c].cntr == loaded[c]
    ensures WellFormed(t) && Stepped(t, a).pit[c].cntr == Noted(t, loaded, a)[c]
    ensures !t.pit[c].newMode ==> !Stepped(t, a).pit[c].newMode
    ensures Stepped(t, a).pit[c].mode == t.pit[c].mode
  {
    KeptIsWellFormed(t, loaded);
    hide Stepped;
    match a.op
    case Write(_, _) => WriteUnpaused(t, loaded, a, c);
    case Read(_) => ReadUnpaused(t, a, c);
    case Control(_) => ControlUnpaused(t, a, c);
    case Gate(_) => GateUnpaused(t, a, c);
    case Fires => FiresUnpaused(t, a, c);
  }

  /** From a load on, without pauses and control words, the count never rises. */
  lemma {:induction false} UnpausedNeverRises(t: Timer, loaded: seq<nat>, run: seq<Access>, c: nat)
    requires Kept(t, loaded) && CanRun(run) && c < 3 && forall i | 0 <= i < |run| :: Unpaused(run[i], c)
    requires t.pit[c].cntr == loaded[c] && !t.pit[c].newMode && t.pit[c].mode in {0, 4}
    ensures var p := Ran(t, loaded, run).0.pit[c];
      p.delay > 0 && NeverRises(p)
    decreases |run|
  {
    hide NeverRises, Stepped, Noted, DelayOf, Unpaused, Units;
    if run == [] {
      NeverRisesIff(t.pit[c]);
      UnitsOfDelay(loaded[c]);
    } else {
      hide Kept;
      StepKeeps(t, loaded, run[0]);
      StepUnpaused(t, loaded, run[0], c);
      UnpausedNeverRises(Stepped(t, run[0]), Noted(t, loaded, run[0]), run[1..], c);
    }
  }

  // ----- a count that rises

  /** Control word 0xb0, the two bytes of 10000, and the gate on, off and on again. */
  function PausedRun(p: PicModel.Pic): seq<Access> {
    [At(0, p, Control(0xb0))] + ([At(0, p, Write(2, 0x10))] + ([At(0, p, Write(2, 0x27))] + ([At(0, p, Gate(true))]
    + ([At(20000, p, Gate(false))] + ([At(30000, p, Gate(true))] + [])))))
  }

  function At(ticks: nat, p: PicModel.Pic, op: Op): Access {
    Access(Sched(ticks, []), p, op)
  }

  lemma RanFirst(t: Timer, loaded: seq<nat>, a: Access, rest: seq<Access>)
    requires Kept(t, loaded) && CanRun(rest) && Possible(a)
    ensures CanRun([a] + rest) && WellFormed(t) && Kept(Stepped(t, a), Noted(t, loaded, a))
    ensures Ran(t, loaded, [a] + rest) == Ran(Stepped(t, a), Noted(t, loaded, a), rest)
  {
    hide Kept, Stepped, Noted;
    StepKeeps(t, loaded, a);
    assert ([a] + rest)[1..] == rest;
  }

  const UNLOADED := BOOT.pit[2].(mode := 0, newMode := true)
  const HALF_LOADED := UNLOADED.(writeLatch := 0x10, writeState := 0)
  const FULL_LOADED := UNLOADED.(writeLatch := 10000, cntr := 10000, delay := 25142, newMode := false)
  const PAUSED := FULL_LOADED.(readLatch := 2046, goReadLatch := false, cntr := 2046)
  const RESUMED := PAUSED.(start := 30000)

  lemma ToUnloaded(t: Timer, p: PicModel.Pic)
    requires WellFormed(t) && |p.irqs| == PicModel.IRQS && t.pit[2] == BOOT.pit[2]
    ensures var t' := Stepped(t, At(0, p, Control(0xb0))); t'.pit[2] == UNLOADED && t'.gate2 == t.gate2
  {
  }

  lemma ToHalfLoaded(t: Timer, p: PicModel.Pic)
    requires WellFormed(t) && |p.irqs| == PicModel.IRQS && t.pit[2] == UNLOADED
    ensures var t' := Stepped(t, At(0, p, Write(2, 0x10))); t'.pit[2] == HALF_LOADED && t'.gate2 == t.gate2
  {
  }

  lemma ToFullLoaded(t: Timer, p: PicModel.Pic)
    requires WellFormed(t) && |p.irqs| == PicModel.IRQS && t.pit[2] == HALF_LOADED
    ensures var t' := Stepped(t, At(0, p, Write(2, 0x27))); t'.pit[2] == FULL_LOADED && t'.gate2 == t.gate2
  {
    OrIntoEmptyHalf(0x10, 0x27);
  }

  lemma ToPaused(t: Timer, p: PicModel.Pic)
    requires WellFormed(t) && |p.irqs| == PicModel.IRQS && t.pit[2] == FULL_LOADED
    ensures !t.gate2 ==> (
      var t' := Stepped(t, At(0, p, Gate(true))); t'.pit[2] == FULL_LOADED && t'.gate2)
    ensures t.gate2 ==> (
      var t' := Stepped(t, At(20000, p, Gate(false))); t'.pit[2] == PAUSED && !t'.gate2)
  {
    assert Units(20000) == 7954;
  }

  lemma ToResumed(t: Timer, p: PicModel.Pic)
    requires WellFormed(t) && |p.irqs| == PicModel.IRQS && t.pit[2] == PAUSED && !t.gate2
    ensures Stepped(t, At(30000, p, Gate(true))).pit[2] == RESUMED
  {
  }

  lemma PausedRan(p: PicModel.Pic)
    requires |p.irqs| == PicModel.IRQS
    ensures CanRun(PausedRun(p)) && FromBoot(PausedRun(p)).0.pit[2] == RESUMED
  {
    hide Stepped, Noted, Kept;
    BootKept();
    KeptIsWellFormed(BOOT, BOOT_LOADS);
    var a6 := [At(30000, p, Gate(true))] + [];
    var a5 := [At(20000, p, Gate(false))] + a6;
    var a4 := [At(0, p, Gate(true))] + a5;
    var a3 := [At(0, p, Write(2, 0x27))] + a4;
    var a2 := [At(0, p, Write(2, 0x10))] + a3;
    var t0, l0 := BOOT, BOOT_LOADS;
    ToUnloaded(t0, p);
    RanFirst(t0, l0, At(0, p, Control(0xb0)), a2);
    var t1, l1 := Stepped(t0, At(0, p, Control(0xb0))), Noted(t0, l0, At(0, p, Control(0xb0)));
    KeptIsWellFormed(t1, l1);
    ToHalfLoaded(t1, p);
    RanFirst(t1, l1, At(0, p, Write(2, 0x10)), a3);
    var t2, l2 := Stepped(t1, At(0, p, Write(2, 0x10))), Noted(t1, l1, At(0, p, Write(2, 0x10)));
    KeptIsWellFormed(t2, l2);
    ToFullLoaded(t2, p);
    RanFirst(t2, l2, At(0, p, Write(2, 0x27)), a4);
    var t3, l3 := Stepped(t2, At(0, p, Write(2, 0x27))), Noted(t2, l2, At(0, p, Write(2, 0x27)));
    KeptIsWellFormed(t3, l3);
    ToPaused(t3, p);
    RanFirst(t3, l3, At(0, p, Gate(true)), a5);
    var t4, l4 := Stepped(t3, At(0, p, Gate(true))), Noted(t3, l3, At(0, p, Gate(true)));
    KeptIsWellFormed(t4, l4);
    ToPaused(t4, p);
    RanFirst(t4, l4, At(20000, p, Gate(false)), a6);
    var t5, l5 := Stepped(t4, At(20000, p, Gate(false))), Noted(t4, l4, At(20000, p, Gate(false)));
    KeptIsWellFormed(t5, l5);
    ToResumed(t5, p);
    RanFirst(t5, l5, At(30000, p, Gate(true)), []);
  }

  /** A count that does rise: counter 2 in mode 0 loaded with 10000 at tick 0, its gate
      off at tick 20000 and on again at 30000. The pause leaves 2046, the delay stays
      that of 10000, and at tick 40000 the latch has wrapped to 63605. */
  lemma PausedCountRises(p: PicModel.Pic)
    requires |p.irqs| == PicModel.IRQS
    ensures CanRun(PausedRun(p))
    ensures var q := FromBoot(PausedRun(p)).0.pit[2];
      && q.delay > 0 && q.mode == 0 && !q.newMode && q.cntr == 2046
      && Elapsed(q, 40000) <= q.delay && LatchValue(q, 40000) == 63605 && !NeverRises(q)
  {
    hide NeverRises, Stepped, Noted;
    PausedRan(p);
    assert Units(10000) == 3977 && Units(25142) == 9999;
    NeverRisesIff(RESUMED);
  }
}
