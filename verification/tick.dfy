/** One tick at which a user gives input while other events are due: the user's input
    comes behind all of them, the replayed input where its queue entry stands. When the
    two orders agree, and when they do not. */
module ReplayTick {
  import opened Scheduler
  import opened Machine
  import opened ReplaySame
  import opened ReplaySketch
  import opened ReplayRing

  import PicModel
  import KeyboardModel
  import HwTimerModel
  import EventsModel

  // ----- the queue decides

  /** The entries the callbacks queue themselves. */
  function Fixed(t: HwTimerModel.Timer, ticks: nat, cbs: seq<Callback>): seq<Entry>
    requires |t.pit| == 3
    decreases |cbs|
  {
    if cbs == [] then []
    else
      match cbs[0]
      case KeyboardEveryMsec => [PeriodicEntry(ticks)] + Fixed(t, ticks, cbs[1..])
      case PitEvent => TimerEntries(t, ticks) + Fixed(TimerFired(t), ticks, cbs[1..])
      case _ => Fixed(t, ticks, cbs[1..])
  }

  /** Those of them queued ahead of the first byte, which is the first input's unless
      the periodic event repeats a key. */
  function Pre(r: KeyboardModel.Repeat, t: HwTimerModel.Timer, ticks: nat, cbs: seq<Callback>): seq<Entry>
    requires |t.pit| == 3
    decreases |cbs|
  {
    if cbs == [] then []
    else
      match cbs[0]
      case KeyboardEveryMsec =>
        if RepeatsNow(r) then [] else [PeriodicEntry(ticks)] + Pre(CountedDown(r), t, ticks, cbs[1..])
      case PitEvent => TimerEntries(t, ticks) + Pre(r, TimerFired(t), ticks, cbs[1..])
      case _ => Pre(r, t, ticks, cbs[1..])
  }

  function Post(r: KeyboardModel.Repeat, t: HwTimerModel.Timer, ticks: nat, cbs: seq<Callback>): seq<Entry>
    requires |t.pit| == 3
    decreases |cbs|
  {
    if cbs == [] then []
    else
      match cbs[0]
      case KeyboardEveryMsec =>
        if RepeatsNow(r) then Fixed(t, ticks, cbs) else Post(CountedDown(r), t, ticks, cbs[1..])
      case PitEvent => Post(r, TimerFired(t), ticks, cbs[1..])
      case _ => Post(r, t, ticks, cbs[1..])
  }

  lemma {:induction false} PreAndPost(r: KeyboardModel.Repeat, t: HwTimerModel.Timer, ticks: nat, cbs: seq<Callback>)
    requires |t.pit| == 3
    ensures Pre(r, t, ticks, cbs) + Post(r, t, ticks, cbs) == Fixed(t, ticks, cbs)
    decreases |cbs|
  {
    if cbs != [] {
      hide TimerEntries, TimerFired;
      PreAndPost(r, t, ticks, cbs[1..]);
      PreAndPost(CountedDown(r), t, ticks, cbs[1..]);
      PreAndPost(r, TimerFired(t), ticks, cbs[1..]);
    }
  }

  /** A port that is awake stays so: bytes start no further transfer. */
  lemma {:induction false} AwakeAdds(z: Sketch, ticks: nat, steps: seq<Step>)
    requires |z.p.irqs| == PicModel.IRQS && |z.t.pit| == 3
    requires PortSound(z.port) && !Asleep(z.port)
    requires Transfers(EvsOf(steps)) <= 1 && (Transfers(EvsOf(steps)) == 1 ==> z.port.scheduled)
    ensures RunSketch(z, ticks, steps).added == z.added + Fixed(z.t, ticks, EvsOf(steps))
    decreases |steps|
  {
    hide RunSketch, StepSketch, TimerEntries, TimerFired, PortOk, Asleep, Fixed, Transfers, Own;
    SketchFirst(z, ticks, steps);
    if steps != [] {
      EvsFirst(z.t, ticks, steps);
      AwakeStep(z, ticks, steps[0]);
      var f, rest := StepSketch(z, ticks, steps[0]), steps[1..];
      AwakeAdds(f, ticks, rest);
      if steps[0].Ev? {
        FixedOne(z.t, ticks, steps[0].cb);
        Join(z.added, Own(z.t, ticks, steps[0].cb), Fixed(f.t, ticks, EvsOf(rest)));
      }
    } else {
      FixedOne(z.t, ticks, NoCallback);
    }
  }

  lemma EvsFirst(t: HwTimerModel.Timer, ticks: nat, steps: seq<Step>)
    requires |t.pit| == 3 && steps != []
    ensures steps[0].In? ==> EvsOf(steps) == EvsOf(steps[1..])
    ensures steps[0].Ev? ==> (
      var t' := if steps[0].cb == PitEvent then TimerFired(t) else t;
      && Transfers(EvsOf(steps)) == (if steps[0].cb == KeyboardTransfer then 1 else 0) + Transfers(EvsOf(steps[1..]))
      && Fixed(t, ticks, EvsOf(steps)) == Own(t, ticks, steps[0].cb) + Fixed(t', ticks, EvsOf(steps[1..])))
  {
    hide TimerEntries, TimerFired;
    if steps[0].Ev? {
      assert EvsOf(steps)[1..] == EvsOf(steps[1..]);
    }
  }

  lemma FixedOne(t: HwTimerModel.Timer, ticks: nat, cb: Callback)
    requires |t.pit| == 3
    ensures Fixed(t, ticks, [cb]) == Own(t, ticks, cb) && Fixed(t, ticks, []) == []
  {
    assert [cb][1..] == [];
  }

  lemma {:induction false} BytesKeepAwake(p: Port, bytes: seq<nat>)
    requires PortSound(p) && !Asleep(p)
    ensures var f := PlayAll(p, Pushes(bytes));
      PortSound(f) && !Asleep(f) && f.scheduled == p.scheduled
    decreases |bytes|
  {
    if bytes != [] {
      assert Pushes(bytes)[1..] == Pushes(bytes[1..]);
      BytesKeepAwake(Play(p, Push(bytes[0])), bytes[1..]);
    }
  }

  lemma AwakeStep(z: Sketch, ticks: nat, step: Step)
    requires |z.p.irqs| == PicModel.IRQS && |z.t.pit| == 3
    requires PortSound(z.port) && !Asleep(z.port) && (step == Ev(KeyboardTransfer) ==> z.port.scheduled)
    ensures var f := StepSketch(z, ticks, step);
      && PortSound(f.port) && !Asleep(f.port)
      && (step != Ev(KeyboardTransfer) ==> f.port.scheduled == z.port.scheduled)
      && f.added == z.added + (if step.Ev? then Fixed(z.t, ticks, [step.cb]) else [])
      && f.t == (if step == Ev(PitEvent) then TimerFired(z.t) else z.t)
  {
    hide PlayAll, Pushes, HwTimerModel.Reloaded, PicModel.Activate;
    match step
    case In(event) => BytesKeepAwake(z.port, Bytes(event));
    case Ev(cb) =>
      BytesKeepAwake(z.port, RepeatedBytes(z.r));
      FixedOne(z.t, ticks, cb);
  }

  /** In the user's order a sleeping port is woken by the first byte, wherever it comes. */
  lemma {:induction false} AsleepUser(z: Sketch, ticks: nat, due: seq<Callback>, first: EventsModel.UserEvent,
                                      rest: seq<EventsModel.UserEvent>)
    requires |z.p.irqs| == PicModel.IRQS && |z.t.pit| == 3
    requires PortSound(z.port) && Asleep(z.port) && Bytes(first) != [] && Transfers(due) == 0
    requires z.r.wait > 0 ==> z.r.key.Plain? || z.r.key.Extended?
    ensures RunSketch(z, ticks, UserSteps(due, first, rest)).added
         == z.added + (Pre(z.r, z.t, ticks, due) + [TransferEntry(ticks)] + Post(z.r, z.t, ticks, due))
    decreases |due|
  {
    hide RunSketch, StepSketch, PortOk, Asleep, TimerEntries, TimerFired, PlayAll, Pre, Post, Fixed, UserSteps, Transfers;
    var steps, k := UserSteps(due, first, rest), TransferEntry(ticks);
    UserStepsFirst(due, first, rest);
    SketchFirst(z, ticks, steps);
    PreFirst(z.r, z.t, ticks, due);
    if due == [] {
      EvsOfIns(rest);
      FirstByte(z, ticks, first, Ins(rest));
    } else {
      StepsCounted(due[1..], first, rest);
      var f := StepSketch(z, ticks, steps[0]);
      if due[0] == KeyboardEveryMsec && RepeatsNow(z.r) {
        RepeatWakes(z, ticks);
        AwakeAdds(f, ticks, steps[1..]);
        JoinWoken(z.added, k, PeriodicEntry(ticks), Fixed(z.t, ticks, due[1..]));
      } else {
        AsleepStep(z, ticks, due[0]);
        AsleepUser(f, ticks, due[1..], first, rest);
        JoinAsleep(z.added, Own(z.t, ticks, due[0]), Pre(f.r, f.t, ticks, due[1..]), k, Post(f.r, f.t, ticks, due[1..]));
      }
    }
  }

  lemma JoinWoken<T>(a: seq<T>, k: T, p: T, x: seq<T>)
    ensures (a + [k] + [p]) + x == a + ([] + [k] + ([p] + x))
  {
  }

  lemma JoinAsleep<T>(a: seq<T>, one: seq<T>, pre: seq<T>, k: T, post: seq<T>)
    ensures (a + one) + (pre + [k] + post) == a + ((one + pre) + [k] + post)
  {
  }

  lemma UserStepsFirst(due: seq<Callback>, first: EventsModel.UserEvent, rest: seq<EventsModel.UserEvent>)
    ensures UserSteps(due, first, rest) != []
    ensures due == [] ==> UserSteps(due, first, rest) == [In(first)] + Ins(rest)
    ensures due != [] ==> (
      && UserSteps(due, first, rest)[0] == Ev(due[0])
      && UserSteps(due, first, rest)[1..] == UserSteps(due[1..], first, rest)
      && Transfers(due) == (if due[0] == KeyboardTransfer then 1 else 0) + Transfers(due[1..]))
  {
  }

  /** What one callback queues for itself. */
  function Own(t: HwTimerModel.Timer, ticks: nat, cb: Callback): seq<Entry>
    requires |t.pit| == 3
  {
    match cb
    case KeyboardEveryMsec => [PeriodicEntry(ticks)]
    case PitEvent => TimerEntries(t, ticks)
    case _ => []
  }

  lemma PreFirst(r: KeyboardModel.Repeat, t: HwTimerModel.Timer, ticks: nat, due: seq<Callback>)
    requires |t.pit| == 3
    ensures due == [] ==> Pre(r, t, ticks, due) == [] == Post(r, t, ticks, due)
    ensures Fixed(t, ticks, []) == []
    ensures due != [] && due[0] == KeyboardEveryMsec && RepeatsNow(r) ==> (
      && Pre(r, t, ticks, due) == []
      && Post(r, t, ticks, due) == [PeriodicEntry(ticks)] + Fixed(t, ticks, due[1..]))
    ensures due != [] && !(due[0] == KeyboardEveryMsec && RepeatsNow(r)) ==> (
      var r' := if due[0] == KeyboardEveryMsec then CountedDown(r) else r;
      var t' := if due[0] == PitEvent then TimerFired(t) else t;
      && Pre(r, t, ticks, due) == Own(t, ticks, due[0]) + Pre(r', t', ticks, due[1..])
      && Post(r, t, ticks, due) == Post(r', t', ticks, due[1..]))
  {
    hide TimerEntries, TimerFired;
  }

  lemma SketchFirst(z: Sketch, ticks: nat, steps: seq<Step>)
    requires |z.p.irqs| == PicModel.IRQS && |z.t.pit| == 3
    ensures steps == [] ==> RunSketch(z, ticks, steps) == z
    ensures steps != [] ==> RunSketch(z, ticks, steps) == RunSketch(StepSketch(z, ticks, steps[0]), ticks, steps[1..])
  {
  }

  /** The periodic event repeats the held key into a sleeping port. */
  lemma RepeatWakes(z: Sketch, ticks: nat)
    requires |z.p.irqs| == PicModel.IRQS && |z.t.pit| == 3
    requires PortSound(z.port) && Asleep(z.port) && RepeatsNow(z.r) && (z.r.key.Plain? || z.r.key.Extended?)
    ensures var f := StepSketch(z, ticks, Ev(KeyboardEveryMsec));
      && PortSound(f.port) && !Asleep(f.port) && f.t == z.t && |f.p.irqs| == PicModel.IRQS
      && f.added == z.added + [TransferEntry(ticks)] + [PeriodicEntry(ticks)]
  {
    BytesWake(z.port, RepeatedBytes(z.r));
  }

  lemma BytesWake(p: Port, bytes: seq<nat>)
    requires PortSound(p) && Asleep(p) && bytes != []
    ensures PortSound(PlayAll(p, Pushes(bytes))) && !Asleep(PlayAll(p, Pushes(bytes)))
  {
    assert Pushes(bytes)[1..] == Pushes(bytes[1..]);
    BytesKeepAwake(Play(p, Push(bytes[0])), bytes[1..]);
  }

  /** The first input with bytes wakes the port; what follows starts no transfer. */
  lemma FirstByte(z: Sketch, ticks: nat, first: EventsModel.UserEvent, steps: seq<Step>)
    requires |z.p.irqs| == PicModel.IRQS && |z.t.pit| == 3
    requires PortSound(z.port) && Asleep(z.port) && Bytes(first) != [] && Transfers(EvsOf(steps)) == 0
    ensures RunSketch(z, ticks, [In(first)] + steps).added
         == z.added + ([TransferEntry(ticks)] + Fixed(z.t, ticks, EvsOf(steps)))
  {
    hide Fixed, PlayAll, Pushes, PortOk, Transfers, Bytes;
    assert ([In(first)] + steps)[1..] == steps;
    BytesWake(z.port, Bytes(first));
    AwakeAdds(StepSketch(z, ticks, In(first)), ticks, steps);
    Join(z.added, [TransferEntry(ticks)], Fixed(z.t, ticks, EvsOf(steps)));
  }

  lemma AsleepStep(z: Sketch, ticks: nat, cb: Callback)
    requires |z.p.irqs| == PicModel.IRQS && |z.t.pit| == 3
    requires PortSound(z.port) && Asleep(z.port) && cb != KeyboardTransfer
    requires !(cb == KeyboardEveryMsec && RepeatsNow(z.r))
    ensures var f := StepSketch(z, ticks, Ev(cb));
      && f.port == z.port && f.r == (if cb == KeyboardEveryMsec then CountedDown(z.r) else z.r)
      && f.t == (if cb == PitEvent then TimerFired(z.t) else z.t)
      && f.added == z.added + Own(z.t, ticks, cb)
  {
    hide HwTimerModel.Reloaded, PicModel.Activate;
  }

  // ----- where a late entry stands

  lemma InsertSwap(q: seq<Entry>, a: Entry, b: Entry)
    requires a.time != b.time
    ensures Insert(Insert(q, a), b) == Insert(Insert(q, b), a)
  {
    if q != [] && q[0].time <= a.time && q[0].time <= b.time {
      InsertSwap(q[1..], a, b);
      assert ([q[0]] + Insert(q[1..], a))[1..] == Insert(q[1..], a);
      assert ([q[0]] + Insert(q[1..], b))[1..] == Insert(q[1..], b);
    } else {
      InsertSwapHere(q, if a.time < b.time then a else b, if a.time < b.time then b else a);
    }
  }

  lemma InsertSwapHere(q: seq<Entry>, a: Entry, b: Entry)
    requires a.time < b.time && (q == [] || q[0].time > a.time)
    ensures Insert(Insert(q, a), b) == [a] + Insert(q, b) == Insert(Insert(q, b), a)
  {
    assert ([a] + q)[1..] == q;
  }

  /** An entry can be put in first if no entry put in before it has its time. */
  lemma {:induction false} MoveFront(q: seq<Entry>, es: seq<Entry>, k: Entry)
    requires forall i | 0 <= i < |es| :: es[i].time != k.time
    ensures InsertAll(q, es + [k]) == InsertAll(q, [k] + es)
    decreases |es|
  {
    if es == [] {
      assert es + [k] == [k] + es;
    } else {
      assert (es + [k])[1..] == es[1..] + [k];
      MoveFront(Insert(q, es[0]), es[1..], k);
      InsertAllOne(Insert(q, es[0]), k, es[1..]);
      InsertAllOne(q, k, es);
      InsertSwap(q, es[0], k);
    }
  }

  lemma InsertAllOne(q: seq<Entry>, k: Entry, es: seq<Entry>)
    ensures InsertAll(q, [k] + es) == InsertAll(Insert(q, k), es)
  {
    assert ([k] + es)[1..] == es;
  }

  /** The entries of one time, in queue order. */
  function AtTime(q: seq<Entry>, time: nat): seq<Entry> {
    if q == [] then [] else (if q[0].time == time then [q[0]] else []) + AtTime(q[1..], time)
  }

  lemma NoneAt(q: seq<Entry>, time: nat)
    requires forall i | 0 <= i < |q| :: q[i].time > time
    ensures AtTime(q, time) == []
  {
    if q != [] {
      NoneAt(q[1..], time);
    }
  }

  lemma AtTimeInsert(q: seq<Entry>, e: Entry, time: nat)
    requires Sorted(q)
    ensures AtTime(Insert(q, e), time) == AtTime(q, time) + if e.time == time then [e] else []
  {
    if q == [] || q[0].time > e.time {
      assert ([e] + q)[1..] == q;
      if e.time == time {
        NoneAt(q, time);
      }
    } else {
      AtTimeInsert(q[1..], e, time);
      assert ([q[0]] + Insert(q[1..], e))[1..] == Insert(q[1..], e);
    }
  }

  lemma InsertSorted(q: seq<Entry>, e: Entry)
    requires Sorted(q)
    ensures Sorted(Insert(q, e))
  {
    var _ := InsertIsStable(q, e);
  }

  lemma AtTimeFirst(es: seq<Entry>, time: nat)
    requires es != []
    ensures AtTime(es, time) == (if es[0].time == time then [es[0]] else []) + AtTime(es[1..], time)
  {
  }

  lemma {:induction false} AtTimeInsertAll(q: seq<Entry>, es: seq<Entry>, time: nat)
    requires Sorted(q)
    ensures AtTime(InsertAll(q, es), time) == AtTime(q, time) + AtTime(es, time)
    decreases |es|
  {
    if es != [] {
      AtTimeInsert(q, es[0], time);
      InsertSorted(q, es[0]);
      AtTimeInsertAll(Insert(q, es[0]), es[1..], time);
      hide AtTime, Insert, Sorted;
      AtTimeFirst(es, time);
      var one := if es[0].time == time then [es[0]] else [];
      assert AtTime(q, time) + (one + AtTime(es[1..], time)) == (AtTime(q, time) + one) + AtTime(es[1..], time);
    }
  }

  lemma {:induction false} AtTimeBoth(a: seq<Entry>, b: seq<Entry>, time: nat)
    ensures AtTime(a + b, time) == AtTime(a, time) + AtTime(b, time)
    decreases |a|
  {
    if a == [] {
      assert a + b == b;
    } else {
      assert (a + b)[1..] == a[1..] + b;
      AtTimeBoth(a[1..], b, time);
      Join(if a[0].time == time then [a[0]] else [], AtTime(a[1..], time), AtTime(b, time));
    }
  }

  predicate TiesWith(es: seq<Entry>, k: Entry) {
    exists i :: 0 <= i < |es| && es[i].time == k.time
  }

  lemma {:induction false} TiesAtTime(es: seq<Entry>, k: Entry)
    ensures AtTime(es, k.time) != [] <==> TiesWith(es, k)
    ensures forall i | 0 <= i < |AtTime(es, k.time)| :: AtTime(es, k.time)[i] in es
  {
    if es != [] {
      TiesAtTime(es[1..], k);
      if TiesWith(es, k) && es[0].time != k.time {
        var i :| 0 <= i < |es| && es[i].time == k.time;
        assert es[1..][i - 1] == es[i];
      }
      if TiesWith(es[1..], k) {
        var i :| 0 <= i < |es[1..]| && es[1..][i].time == k.time;
        assert es[i + 1].time == k.time;
      }
    }
  }

  /** Putting an entry in ahead of others makes a difference exactly when one of them
      has its time. */
  lemma OrderDecides(q: seq<Entry>, pre: seq<Entry>, k: Entry, post: seq<Entry>)
    requires Sorted(q) && k !in pre
    ensures InsertAll(q, pre + [k] + post) == InsertAll(q, [k] + (pre + post)) <==> !TiesWith(pre, k)
  {
    InsertAllThen(q, pre + [k], post);
    assert [k] + (pre + post) == ([k] + pre) + post;
    InsertAllThen(q, [k] + pre, post);
    if !TiesWith(pre, k) {
      MoveFront(q, pre, k);
    } else {
      TiesAtTime(pre, k);
      AtTimeInsertAll(q, pre + [k] + post, k.time);
      AtTimeInsertAll(q, [k] + (pre + post), k.time);
      AtTimeBoth(pre + [k], post, k.time);
      AtTimeBoth(pre, [k], k.time);
      AtTimeBoth([k], pre + post, k.time);
      assert AtTime([k], k.time) == [k] by {
        assert [k][1..] == [];
      }
      var n := |AtTime(q, k.time)|;
      assert (AtTime(q, k.time) + AtTime(pre + [k] + post, k.time))[n] == AtTime(pre, k.time)[0];
      assert (AtTime(q, k.time) + AtTime([k] + (pre + post), k.time))[n] == k;
    }
  }

  // ----- the timer event against the first byte

  /** The timer event is due, and no periodic event that repeats a key stands in front. */
  predicate TimerAhead(r: KeyboardModel.Repeat, due: seq<Callback>) {
    due != [] && (due[0] == PitEvent || (!(due[0] == KeyboardEveryMsec && RepeatsNow(r)) && TimerAhead(r, due[1..])))
  }

  /** The timer event queues its next firing for the very tick of the byte's transfer,
      and one of the two orders has it in front. */
  predicate TieAgrees(k: KeyboardModel.Kbd, t: HwTimerModel.Timer, due: seq<Callback>)
    requires |t.pit| == 3
  {
    !(Asleep(PortOf(k)) && t.pit[0].mode != 0 && TimerAhead(k.repeat, due)
      && HwTimerModel.Reloaded(t.pit[0]).delay == KeyboardModel.KEYDELAY)
  }

  lemma {:induction false} NoTimerNoTie(r: KeyboardModel.Repeat, t: HwTimerModel.Timer, ticks: nat, due: seq<Callback>)
    requires |t.pit| == 3 && ticks + LONGEST < TWO64 && PitEvent !in due
    ensures !TiesWith(Pre(r, t, ticks, due), TransferEntry(ticks)) && !TimerAhead(r, due)
    decreases |due|
  {
    if due != [] {
      NoTimerNoTie(r, t, ticks, due[1..]);
      NoTimerNoTie(CountedDown(r), t, ticks, due[1..]);
      TiesFirst(PeriodicEntry(ticks), Pre(CountedDown(r), t, ticks, due[1..]), TransferEntry(ticks));
    }
  }

  lemma TiesFirst(e: Entry, es: seq<Entry>, k: Entry)
    ensures TiesWith([e] + es, k) <==> e.time == k.time || TiesWith(es, k)
  {
    if TiesWith(es, k) {
      var i :| 0 <= i < |es| && es[i].time == k.time;
      assert ([e] + es)[i + 1].time == k.time;
    }
    if TiesWith([e] + es, k) && e.time != k.time {
      var i :| 0 <= i < |[e] + es| && ([e] + es)[i].time == k.time;
      assert es[i - 1].time == k.time;
    }
    assert ([e] + es)[0] == e;
  }

  lemma AheadOfRest(r: KeyboardModel.Repeat, due: seq<Callback>)
    requires KeyboardEveryMsec !in due
    ensures TimerAhead(r, due) <==> PitEvent in due
    ensures TimerAhead(CountedDown(r), due) <==> PitEvent in due
  {
    if due != [] {
      AheadOfRest(r, due[1..]);
    }
  }

  lemma {:induction false} TiesIff(r: KeyboardModel.Repeat, t: HwTimerModel.Timer, ticks: nat, due: seq<Callback>)
    requires |t.pit| == 3 && ticks + LONGEST < TWO64 && Distinct(due) && HwTimerModel.Reloaded(t.pit[0]).delay <= LONGEST
    ensures TiesWith(Pre(r, t, ticks, due), TransferEntry(ticks))
      <==> TimerAhead(r, due) && t.pit[0].mode != 0 && HwTimerModel.Reloaded(t.pit[0]).delay == KeyboardModel.KEYDELAY
    decreases |due|
  {
    if due != [] {
      var rest := due[1..];
      assert Distinct(rest);
      match due[0]
      case KeyboardEveryMsec =>
        if !RepeatsNow(r) {
          TiesIff(CountedDown(r), t, ticks, rest);
          AheadOfRest(r, rest);
          TiesFirst(PeriodicEntry(ticks), Pre(CountedDown(r), t, ticks, rest), TransferEntry(ticks));
        }
      case PitEvent =>
        NoTimerNoTie(r, TimerFired(t), ticks, rest);
        if t.pit[0].mode != 0 {
          TiesFirst(TimerEntry(t, ticks), Pre(r, TimerFired(t), ticks, rest), TransferEntry(ticks));
        } else {
          assert [] + Pre(r, TimerFired(t), ticks, rest) == Pre(r, TimerFired(t), ticks, rest);
        }
      case _ =>
        TiesIff(r, t, ticks, rest);
    }
  }

  lemma {:induction false} PreCallbacks(r: KeyboardModel.Repeat, t: HwTimerModel.Timer, ticks: nat, due: seq<Callback>)
    requires |t.pit| == 3
    ensures TransferEntry(ticks) !in Pre(r, t, ticks, due)
    decreases |due|
  {
    if due != [] {
      hide TimerFired;
      PreCallbacks(r, t, ticks, due[1..]);
      PreCallbacks(CountedDown(r), t, ticks, due[1..]);
      PreCallbacks(r, TimerFired(t), ticks, due[1..]);
    }
  }

  // ----- what the invariant says of the events due

  lemma DueCounted(q: seq<Entry>, t: nat, cb: Callback)
    ensures cb in DueList(q, t) ==> Count(q, cb) > 0
    ensures Transfers(DueList(q, t)) <= Count(q, KeyboardTransfer)
  {
  }

  lemma {:induction false} DueDistinct(q: seq<Entry>, t: nat)
    requires forall cb: Callback :: Count(q, cb) <= 1
    ensures Distinct(DueList(q, t))
    decreases |q|
  {
    if q != [] && q[0].time <= t {
      var due := DueList(q[1..], t);
      forall cb: Callback ensures Count(q[1..], cb) <= 1 {
        assert Count(q, cb) <= 1;
      }
      DueDistinct(q[1..], t);
      DueCounted(q[1..], t, q[0].cb);
      assert q[0].cb !in due by {
        assert Count(q, q[0].cb) <= 1;
      }
      assert forall i | 0 < i < |[q[0].cb] + due| :: ([q[0].cb] + due)[i] == due[i - 1];
    }
  }

  lemma OneOfEach(m: M, cb: Callback)
    requires Inv(m)
    ensures Count(m.s.queue, cb) <= 1
  {
  }

  lemma NotDueSorted(q: seq<Entry>, t: nat)
    requires Sorted(q)
    ensures Sorted(NotDue(q, t))
  {
    if q != [] && q[0].time <= t {
      NotDueSorted(q[1..], t);
    }
  }

  lemma GoingDue(m: M)
    requires Going(m)
    ensures var due := DueList(m.s.queue, m.s.ticks);
      && Distinct(due) && Transfers(due) <= 1 && (Transfers(due) == 1 ==> m.k.scheduled)
      && Sorted(NotDue(m.s.queue, m.s.ticks)) && PortSound(PortOf(m.k))
      && |m.p.irqs| == PicModel.IRQS && |m.t.pit| == 3 && HwTimerModel.Reloaded(m.t.pit[0]).delay <= LONGEST
  {
    hide DueList, NotDue, Transfers, HwTimerModel.Reloaded;
    forall cb: Callback ensures Count(m.s.queue, cb) <= 1 {
      OneOfEach(m, cb);
    }
    DueDistinct(m.s.queue, m.s.ticks);
    DueCounted(m.s.queue, m.s.ticks, KeyboardTransfer);
    NotDueSorted(m.s.queue, m.s.ticks);
    ReloadedDelay(m.t.pit[0]);
  }

  // ----- the tick

  /** In the replay's order the first byte is in front of everything. */
  lemma AsleepReplay(z: Sketch, ticks: nat, due: seq<Callback>, first: EventsModel.UserEvent,
                     rest: seq<EventsModel.UserEvent>)
    requires |z.p.irqs| == PicModel.IRQS && |z.t.pit| == 3
    requires PortSound(z.port) && Asleep(z.port) && Bytes(first) != [] && Transfers(due) == 0
    ensures RunSketch(z, ticks, ReplaySteps(due, first, rest)).added
         == z.added + ([TransferEntry(ticks)] + Fixed(z.t, ticks, due))
  {
    hide RunSketch, Fixed, Asleep, PortOk, Bytes;
    EvsOfEvs(due);
    EvsOfIns(rest);
    EvsOfBoth(Evs(due), Ins(rest));
    assert due + [] == due;
    FirstByte(z, ticks, first, Evs(due) + Ins(rest));
  }

  /** The queues agree unless the timer event ties with the transfer. */
  lemma QueueDecides(z: Sketch, q0: seq<Entry>, ticks: nat, due: seq<Callback>, first: EventsModel.UserEvent,
                     rest: seq<EventsModel.UserEvent>)
    requires |z.p.irqs| == PicModel.IRQS && |z.t.pit| == 3 && z.added == [] && Sorted(q0)
    requires PortSound(z.port) && Bytes(first) != [] && Transfers(due) <= 1 && (Transfers(due) == 1 ==> z.port.scheduled)
    requires z.r.wait > 0 ==> z.r.key.Plain? || z.r.key.Extended?
    requires ticks + LONGEST < TWO64 && Distinct(due) && HwTimerModel.Reloaded(z.t.pit[0]).delay <= LONGEST
    ensures InsertAll(q0, RunSketch(z, ticks, UserSteps(due, first, rest)).added)
         == InsertAll(q0, RunSketch(z, ticks, ReplaySteps(due, first, rest)).added)
      <==> !(Asleep(z.port) && z.t.pit[0].mode != 0 && TimerAhead(z.r, due)
             && HwTimerModel.Reloaded(z.t.pit[0]).delay == KeyboardModel.KEYDELAY)
  {
    hide RunSketch, InsertAll, Fixed, Pre, Post, UserSteps, ReplaySteps, PortOk, Bytes, Sorted, TiesWith, TimerAhead, Distinct,
      HwTimerModel.Reloaded;
    if Asleep(z.port) {
      var k, pre, post := TransferEntry(ticks), Pre(z.r, z.t, ticks, due), Post(z.r, z.t, ticks, due);
      AsleepUser(z, ticks, due, first, rest);
      AsleepReplay(z, ticks, due, first, rest);
      PreAndPost(z.r, z.t, ticks, due);
      PreCallbacks(z.r, z.t, ticks, due);
      OrderDecides(q0, pre, k, post);
      TiesIff(z.r, z.t, ticks, due);
      assert [] + (pre + [k] + post) == pre + [k] + post;
      assert [] + ([k] + (pre + post)) == [k] + (pre + post);
    } else {
      StepsCounted(due, first, rest);
      AwakeAdds(z, ticks, UserSteps(due, first, rest));
      AwakeAdds(z, ticks, ReplaySteps(due, first, rest));
    }
  }

  /** An input without bytes does nothing to keyboard or queue. */
  lemma SilentFirst(z: Sketch, ticks: nat, due: seq<Callback>, first: EventsModel.UserEvent, rest: seq<EventsModel.UserEvent>)
    requires |z.p.irqs| == PicModel.IRQS && |z.t.pit| == 3 && Bytes(first) == []
    ensures RunSketch(z, ticks, UserSteps(due, first, rest)) == RunSketch(z, ticks, ReplaySteps(due, first, rest))
    decreases |due|
  {
    SilentStep(z, ticks, first);
    hide StepSketch, Bytes;
    assert ([In(first)] + Ins(rest))[1..] == Ins(rest);
    assert ReplaySteps(due, first, rest)[1..] == Evs(due) + Ins(rest);
    if due == [] {
      assert UserSteps(due, first, rest) == [In(first)] + Ins(rest) == ReplaySteps(due, first, rest);
    } else {
      var z1 := StepSketch(z, ticks, Ev(due[0]));
      UserStepsFirst(due, first, rest);
      SilentFirst(z1, ticks, due[1..], first, rest);
      SilentStep(z1, ticks, first);
      assert ReplaySteps(due[1..], first, rest)[1..] == Evs(due[1..]) + Ins(rest);
      assert (Evs(due) + Ins(rest))[1..] == Evs(due[1..]) + Ins(rest);
    }
  }

  lemma SilentStep(z: Sketch, ticks: nat, first: EventsModel.UserEvent)
    requires |z.p.irqs| == PicModel.IRQS && |z.t.pit| == 3 && Bytes(first) == []
    ensures StepSketch(z, ticks, In(first)) == z
  {
    assert z.added + [] == z.added;
  }

  /** The first input and the events due can change places. */
  predicate Commutes(k: KeyboardModel.Kbd, t: HwTimerModel.Timer, due: seq<Callback>, first: EventsModel.UserEvent,
                     rest: seq<EventsModel.UserEvent>)
    requires |k.ring| <= KeyboardModel.KEYBUFSIZE && |t.pit| == 3
  {
    Bytes(first) == [] || (
      && RepeatAgrees(due, first, rest)
      && RingAgrees(k.repeat, KeyboardModel.KEYBUFSIZE - |k.ring|, due, first, rest)
      && TieAgrees(k, t, due))
  }

  /** Everything but the queue, in the two orders. */
  lemma DevicesDecide(z: Sketch, ticks: nat, due: seq<Callback>, first: EventsModel.UserEvent, rest: seq<EventsModel.UserEvent>)
    requires |z.p.irqs| == PicModel.IRQS && |z.t.pit| == 3
    requires Distinct(due) && Transfers(due) <= 1 && (Transfers(due) == 1 ==> z.port.scheduled)
    requires PortSound(z.port) && Bytes(first) != [] && z.r.pause >= 2 && z.r.rate >= 2
    ensures var u := RunSketch(z, ticks, UserSteps(due, first, rest));
      var r := RunSketch(z, ticks, ReplaySteps(due, first, rest));
      && (u.r == r.r <==> RepeatAgrees(due, first, rest))
      && (u.port == r.port <==> RingAgrees(z.r, KeyboardModel.KEYBUFSIZE - |z.port.ring|, due, first, rest))
      && u.p == r.p && u.t == r.t
  {
    hide RunSketch, UserSteps, ReplaySteps, RepeatAgrees, RingAgrees, Transfers, Distinct, RepeatRun, Acts, PlayAll,
      Called, Bytes;
    var us, rs := UserSteps(due, first, rest), ReplaySteps(due, first, rest);
    StepsCounted(due, first, rest);
    RepeatOfSketch(z, ticks, us);
    RepeatOfSketch(z, ticks, rs);
    RepeatDecides(z.r, due, first, rest);
    PortOfSketch(z, ticks, us);
    PortOfSketch(z, ticks, rs);
    PortDecides(z.r, z.port, due, first, rest);
    CalledOfSketch(z, ticks, us);
    CalledOfSketch(z, ticks, rs);
  }

  /** Sketches of the two orders from one machine. */
  lemma SketchesDecide(m: M, first: EventsModel.UserEvent, rest: seq<EventsModel.UserEvent>)
    requires Going(m)
    ensures |m.k.ring| <= KeyboardModel.KEYBUFSIZE && |m.t.pit| == 3 && |m.p.irqs| == PicModel.IRQS
    ensures var due := DueList(m.s.queue, m.s.ticks);
      var u := RunSketch(SketchOf(m), m.s.ticks, UserSteps(due, first, rest));
      var r := RunSketch(SketchOf(m), m.s.ticks, ReplaySteps(due, first, rest));
      var q0 := NotDue(m.s.queue, m.s.ticks);
      Commutes(m.k, m.t, due, first, rest) <==> (
        u.r == r.r && u.port == r.port && u.p == r.p && u.t == r.t && InsertAll(q0, u.added) == InsertAll(q0, r.added))
  {
    hide DueList, NotDue, RunSketch, InsertAll, UserSteps, ReplaySteps, RepeatAgrees, RingAgrees, Transfers, Bytes,
      Distinct, Sorted, PortOk, HwTimerModel.Reloaded, TimerAhead;
    GoingDue(m);
    GoingRepeat(m);
    hide Going, PortSound;
    var z, ticks, due := SketchOf(m), m.s.ticks, DueList(m.s.queue, m.s.ticks);
    if Bytes(first) == [] {
      SilentFirst(z, ticks, due, first, rest);
    } else {
      DevicesDecide(z, ticks, due, first, rest);
      QueueDecides(z, NotDue(m.s.queue, ticks), ticks, due, first, rest);
    }
  }

  lemma GoingRepeat(m: M)
    requires Going(m)
    ensures |m.k.ring| <= KeyboardModel.KEYBUFSIZE && m.s.ticks + LONGEST < TWO64
    ensures var r := m.k.repeat; r.pause >= 2 && r.rate >= 2 && (r.wait > 0 ==> r.key.Plain? || r.key.Extended?)
  {
  }

  /** A user's first input behind the events due and a replayed one in front of them
      leave the same machine exactly when Commutes says so. */
  lemma TickExact(m: M, first: EventsModel.UserEvent, rest: seq<EventsModel.UserEvent>)
    requires Going(m)
    ensures |m.k.ring| <= KeyboardModel.KEYBUFSIZE && |m.t.pit| == 3 && Going(Injected(m, first))
    ensures InjectAll(RunEvents(m), [first] + rest) == InjectAll(RunEvents(Injected(m, first)), rest)
      <==> Commutes(m.k, m.t, DueList(m.s.queue, m.s.ticks), first, rest)
    ensures InjectAll(RunEvents(m), [first] + rest).e == InjectAll(RunEvents(Injected(m, first)), rest).e
  {
    hide RunEvents, Injected, InjectAll, Commutes, RunSketch, DueList, Follows, RunSteps, Inv, NoteSteps;
    var due := DueList(m.s.queue, m.s.ticks);
    var us, rs := UserSteps(due, first, rest), ReplaySteps(due, first, rest);
    UserInsIs(due, first, rest);
    UserOrder(m, due, [first] + rest);
    ReplayOrder(m, due, first, rest);
    RunNotes(m, us);
    RunNotes(m, rs);
    SameNotes(m.e, m.s.ticks, due, first, rest);
    FollowsItself(m);
    StepsCounted(due, first, rest);
    RunFollows(m, m, SketchOf(m), us);
    RunFollows(m, m, SketchOf(m), rs);
    SketchesDecide(m, first, rest);
    SameSketch(m, RunSteps(m, us), RunSteps(m, rs), RunSketch(SketchOf(m), m.s.ticks, us), RunSketch(SketchOf(m), m.s.ticks, rs));
  }

  lemma UserInsIs(due: seq<Callback>, first: EventsModel.UserEvent, rest: seq<EventsModel.UserEvent>)
    ensures Evs(due) + Ins([first] + rest) == UserSteps(due, first, rest)
  {
    assert Ins([first] + rest) == [In(first)] + Ins(rest);
  }

  lemma SameNotes(e: EventsModel.Events, ticks: nat, due: seq<Callback>, first: EventsModel.UserEvent, rest: seq<EventsModel.UserEvent>)
    ensures NoteSteps(e, ticks, UserSteps(due, first, rest)) == NoteSteps(e, ticks, ReplaySteps(due, first, rest))
  {
    NoteSkips(e, ticks, due, [In(first)] + Ins(rest));
    assert ([In(first)] + Ins(rest))[1..] == Ins(rest);
    assert ReplaySteps(due, first, rest)[1..] == Evs(due) + Ins(rest);
    NoteSkips(EventsModel.Note(e, ticks, first), ticks, due, Ins(rest));
  }
}
