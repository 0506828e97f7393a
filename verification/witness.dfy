/** A session whose replay parts from it: from power-on, an idle guest, and a key
    pressed at a tick of the keyboard's periodic event. */
module ReplayWitness {
  import opened Basics
  import opened Scheduler
  import opened Machine
  import opened ReplaySame
  import opened ReplaySketch
  import opened RecordReplay

  import PicModel
  import KeyboardModel
  import HwTimerModel
  import EventsModel

  const PRESS_A := EventsModel.KeyboardEvent(KeyboardModel.Plain(30), false)

  /** The machine as it is started, recording. */
  ghost predicate Booted(m: M) {
    PoweredOn(m) && m.e.recordFile == Some([])
  }

  // ----- the queue without the timer's event

  /** The events of the keyboard and the replay. */
  function Others(m: M): seq<Entry> {
    Without(m.s.queue, PitEvent)
  }

  function MsecAt(t: nat): Entry { Entry(t, KeyboardEveryMsec, KeyboardModel.KEYBOARD_PTR) }

  function ReplayAt(t: nat): Entry { Entry(t, ReplayEvent, EventsModel.EVENTS_PTR) }

  lemma FirstOther(q: seq<Entry>)
    requires Sorted(q) && Without(q, PitEvent) != []
    ensures q != [] && q[0].time <= Without(q, PitEvent)[0].time
    ensures q[0].cb != PitEvent ==> q[0] == Without(q, PitEvent)[0] && Without(q[1..], PitEvent) == Without(q, PitEvent)[1..]
  {
    if q[0].cb == PitEvent {
      FirstOther(q[1..]);
    }
  }

  lemma WithoutFirst(q: seq<Entry>)
    requires q != []
    ensures Without(q, PitEvent) == (if q[0].cb == PitEvent then [] else [q[0]]) + Without(q[1..], PitEvent)
  {
  }

  /** The timer's event is no business of the keyboard's. */
  lemma FireTimer(m: M)
    requires Inv(m) && Roomy(m.s) && Due(m.s) && m.s.queue[0].cb == PitEvent
    ensures Fire(m).s.ticks == m.s.ticks && Others(Fire(m)) == Others(m) && Fire(m).k == m.k && Fire(m).e == m.e
  {
    hide HwTimerModel.DelayOf, HwTimerModel.Reloaded, Without, PicModel.Activate, Insert;
    WithoutFirst(m.s.queue);
    var p1 := HwTimerModel.Reloaded(m.t.pit[0]);
    WithoutOwnInsert(Popped(m.s).queue, Entry((m.s.ticks + p1.delay) % TWO64, PitEvent, HwTimerModel.HWTIMER_PTR));
  }

  lemma HeadOther(m: M)
    requires Inv(m) && Roomy(m.s) && Due(m.s) && m.s.queue[0].cb != PitEvent
    ensures Others(m) != [] && Others(m)[1..] == Without(Popped(m.s).queue, PitEvent)
    ensures Sorted(Popped(m.s).queue) && |m.p.irqs| == PicModel.IRQS && |m.t.pit| == 3
  {
    WithoutFirst(m.s.queue);
  }

  lemma CountsDown(k: KeyboardModel.Kbd, s: Sched)
    requires !RepeatsNow(k.repeat)
    ensures KeyboardModel.EveryMsec(k, s)
      == (k.(repeat := CountedDown(k.repeat)), AddEvent(s, KeyboardEveryMsec, KeyboardModel.KEYBOARD_PTR, KeyboardModel.MSEC))
  {
  }

  /** The periodic event when no key repeats now. */
  lemma FireMsecOnce(m: M)
    requires Inv(m) && Roomy(m.s) && Due(m.s) && m.s.queue[0].cb == KeyboardEveryMsec && !RepeatsNow(m.k.repeat)
    ensures |m.p.irqs| == PicModel.IRQS && |m.t.pit| == 3
    ensures Fire(m).s.ticks == m.s.ticks && Fire(m).e == m.e
    ensures Fire(m).k == m.k.(repeat := CountedDown(m.k.repeat))
    ensures Others(m) != [] && Others(Fire(m)) == Insert(Others(m)[1..], MsecAt(m.s.ticks + KeyboardModel.MSEC))
  {
    hide Without, Insert, Inv, KeyboardModel.EveryMsec, Sorted, RepeatsNow, CountedDown;
    HeadOther(m);
    CountsDown(m.k, Popped(m.s));
    WithoutInsert(Popped(m.s).queue, MsecAt(m.s.ticks + KeyboardModel.MSEC), PitEvent);
  }

  lemma PressIs(e: EventsModel.Events, s: Sched)
    requires e.replayFile == Some([]) && e.pending.event == PRESS_A && Roomy(s)
    ensures var (e', k', s') := EventsModel.ReplayCallback(e, KeyboardModel.BOOT, s);
      && k'.repeat == KeyboardModel.BOOT.repeat.(key := KeyboardModel.Plain(30), wait := 500)
      && s' == s.(queue := Insert(s.queue, TransferEntry(s.ticks)))
  {
    hide Insert;
  }

  /** The replay of the key press. */
  lemma FirePress(r: M)
    requires Inv(r) && Roomy(r.s) && Due(r.s) && r.s.queue[0].cb == ReplayEvent && r.k == KeyboardModel.BOOT
    requires r.e.replayFile == Some([]) && r.e.pending.event == PRESS_A
    ensures |r.p.irqs| == PicModel.IRQS && |r.t.pit| == 3
    ensures Fire(r).s.ticks == r.s.ticks && Fire(r).k.repeat == KeyboardModel.BOOT.repeat.(key := KeyboardModel.Plain(30), wait := 500)
    ensures Others(r) != [] && Others(Fire(r)) == Insert(Others(r)[1..], TransferEntry(r.s.ticks))
  {
    hide Without, Insert, Inv, EventsModel.ReplayCallback, Sorted;
    HeadOther(r);
    PressIs(r.e, Popped(r.s));
    WithoutInsert(Popped(r.s).queue, TransferEntry(r.s.ticks), PitEvent);
  }

  // ----- due checks

  predicate AllAfter(es: seq<Entry>, t: nat) {
    forall i | 0 <= i < |es| :: es[i].time > t
  }

  /** Nothing but perhaps the timer's event is due. */
  lemma {:induction false} OnlyTimerDue(m: M)
    requires Inv(m) && Roomy(m.s) && AllAfter(Others(m), m.s.ticks)
    ensures var m' := RunEvents(m); Others(m') == Others(m) && m'.k == m.k && m'.e == m.e
    decreases FileLeft(m.e), DueCount(m.s.queue, m.s.ticks)
  {
    hide RunEvents, Fire, Others;
    if Due(m.s) {
      HeadIsTimer(m);
      FireTimer(m);
      NextEvent(m);
      OnlyTimerDue(Fire(m));
    } else {
      NoEvent(m);
    }
  }

  lemma HeadIsTimer(m: M)
    requires Inv(m) && Due(m.s) && AllAfter(Others(m), m.s.ticks)
    ensures m.s.queue[0].cb == PitEvent
  {
    if Others(m) != [] {
      FirstOther(m.s.queue);
    }
  }

  /** The periodic event is due, and perhaps the timer's. */
  lemma {:induction false} MsecDue(m: M, later: seq<Entry>)
    requires Inv(m) && Roomy(m.s) && Others(m) == [MsecAt(m.s.ticks)] + later && AllAfter(later, m.s.ticks)
    requires !RepeatsNow(m.k.repeat)
    ensures var m' := RunEvents(m);
      && Others(m') == Insert(later, MsecAt(m.s.ticks + KeyboardModel.MSEC)) && m'.e == m.e
      && m'.k == m.k.(repeat := CountedDown(m.k.repeat))
    decreases FileLeft(m.e), DueCount(m.s.queue, m.s.ticks)
  {
    hide RunEvents, Fire, Others, RepeatsNow, CountedDown, Inv;
    HeadOf(m, MsecAt(m.s.ticks), later);
    NextEvent(m);
    if m.s.queue[0].cb == PitEvent {
      FireTimer(m);
      MsecDue(Fire(m), later);
    } else {
      FireMsecOnce(m);
      LaterStays(later, MsecAt(m.s.ticks + KeyboardModel.MSEC), m.s.ticks);
      OnlyTimerDue(Fire(m));
    }
  }

  lemma HeadOf(m: M, first: Entry, later: seq<Entry>)
    requires Inv(m) && Others(m) == [first] + later && first.time == m.s.ticks
    ensures Due(m.s) && (m.s.queue[0].cb == PitEvent || m.s.queue[0] == first)
    ensures |m.p.irqs| == PicModel.IRQS && |m.t.pit| == 3
  {
    FirstOther(m.s.queue);
  }

  lemma InsertBehind(a: Entry, b: Entry)
    requires a.time <= b.time
    ensures [a][1..] == [] && Insert([a], b) == [a] + [b]
  {
    assert [a][1..] == [];
  }

  lemma LaterStays(later: seq<Entry>, e: Entry, t: nat)
    requires AllAfter(later, t) && e.time > t
    ensures AllAfter(Insert(later, e), t)
  {
    InsertKeepsFrom(later, e, t + 1);
  }

  /** The replay event is due in front of the periodic one. */
  lemma {:induction false} PressThenMsec(r: M)
    requires Inv(r) && Roomy(r.s) && Others(r) == [ReplayAt(r.s.ticks), MsecAt(r.s.ticks)]
    requires r.k == KeyboardModel.BOOT && r.e.replayFile == Some([]) && r.e.pending.event == PRESS_A
    ensures RunEvents(r).k.repeat.wait == 499
    decreases FileLeft(r.e), DueCount(r.s.queue, r.s.ticks)
  {
    hide RunEvents, Fire, Others, Inv, Insert;
    assert Others(r) == [ReplayAt(r.s.ticks)] + [MsecAt(r.s.ticks)];
    HeadOf(r, ReplayAt(r.s.ticks), [MsecAt(r.s.ticks)]);
    NextEvent(r);
    if r.s.queue[0].cb == PitEvent {
      FireTimer(r);
      PressThenMsec(Fire(r));
    } else {
      FirePress(r);
      var msec, transfer := MsecAt(r.s.ticks), TransferEntry(r.s.ticks);
      InsertBehind(msec, transfer);
      MsecDue(Fire(r), [transfer]);
    }
  }

  // ----- ticks without input

  /** The tick the periodic event is queued for at the start of tick t. */
  function NextMsec(t: nat): nat {
    if t == 0 then 3000 else (t + 2999) / 3000 * 3000
  }

  /** The recording machine before the key press. */
  ghost predicate Idling(m: M) {
    && Inv(m) && m.e.replayFile.None? && m.k == KeyboardModel.BOOT
    && Others(m) == [MsecAt(NextMsec(m.s.ticks))]
  }

  /** The replaying machine before the key press of tick T. From a millisecond before
      on, the replay event stands in front of the periodic one. */
  ghost predicate Waiting(r: M, T: nat) {
    && Inv(r) && r.s.ticks <= T && r.k == KeyboardModel.BOOT
    && r.e.replayFile == Some([]) && r.e.pending == EventsModel.Record(T, PRESS_A)
    && Others(r) == if r.s.ticks + 3000 <= T then [MsecAt(NextMsec(r.s.ticks)), ReplayAt(T)] else [ReplayAt(T), MsecAt(T)]
  }

  lemma IdlingTick(m: M)
    requires Idling(m) && RoomFor(m, 1)
    ensures Idling(Tick(m)) && Tick(m).s.ticks == m.s.ticks + 1
    ensures RunEvents(m).k == m.k
  {
    hide RunEvents, Inv, Fire;
    TickKeeps(m, |m.e.injected|);
    if m.s.ticks % 3000 == 0 && m.s.ticks > 0 {
      assert Others(m) == [MsecAt(m.s.ticks)] + [];
      MsecDue(m, []);
    } else {
      OnlyTimerDue(m);
    }
  }

  lemma WaitingTick(r: M, n: nat)
    requires n >= 2 && Waiting(r, 3000 * n) && RoomFor(r, 1) && r.s.ticks < 3000 * n
    ensures Waiting(Tick(r), 3000 * n) && Tick(r).s.ticks == r.s.ticks + 1
  {
    hide RunEvents, Inv, Fire;
    var T := 3000 * n;
    TickKeeps(r, |r.e.injected|);
    if r.s.ticks % 3000 == 0 && r.s.ticks > 0 {
      var replay, next := ReplayAt(T), MsecAt(r.s.ticks + 3000);
      assert Others(r) == [MsecAt(r.s.ticks)] + [replay];
      MsecDue(r, [replay]);
      assert [replay][1..] == [];
    } else {
      OnlyTimerDue(r);
    }
  }

  // ----- the sessions

  /** A turn of an idle guest is a tick. */
  lemma QuietTurn<G(!new)>(c: Guest<G>, m: M, g: G, round: Round)
    requires Inv(m) && RoomFor(m, 1) && Idle(c)
    ensures Inv(Polled(m, round)) && RoomFor(Polled(m, round), 1)
    ensures CanTurn(c, Polled(m, round), g) && Turn(c, Polled(m, round), g).0 == Tick(m)
  {
    hide RunEvents, Inv;
    PolledKeeps(m, round);
    IdleTurn(c, Polled(m, round), g);
    RunEventsKeeps(m, |m.e.injected|);
    if round.poll {
      NoEvent(RunEvents(m));
    }
    assert Decoded(c, Polled(m, round), g).1 == Instruction(false, []);
  }

  predicate Silent(rounds: seq<Round>) {
    forall i | 0 <= i < |rounds| :: rounds[i].inputs == []
  }

  /** Silent rounds, then the key press. */
  lemma {:induction false} LivePress<G(!new)>(c: Guest<G>, m: M, g: G, quiet: seq<Round>)
    requires Idling(m) && RoomFor(m, |quiet| + 1) && Idle(c) && Silent(quiet)
    ensures var rounds := quiet + [Round(true, [PRESS_A])];
      CanLive(c, m, g, rounds) && Live(c, m, g, rounds).0.k.repeat.wait == 500
    decreases |quiet|
  {
    hide Inv, Turn, CanTurn, Idle;
    var rounds := quiet + [Round(true, [PRESS_A])];
    if quiet == [] {
      assert rounds == [Round(true, [PRESS_A])];
      PressTurn(c, m, g);
    } else {
      assert rounds[1..] == quiet[1..] + [Round(true, [PRESS_A])];
      QuietTurn(c, m, g, rounds[0]);
      InjectNothing(Polled(m, rounds[0]));
      IdlingTick(m);
      var (m', g') := Turn(c, Fed(m, rounds[0]), g);
      LivePress(c, m', g', quiet[1..]);
      LiveCons(c, m, g, rounds);
    }
  }

  lemma PressOnce(m: M)
    requires m.k == KeyboardModel.BOOT
    ensures InjectAll(m, [PRESS_A]).k.repeat.wait == 500
  {
    assert [PRESS_A][1..] == [];
  }

  lemma OneRound<G>(c: Guest<G>, m: M, g: G, round: Round)
    requires Inv(m) && RoomFor(m, 1) && m.e.replayFile.None? && Fits(round)
    requires Inv(Fed(m, round)) && RoomFor(Fed(m, round), 1) && CanTurn(c, Fed(m, round), g)
    ensures CanLive(c, m, g, [round]) && Live(c, m, g, [round]) == Turn(c, Fed(m, round), g)
  {
    hide Turn, CanTurn, Inv, Live, CanLive, Fits, Fed;
    assert [round][1..] == [];
    FedKeeps(m, round);
    LiveTurnKeeps(c, m, g, round);
    var (m', g') := Turn(c, Fed(m, round), g);
    NoLive(c, m', g');
    LiveCons(c, m, g, [round]);
  }

  lemma PressTurn<G(!new)>(c: Guest<G>, m: M, g: G)
    requires Idling(m) && RoomFor(m, 1) && Idle(c)
    ensures var rounds := [Round(true, [PRESS_A])];
      CanLive(c, m, g, rounds) && Live(c, m, g, rounds).0.k.repeat.wait == 500
  {
    hide Inv, RunEvents, Others, InjectAll, Turn, CanTurn, Idle, CanLive, Live;
    var round := Round(true, [PRESS_A]);
    RunEventsKeeps(m, |m.e.injected|);
    IdlingTick(m);
    PolledKeeps(m, round);
    PressOnce(RunEvents(m));
    InjectAllKeeps(RunEvents(m), [PRESS_A]);
    var j := Fed(m, round);
    QuietTurn(c, j, g, Round(false, []));
    NoEvent(j);
    OneRound(c, m, g, round);
  }

  /** Silent rounds, then the recorded press. */
  lemma {:induction false} ReplayPress<G(!new)>(c: Guest<G>, r: M, g: G, quiet: seq<Round>, n: nat)
    requires n >= 2 && Waiting(r, 3000 * n) && RoomFor(r, |quiet| + 1) && Idle(c) && Silent(quiet)
    requires r.s.ticks + |quiet| == 3000 * n
    ensures var rounds := quiet + [Round(true, [PRESS_A])];
      CanReplay(c, r, g, rounds) && Replay(c, r, g, rounds).0.k.repeat.wait == 499
    decreases |quiet|
  {
    hide Inv, Turn, CanTurn, Idle, CanReplay, Replay, RunEvents, Others;
    var rounds := quiet + [Round(true, [PRESS_A])];
    QuietTurn(c, r, g, rounds[0]);
    TickKeeps(r, |r.e.injected|);
    var (r', g') := Turn(c, Polled(r, rounds[0]), g);
    if quiet == [] {
      assert rounds == [Round(true, [PRESS_A])] && rounds[1..] == [];
      PressThenMsec(r);
      NoReplayRounds(c, r', g');
    } else {
      assert rounds[1..] == quiet[1..] + [Round(true, [PRESS_A])];
      WaitingTick(r, n);
      ReplayPress(c, r', g', quiet[1..], n);
    }
    ReplayFirst(c, r, g, rounds);
  }

  lemma NoReplayRounds<G>(c: Guest<G>, r: M, g: G)
    requires Inv(r) && RoomFor(r, 0)
    ensures CanReplay(c, r, g, []) && Replay(c, r, g, []) == (r, g)
  {
  }

  // ----- the two sessions

  lemma BootIdles(m: M)
    requires Booted(m)
    ensures Idling(m) && m.s.ticks == 0
  {
    BootKeeps(m);
    BootOthers(m.t.pit[0].delay);
    hide Inv;
  }

  lemma BootOthers(delay: nat)
    requires delay < TWO64
    ensures Without(BootQueue(delay).queue, PitEvent) == [MsecAt(3000)] && BootQueue(delay).ticks == 0
  {
    var e := Entry(delay, PitEvent, HwTimerModel.HWTIMER_PTR);
    assert Insert([], e) == [e];
    WithoutInsert([e], MsecAt(3000), PitEvent);
    assert [e][1..] == [];
  }

  lemma StartedWaits(m: M, n: nat)
    requires Idling(m) && m.s.ticks == 0 && n >= 2 && 3000 * n < TWO64
    ensures Waiting(Started(m, [EventsModel.Record(3000 * n, PRESS_A)]), 3000 * n)
  {
    hide Inv;
    var x := EventsModel.Record(3000 * n, PRESS_A);
    assert [x][1..] == [];
    StartKeeps(m, [x]);
    IsSorted(m);
    WithoutInsert(m.s.queue, ReplayAt(3000 * n), PitEvent);
    assert [MsecAt(3000)][1..] == [];
  }

  lemma IsSorted(m: M)
    requires Inv(m)
    ensures Sorted(m.s.queue)
  {
  }

  lemma {:induction false} SilentLog(t: nat, quiet: seq<Round>)
    requires Silent(quiet)
    ensures Log(t, quiet + [Round(true, [PRESS_A])]) == [EventsModel.Record(t + |quiet|, PRESS_A)]
    decreases |quiet|
  {
    var rounds := quiet + [Round(true, [PRESS_A])];
    if quiet == [] {
      assert rounds[1..] == [];
    } else {
      assert rounds[1..] == quiet[1..] + [Round(true, [PRESS_A])];
      SilentLog(t + 1, quiet[1..]);
    }
  }

  /** From power-on, with a guest that only passes time: key A pressed at the poll of
      tick 3000 n, n at least 2. The user's key waits 500 milliseconds to repeat; the
      replayed one, pressed in front of the periodic event, has 499 left. */
  lemma PressAtMsec<G(!new)>(c: Guest<G>, m: M, g: G, quiet: seq<Round>, n: nat)
    requires Booted(m) && Idle(c) && n >= 2 && |quiet| == 3000 * n && Silent(quiet) && RoomFor(m, |quiet| + 1)
    ensures Inv(m)
    ensures var rounds := quiet + [Round(true, [PRESS_A])];
      && CanLive(c, m, g, rounds)
      && Live(c, m, g, rounds).0.e.recordFile == Some([EventsModel.Record(3000 * n, PRESS_A)])
      && Live(c, m, g, rounds).0.k.repeat.wait == 500
      && var r := Started(m, [EventsModel.Record(3000 * n, PRESS_A)]);
      && Inv(r) && RoomFor(r, |rounds|) && CanReplay(c, r, g, rounds)
      && Replay(c, r, g, rounds).0.k.repeat.wait == 499
      && !InStep(c, m, r, g, rounds)
  {
    hide Inv, CanLive, Live, CanReplay, Replay, Idle, Log, InStep, TicksAgree, Started, EventsModel.Playable;
    var rounds, file := quiet + [Round(true, [PRESS_A])], [EventsModel.Record(3000 * n, PRESS_A)];
    BootIdles(m);
    LivePress(c, m, g, quiet);
    assert rounds + [] == rounds;
    LivePrefix(c, m, g, rounds, []);
    SilentLog(0, quiet);
    FileIsLog(m.e, Live(c, m, g, rounds).0.e, file);
    StartedWaits(m, n);
    FileKeepsClock(m, file);
    ReplayPress(c, Started(m, file), g, quiet, n);
    RecordThenReplay(c, m, g, rounds, []);
  }

  lemma FileKeepsClock(m: M, file: seq<EventsModel.Record>)
    ensures Started(m, file).s.ticks == m.s.ticks
  {
  }
}
