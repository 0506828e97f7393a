/** One tick of a recorded session and the replay of it: with what else is due, and in
    what order, the replay does to the machine what the user did. */
module ReplayFeed {
  import opened Basics
  import opened Scheduler
  import opened Machine
  import opened ReplaySame
  import opened ReplaySketch
  import opened ReplayRing
  import opened ReplayTick

  import PicModel
  import KeyboardModel
  import HwTimerModel
  import EventsModel

  // ----- the events due behind the replay event

  /** What stands behind the replay event. */
  function Behind(cbs: seq<Callback>): seq<Callback> {
    if cbs == [] then [] else if cbs[0] == ReplayEvent then cbs[1..] else Behind(cbs[1..])
  }

  /** The events due now that the replay event is queued in front of. */
  function DueBehind(r: M): seq<Callback> {
    Behind(DueList(r.s.queue, r.s.ticks))
  }

  /** A callback only queues events for later ticks. */
  lemma RestStaysDue(r: M)
    requires Inv(r) && Roomy(r.s) && Due(r.s) && r.s.queue[0].cb != ReplayEvent
    ensures Fire(r).s.ticks == r.s.ticks
    ensures DueList(r.s.queue, r.s.ticks) == [r.s.queue[0].cb] + DueList(Fire(r).s.queue, r.s.ticks)
    ensures DueBehind(Fire(r)) == DueBehind(r)
  {
    hide Fire, StepSketch, DueList, NotDue;
    FollowsItself(r);
    PoppedDue(r.s);
    NullNeverDue(r);
    var due := DueList(r.s.queue, r.s.ticks);
    match r.s.queue[0].cb
    case KeyboardEveryMsec => MsecFollows(r, r, SketchOf(r), due);
    case KeyboardTransfer => TransferFollows(r, r, SketchOf(r), due);
    case PitEvent => TimerFollows(r, r, SketchOf(r), due);
    case _ =>
  }

  lemma NullNeverDue(r: M)
    requires Inv(r) && Due(r.s)
    ensures r.s.queue[0].cb != NoCallback
  {
  }

  // ----- up to the replay event

  /** The due check up to the replay event. */
  ghost function RunToReplay(r: M): (y: M)
    requires Inv(r) && Roomy(r.s)
    ensures Inv(y) && Roomy(y.s)
    decreases FileLeft(r.e), DueCount(r.s.queue, r.s.ticks)
  {
    if Due(r.s) && r.s.queue[0].cb != ReplayEvent then
      FireKeeps(r);
      RunToReplay(Fire(r))
    else r
  }

  /** Up to there the machine with its user does the same. */
  lemma {:induction false} LockStep(m: M, r: M) returns (x: M)
    requires Inv(m) && Inv(r) && Same(m, r) && Roomy(m.s) && m.e.replayFile.None?
    ensures Roomy(r.s)
    ensures var y := RunToReplay(r);
      && Same(x, y) && Inv(x) && Roomy(x.s) && x.e == m.e && y.e == r.e
      && x.s.ticks == y.s.ticks == m.s.ticks == r.s.ticks
      && RunEvents(x) == RunEvents(m) && RunEvents(y) == RunEvents(r)
      && DueBehind(y) == DueBehind(r)
      && (Due(y.s) ==> y.s.queue[0].cb == ReplayEvent)
    decreases FileLeft(r.e), DueCount(r.s.queue, r.s.ticks)
  {
    hide RunEvents, Fire, Inv, DueBehind;
    OneClock(m, r);
    if Due(r.s) && r.s.queue[0].cb != ReplayEvent {
      FireSame(m, r);
      CanFire(m);
      CanFire(r);
      NextEvent(m);
      NextEvent(r);
      RestStaysDue(r);
      x := LockStep(Fire(m), Fire(r));
    } else {
      x := m;
    }
  }

  lemma CanFire(m: M)
    requires Inv(m)
    ensures |m.p.irqs| == PicModel.IRQS && |m.t.pit| == 3
  {
  }

  lemma OneClock(m: M, r: M)
    requires Same(m, r)
    ensures m.s.ticks == r.s.ticks && m.k == r.k && m.t == r.t && m.p == r.p
  {
  }

  // ----- with nothing behind the replay event

  lemma NoneBehindFirst(m: M, r: M)
    requires Inv(m) && Inv(r) && Same(m, r) && Due(r.s) && r.s.queue[0].cb == ReplayEvent
    ensures m.s == Popped(r.s) && DueBehind(r) == DueList(m.s.queue, m.s.ticks)
  {
    PendingIsNow(r);
    WithoutAbsent(Popped(r.s).queue, ReplayEvent);
    PoppedDue(r.s);
    assert DueList(r.s.queue, r.s.ticks)[1..] == DueList(Popped(r.s).queue, r.s.ticks);
  }

  /** With no other event due behind the replay event, the due check of the replaying
      machine runs the other events and then injects the user's inputs. */
  lemma OthersFirst(m: M, r: M, inputs: seq<EventsModel.UserEvent>, later: seq<EventsModel.Record>)
    requires Inv(m) && Inv(r) && Same(m, r) && Roomy(m.s) && m.e.replayFile.None? && DueBehind(r) == []
    requires EventsModel.Remaining(r.e) == Stamped(inputs, m.s.ticks) + later && After(later, m.s.ticks)
    ensures Roomy(r.s) && Same(InjectAll(RunEvents(m), inputs), RunEvents(r))
    ensures Inv(RunEvents(r)) && !Due(RunEvents(r).s)
    ensures EventsModel.Remaining(RunEvents(r).e) == later
    ensures RunEvents(r).e.injected == r.e.injected + Stamped(inputs, m.s.ticks)
  {
    hide RunEvents, Inv, RunToReplay, InjectAll, Stamped, EventsModel.Remaining, Behind, DueBehind;
    OneClock(m, r);
    var x := LockStep(m, r);
    var y := RunToReplay(r);
    NothingElseDue(x, y);
    NoEvent(x);
    ReplayInjects(x, y, inputs, later);
  }

  lemma NothingElseDue(x: M, y: M)
    requires Inv(x) && Inv(y) && Same(x, y) && DueBehind(y) == []
    requires Due(y.s) ==> y.s.queue[0].cb == ReplayEvent
    ensures !Due(x.s)
  {
    if Due(y.s) {
      NoneBehindFirst(x, y);
    } else {
      QuietSame(x, y);
    }
  }

  // ----- the record after the first goes behind everything due

  lemma {:induction false} NoneBehind(cbs: seq<Callback>)
    requires ReplayEvent !in cbs
    ensures Behind(cbs) == [] == Behind(cbs + [ReplayEvent])
    decreases |cbs|
  {
    if cbs != [] {
      assert (cbs + [ReplayEvent])[1..] == cbs[1..] + [ReplayEvent];
      NoneBehind(cbs[1..]);
    }
  }

  lemma {:induction false} DueThenInsert(q: seq<Entry>, e: Entry, t: nat)
    requires e.time >= t
    ensures DueList(Insert(q, e), t) == DueList(q, t) + (if e.time == t then [e.cb] else [])
    decreases |q|
  {
    if q == [] || q[0].time > e.time {
      assert ([e] + q)[1..] == q;
    } else {
      DueThenInsert(q[1..], e, t);
      assert ([q[0]] + Insert(q[1..], e))[1..] == Insert(q[1..], e);
      if q[0].time <= t {
        Join([q[0].cb], DueList(q[1..], t), if e.time == t then [e.cb] else []);
      }
    }
  }

  lemma {:induction false} NoneAbsent(q: seq<Entry>, t: nat)
    requires Count(q, ReplayEvent) == 0
    ensures ReplayEvent !in DueList(q, t)
    decreases |q|
  {
    DueCounted(q, t, ReplayEvent);
  }

  lemma ArmedLast(e: EventsModel.Events, s: Sched)
    requires Count(s.queue, ReplayEvent) == 0 && s.ticks < TWO64
    requires e.replayFile.Some? ==> EventsModel.Playable(e.replayFile.value)
    ensures Behind(DueList(EventsModel.ReplayOne(e, s).1.queue, s.ticks)) == []
  {
    NoneAbsent(s.queue, s.ticks);
    NoneBehind(DueList(s.queue, s.ticks));
    if e.replayFile.Some? {
      EventsModel.AdvanceKeeps(e.replayFile.value, e.pending, s.ticks);
      var (file, pending) := EventsModel.Advance(e.replayFile.value, e.pending, s.ticks);
      if file.Some? {
        DueThenInsert(s.queue, Entry(pending.time, ReplayEvent, EventsModel.EVENTS_PTR), s.ticks);
        assert DueList(s.queue, s.ticks) + [] == DueList(s.queue, s.ticks);
      }
    }
  }

  lemma FireArmsLast(r: M)
    requires Inv(r) && Roomy(r.s) && Due(r.s) && r.s.queue[0].cb == ReplayEvent
    ensures Fire(r).s.ticks == r.s.ticks && DueBehind(Fire(r)) == []
  {
    hide EventsModel.ReplayOne, EventsModel.InjectNow, EventsModel.Note;
    var s := Popped(r.s);
    PendingIsNow(r);
    PopIsRemove(r.s);
    OthersKept(r.s, s, ReplayEvent, KeyboardTransfer);
    InjectKeeps(r.e, r.k, s, r.e.pending.event);
    var (e1, k, s1) := EventsModel.InjectNow(r.e, r.k, s, r.e.pending.event);
    OthersKept(s, s1, KeyboardTransfer, ReplayEvent);
    NoteKeepsFile(r.e, s.ticks, r.e.pending.event);
    ArmedLast(e1, s1);
    FireReplay(r);
  }

  lemma NoteKeepsFile(e: EventsModel.Events, ticks: nat, event: EventsModel.UserEvent)
    ensures EventsModel.Note(e, ticks, event).replayFile == e.replayFile
  {
  }

  // ----- with events behind the replay event

  /** The replay event's turn, in front of what stands behind it. */
  lemma FirstRecord(x: M, y: M, first: EventsModel.UserEvent, later: seq<EventsModel.Record>)
    requires Inv(x) && Inv(y) && Same(x, y) && Roomy(x.s) && Due(y.s) && y.s.queue[0].cb == ReplayEvent
    requires EventsModel.Remaining(y.e) == [EventsModel.Record(x.s.ticks, first)] + later
    ensures Roomy(y.s) && Inv(Fire(y)) && Roomy(Fire(y).s) && RunEvents(Fire(y)) == RunEvents(y)
    ensures Same(Injected(x, first), Fire(y)) && DueBehind(Fire(y)) == []
    ensures EventsModel.Remaining(Fire(y).e) == later
    ensures Fire(y).e.injected == y.e.injected + [EventsModel.Record(x.s.ticks, first)]
  {
    var now := EventsModel.Record(x.s.ticks, first);
    assert ([now] + later)[0] == y.e.pending;
    OneClock(x, y);
    hide EventsModel.Remaining, DueBehind;
    FireReplay(y);
    SameTail(y.e.injected, now, EventsModel.Remaining(Fire(y).e), later);
    InjectsSame(x, y);
    NextEvent(y);
    FireArmsLast(y);
  }

  /** What decides a tick: nothing if the user is silent; else whether the first input
      and the events behind the replay event can change places. */
  ghost predicate TickAgrees(r: M, inputs: seq<EventsModel.UserEvent>)
    requires Inv(r) && Roomy(r.s)
  {
    inputs == [] || (
      var y := RunToReplay(r);
      Commutes(y.k, y.t, DueBehind(r), inputs[0], inputs[1..]))
  }

  lemma ReplayIsNext(x: M, y: M, inputs: seq<EventsModel.UserEvent>, later: seq<EventsModel.Record>)
    requires Inv(x) && Inv(y) && Same(x, y) && inputs != []
    requires Due(y.s) ==> y.s.queue[0].cb == ReplayEvent
    requires EventsModel.Remaining(y.e) == Stamped(inputs, x.s.ticks) + later
    ensures Due(y.s)
  {
    assert (Stamped(inputs, x.s.ticks) + later)[0] == y.e.pending;
    if !Due(y.s) {
      QuietSame(x, y);
      ReplayIsFirst(x, y);
    }
  }

  /** The tick from the replay event on. */
  lemma SpokenTick(x: M, y: M, first: EventsModel.UserEvent, rest: seq<EventsModel.UserEvent>, later: seq<EventsModel.Record>)
    requires Inv(x) && Inv(y) && Same(x, y) && Roomy(x.s) && x.e.replayFile.None?
    requires Due(y.s) && y.s.queue[0].cb == ReplayEvent
    requires After(later, x.s.ticks)
    requires EventsModel.Remaining(y.e) == [EventsModel.Record(x.s.ticks, first)] + (Stamped(rest, x.s.ticks) + later)
    ensures Roomy(y.s) && Inv(RunEvents(y)) && !Due(RunEvents(y).s)
    ensures EventsModel.Remaining(RunEvents(y).e) == later
    ensures RunEvents(y).e.injected == y.e.injected + ([EventsModel.Record(x.s.ticks, first)] + Stamped(rest, x.s.ticks))
    ensures Same(InjectAll(RunEvents(x), [first] + rest), RunEvents(y)) <==> Commutes(y.k, y.t, DueBehind(y), first, rest)
  {
    hide RunEvents, InjectAll, Stamped, EventsModel.Remaining, DueBehind, Commutes, Same, Fire, DueList, After;
    var now := EventsModel.Record(x.s.ticks, first);
    CanFire(y);
    FirstRecord(x, y, first, Stamped(rest, x.s.ticks) + later);
    InjectedKeeps(x, first);
    NoneBehindFirst(x, y);
    OneClock(x, y);
    TickExact(x, first, rest);
    hide Inv;
    OthersFirst(Injected(x, first), Fire(y), rest, later);
    Join(y.e.injected, [now], Stamped(rest, x.s.ticks));
    SameIsOne(InjectAll(RunEvents(x), [first] + rest), InjectAll(RunEvents(Injected(x, first)), rest), RunEvents(y));
  }

  /** One tick, whatever is due in whatever order. The replay always injects the
      recorded inputs; it leaves the machine the user left exactly if TickAgrees. */
  lemma TickReplayed(m: M, r: M, inputs: seq<EventsModel.UserEvent>, later: seq<EventsModel.Record>)
    requires Inv(m) && Inv(r) && Same(m, r) && Roomy(m.s) && m.e.replayFile.None?
    requires EventsModel.Remaining(r.e) == Stamped(inputs, m.s.ticks) + later && After(later, m.s.ticks)
    ensures Roomy(r.s) && Inv(RunEvents(r)) && !Due(RunEvents(r).s)
    ensures EventsModel.Remaining(RunEvents(r).e) == later
    ensures RunEvents(r).e.injected == r.e.injected + Stamped(inputs, m.s.ticks)
    ensures Same(InjectAll(RunEvents(m), inputs), RunEvents(r)) <==> TickAgrees(r, inputs)
  {
    hide RunEvents, Inv, RunToReplay, InjectAll, Stamped, EventsModel.Remaining, DueBehind, Commutes, Same, Fire, After;
    var x := LockStep(m, r);
    var y := RunToReplay(r);
    if inputs == [] {
      SilentTick(m, r, inputs, later);
    } else {
      ReplayIsNext(x, y, inputs, later);
      StampedFirst(inputs, m.s.ticks);
      Join([EventsModel.Record(m.s.ticks, inputs[0])], Stamped(inputs[1..], m.s.ticks), later);
      SpokenTick(x, y, inputs[0], inputs[1..], later);
      assert [inputs[0]] + inputs[1..] == inputs;
    }
  }

  lemma SameIsOne(a: M, b: M, r: M)
    requires Same(b, r) && a.e == b.e
    ensures Same(a, r) <==> a == b
  {
  }

  lemma SilentTick(m: M, r: M, inputs: seq<EventsModel.UserEvent>, later: seq<EventsModel.Record>)
    requires Inv(m) && Inv(r) && Same(m, r) && Roomy(m.s) && inputs == []
    requires EventsModel.Remaining(r.e) == Stamped(inputs, m.s.ticks) + later && After(later, m.s.ticks)
    ensures Roomy(r.s) && Inv(RunEvents(r)) && !Due(RunEvents(r).s)
    ensures EventsModel.Remaining(RunEvents(r).e) == later
    ensures RunEvents(r).e.injected == r.e.injected + Stamped(inputs, m.s.ticks)
    ensures Same(InjectAll(RunEvents(m), inputs), RunEvents(r))
  {
    hide RunEvents, Inv, EventsModel.Kept;
    assert Stamped(inputs, m.s.ticks) + later == later;
    assert r.e.injected + Stamped(inputs, m.s.ticks) == r.e.injected;
    if r.e.replayFile.Some? {
      assert later[0] == r.e.pending;
    }
    OneClock(m, r);
    RunEventsSame(m, r);
    RunEventsKeeps(r, |r.e.injected|);
  }

  // ----- ticks that agree, and ticks that do not

  /** A tick agrees if no other event due stands behind the replay event, or if the
      first input brings no bytes, as pointer and quit events do. */
  lemma AgreesWhen(r: M, inputs: seq<EventsModel.UserEvent>)
    requires Inv(r) && Roomy(r.s)
    requires inputs == [] || DueBehind(r) == [] || Bytes(inputs[0]) == []
    ensures TickAgrees(r, inputs)
  {
    hide RunToReplay, Inv, Acts, Taken;
    if inputs != [] && DueBehind(r) == [] {
      assert Evs([]) + ([In(inputs[0])] + Ins(inputs[1..])) == [In(inputs[0])] + (Evs([]) + Ins(inputs[1..]));
    }
  }

  lemma {:induction false} BehindDistinct(cbs: seq<Callback>)
    requires Distinct(cbs)
    ensures Distinct(Behind(cbs))
    decreases |cbs|
  {
    if cbs != [] {
      assert Distinct(cbs[1..]);
      BehindDistinct(cbs[1..]);
    }
  }

  /** The tick's condition spelled out: a periodic event behind the replay event does not
      count down for a key just pressed; the ring takes the same bytes in both orders; and
      the timer event does not tie with the transfer of the first byte. */
  lemma AgreesIff(r: M, inputs: seq<EventsModel.UserEvent>)
    requires Inv(r) && Roomy(r.s) && inputs != [] && Bytes(inputs[0]) != []
    ensures var y := RunToReplay(r); |y.t.pit| == 3 && |y.k.ring| <= KeyboardModel.KEYBUFSIZE
    ensures var (y, due, first, rest) := (RunToReplay(r), DueBehind(r), inputs[0], inputs[1..]);
      TickAgrees(r, inputs) <==> (
        && (KeyboardEveryMsec in due && SetsRepeat(first) && !first.isUp ==> SomeSetsRepeat(rest))
        && RingUnmoved(y.k.repeat, KeyboardModel.KEYBUFSIZE - |y.k.ring|, due, first, rest)
        && TieAgrees(y.k, y.t, due))
  {
    hide RunToReplay, DueBehind, Bytes, TieAgrees, RingUnmoved, Distinct, SomeSetsRepeat, SetsRepeat, Commutes, Inv;
    BehindOnce(r);
    RepeatSound(RunToReplay(r));
    CommutesSpelled(RunToReplay(r).k, RunToReplay(r).t, DueBehind(r), inputs[0], inputs[1..]);
  }

  lemma CommutesSpelled(k: KeyboardModel.Kbd, t: HwTimerModel.Timer, due: seq<Callback>, first: EventsModel.UserEvent,
                        rest: seq<EventsModel.UserEvent>)
    requires |k.ring| <= KeyboardModel.KEYBUFSIZE && |t.pit| == 3 && Bytes(first) != [] && Distinct(due)
    requires k.repeat.pause >= 2 && k.repeat.rate >= 2
    ensures Commutes(k, t, due, first, rest) <==> (
      && (KeyboardEveryMsec in due && SetsRepeat(first) && !first.isUp ==> SomeSetsRepeat(rest))
      && RingUnmoved(k.repeat, KeyboardModel.KEYBUFSIZE - |k.ring|, due, first, rest)
      && TieAgrees(k, t, due))
  {
    hide Bytes, TieAgrees, RingAgrees, RingUnmoved, Distinct, SomeSetsRepeat, SetsRepeat;
    RingAgreesIff(k.repeat, KeyboardModel.KEYBUFSIZE - |k.ring|, due, first, rest);
  }

  /** With room in the ring for the tick's bytes: a periodic event behind the replay event
      neither repeats a key nor counts down for a key just pressed; and the timer event
      does not tie with the transfer. */
  lemma AgreesWithRoom(r: M, inputs: seq<EventsModel.UserEvent>)
    requires Inv(r) && Roomy(r.s) && inputs != [] && Bytes(inputs[0]) != []
    requires var y := RunToReplay(r);
      |y.k.ring| + |RepeatedBytes(y.k.repeat)| + |AllBytes(inputs)| <= KeyboardModel.KEYBUFSIZE
    ensures |RunToReplay(r).t.pit| == 3
    ensures var (y, due, first) := (RunToReplay(r), DueBehind(r), inputs[0]);
      TickAgrees(r, inputs) <==> (
        && (KeyboardEveryMsec in due ==>
              !RepeatsNow(y.k.repeat) && (SetsRepeat(first) && !first.isUp ==> SomeSetsRepeat(inputs[1..])))
        && TieAgrees(y.k, y.t, due))
  {
    hide RunToReplay, DueBehind, Bytes, RepeatedBytes, TieAgrees, RingAgrees, RepeatsNow, Distinct, SomeSetsRepeat, SetsRepeat;
    BehindOnce(r);
    RepeatSound(RunToReplay(r));
    hide Inv;
    var y, due := RunToReplay(r), DueBehind(r);
    var room := KeyboardModel.KEYBUFSIZE - |y.k.ring|;
    AllBytesFirst(inputs);
    RingWithRoom(y.k.repeat, room, due, inputs[0], inputs[1..]);
    CommutesIff(y.k, y.t, due, inputs[0], inputs[1..], KeyboardEveryMsec in due && RepeatsNow(y.k.repeat));
  }

  lemma AllBytesFirst(inputs: seq<EventsModel.UserEvent>)
    requires inputs != []
    ensures |AllBytes(inputs)| == |Bytes(inputs[0])| + |AllBytes(inputs[1..])|
  {
  }

  lemma CommutesIff(k: KeyboardModel.Kbd, t: HwTimerModel.Timer, due: seq<Callback>, first: EventsModel.UserEvent,
                    rest: seq<EventsModel.UserEvent>, moved: bool)
    requires |k.ring| <= KeyboardModel.KEYBUFSIZE && |t.pit| == 3 && Bytes(first) != []
    requires RingAgrees(k.repeat, KeyboardModel.KEYBUFSIZE - |k.ring|, due, first, rest) <==> !moved
    ensures Commutes(k, t, due, first, rest) <==> (
      !moved && TieAgrees(k, t, due) && RepeatAgrees(due, first, rest))
  {
  }

  lemma RepeatSound(m: M)
    requires Inv(m)
    ensures |m.k.ring| <= KeyboardModel.KEYBUFSIZE && |m.t.pit| == 3
    ensures var r := m.k.repeat; r.pause >= 2 && r.rate >= 2 && (r.wait > 0 ==> r.key.Plain? || r.key.Extended?)
  {
  }

  lemma BehindOnce(r: M)
    requires Inv(r)
    ensures Distinct(DueBehind(r))
  {
    hide DueList;
    forall cb: Callback ensures Count(r.s.queue, cb) <= 1 {
      OneOfEach(r, cb);
    }
    DueDistinct(r.s.queue, r.s.ticks);
    BehindDistinct(DueList(r.s.queue, r.s.ticks));
  }
}
