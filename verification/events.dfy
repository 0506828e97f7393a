/** core/events.c: user events, their recording and their replay. The replay file
    is the sequence of records not yet read; the record file the sequence written. */
module EventsModel {
  import opened Basics
  import opened Scheduler

  import TimetrackPool
  import KeyboardModel

  const EVENTS_PTR := 3

  datatype UserEvent = KeyboardEvent(key: KeyboardModel.Key, isUp: bool) | OtherEvent(kind: nat)

  datatype Record = Record(time: nat, event: UserEvent)

  /** `injected` is the history of every injection, kept for the statements only. */
  datatype Events = Events(
    eventIndex: nat, pressed: set<KeyboardModel.Key>, recordFile: Option<seq<Record>>,
    replayFile: Option<seq<Record>>, pending: Record, injected: seq<Record>)

  // ----- the routines on values

  /** The part of dp_events_inject_now that stays in struct dp_events. */
  function Note(e: Events, ticks: nat, event: UserEvent): Events {
    var record := Record(ticks, event);
    e.(recordFile := if e.recordFile.Some? then Some(e.recordFile.value + [record]) else None,
       injected := e.injected + [record],
       eventIndex := (e.eventIndex + 1) % TWO32,
       pressed := match event
                  case KeyboardEvent(key, isUp) => if isUp then e.pressed - {key} else e.pressed + {key}
                  case OtherEvent(_) => e.pressed)
  }

  /** dp_keyboard_add_key aborts on the key "none". */
  predicate Injectable(event: UserEvent) {
    event.KeyboardEvent? ==> KeyboardModel.Supported(event.key)
  }

  /** dp_events_inject_now */
  function InjectNow(e: Events, k: KeyboardModel.Kbd, s: Sched, event: UserEvent)
    : (Events, KeyboardModel.Kbd, Sched)
  {
    var e1 := Note(e, s.ticks, event);
    match event
    case KeyboardEvent(key, isUp) =>
      var (k1, s1) := KeyboardModel.AddKey(k, s, key, !isUp);
      (e1, k1, s1)
    case OtherEvent(_) => (e1, k, s)
  }

  lemma InjectGrows(e: Events, k: KeyboardModel.Kbd, s: Sched, event: UserEvent)
    ensures |InjectNow(e, k, s, event).2.queue| <= |s.queue| + 1
  {
    if event.KeyboardEvent? {
      KeyboardModel.AddKeyGrows(k, s, event.key, !event.isUp);
    }
  }

  /** The loop of dp_events_replay_one_event: read records until one is not past. */
  function Advance(rs: seq<Record>, pending: Record, ticks: nat): (Option<seq<Record>>, Record)
  {
    if rs == [] then (None, pending)
    else if rs[0].time >= ticks then (Some(rs[1..]), rs[0])
    else Advance(rs[1..], rs[0], ticks)
  }

  /** dp_events_replay_one_event */
  function ReplayOne(e: Events, s: Sched): (Events, Sched) {
    if e.replayFile.None? then (e, s)
    else
      var (file, pending) := Advance(e.replayFile.value, e.pending, s.ticks);
      var e1 := e.(replayFile := file, pending := pending);
      if file.None? || pending.time < s.ticks then (e1, s)
      else (e1, AddEvent(s, ReplayEvent, EVENTS_PTR, pending.time - s.ticks))
  }

  /** dp_events_timetrack_cb */
  function ReplayCallback(e: Events, k: KeyboardModel.Kbd, s: Sched)
    : (Events, KeyboardModel.Kbd, Sched)
  {
    var (e1, k1, s1) := InjectNow(e, k, s, e.pending.event);
    var (e2, s2) := ReplayOne(e1, s1);
    (e2, k1, s2)
  }

  /** dp_events_start_replay, with the file's records for the file. */
  function StartReplay(e: Events, s: Sched, file: seq<Record>): (Events, Sched) {
    ReplayOne(e.(replayFile := Some(file)), s)
  }

  // ----- which records of a file are replayed

  /** Reading from tick t on, a record is kept unless its time has passed; the next
      one is read when it fires. */
  function Kept(rs: seq<Record>, t: nat): seq<Record> {
    if rs == [] then []
    else if rs[0].time >= t then [rs[0]] + Kept(rs[1..], rs[0].time)
    else Kept(rs[1..], t)
  }

  function NotBefore(rs: seq<Record>, t: nat): seq<Record> {
    if rs == [] then []
    else (if rs[0].time >= t then [rs[0]] else []) + NotBefore(rs[1..], t)
  }

  predicate InTimeOrder(rs: seq<Record>) {
    forall i, j | 0 <= i < j < |rs| :: rs[i].time <= rs[j].time
  }

  /** From a file in time order every record that is not past is kept. */
  lemma {:induction false} SortedFileIsKept(rs: seq<Record>, t: nat)
    requires InTimeOrder(rs)
    ensures Kept(rs, t) == NotBefore(rs, t)
  {
    if rs != [] {
      SortedFileIsKept(rs[1..], t);
      if rs[0].time >= t {
        AllKept(rs[1..], rs[0].time);
        AllKept(rs[1..], t);
      }
    }
  }

  lemma {:induction false} AllKept(rs: seq<Record>, t: nat)
    requires InTimeOrder(rs)
    requires forall i | 0 <= i < |rs| :: rs[i].time >= t
    ensures Kept(rs, t) == rs == NotBefore(rs, t)
  {
    if rs != [] {
      AllKept(rs[1..], rs[0].time);
      AllKept(rs[1..], t);
    }
  }

  lemma {:induction false} KeptInOrder(rs: seq<Record>, t: nat)
    ensures InTimeOrder(Kept(rs, t))
    ensures forall i | 0 <= i < |Kept(rs, t)| :: Kept(rs, t)[i].time >= t
  {
    if rs != [] {
      KeptInOrder(rs[1..], if rs[0].time >= t then rs[0].time else t);
    }
  }

  /** Every time fits the u64 of a record, and no event aborts the program. */
  predicate Playable(rs: seq<Record>) {
    forall i | 0 <= i < |rs| :: PlayableOne(rs[i])
  }

  predicate PlayableOne(r: Record) {
    r.time < TWO64 && Injectable(r.event)
  }

  /** What the reader's state still has to inject: the record that is scheduled and
      those the rest of the file yields. */
  function Remaining(e: Events): seq<Record> {
    if e.replayFile.None? then [] else [e.pending] + Kept(e.replayFile.value, e.pending.time)
  }

  /** Reading on from a file leaves exactly its kept records to inject. */
  lemma {:induction false} AdvanceKeeps(rs: seq<Record>, pending: Record, ticks: nat)
    ensures var (file, p) := Advance(rs, pending, ticks);
      && Kept(rs, ticks) == (if file.None? then [] else [p] + Kept(file.value, p.time))
      && (file.Some? ==> p.time >= ticks && |file.value| < |rs|)
      && (file.Some? && Playable(rs) ==> PlayableOne(p) && Playable(file.value))
    decreases |rs|
  {
    if rs != [] && rs[0].time < ticks {
      AdvanceKeeps(rs[1..], rs[0], ticks);
    }
  }

  // ----- the device

  class UserEvents {
    var eventIndex: nat
    var keyState: set<KeyboardModel.Key>
    var recordFile: Option<seq<Record>>
    var replayFile: Option<seq<Record>>
    var replayEvent: Record
    ghost var injected: seq<Record>
    const keyboard: KeyboardModel.Keyboard
    const timetrack: TimetrackPool.Timetrack

    ghost function View(): Events
      reads this
    {
      Events(eventIndex, keyState, recordFile, replayFile, replayEvent, injected)
    }

    /** dp_events_init */
    constructor (keyboard: KeyboardModel.Keyboard, timetrack: TimetrackPool.Timetrack)
      ensures View() == Events(0, {}, None, None, Record(0, OtherEvent(0)), [])
      ensures this.keyboard == keyboard && this.timetrack == timetrack
    {
      eventIndex, keyState, recordFile, replayFile := 0, {}, None, None;
      replayEvent, injected := Record(0, OtherEvent(0)), [];
      this.keyboard, this.timetrack := keyboard, timetrack;
    }

    /** dp_events_inject_now */
    method Inject(event: UserEvent)
      requires keyboard.Valid() && timetrack.Valid() && keyboard.timetrack == timetrack
      requires Injectable(event)
      requires KeyboardModel.NeedsEvent(keyboard.View()) ==> timetrack.freeEvent != TimetrackPool.NULL_EVENT
      modifies this, keyboard, keyboard.buffer, timetrack, timetrack.events
      ensures keyboard.Valid() && timetrack.Valid() && timetrack.inFlight == old(timetrack.inFlight)
      ensures (View(), keyboard.View(), timetrack.View())
        == InjectNow(old(View()), old(keyboard.View()), old(timetrack.View()), event)
    {
      hide KeyboardModel.AddKey, KeyboardModel.Ring, TimetrackPool.PoolOk;
      var record := Record(timetrack.ticks, event);
      if recordFile.Some? {
        recordFile := Some(recordFile.value + [record]);
      }
      injected := injected + [record];
      eventIndex := (eventIndex + 1) % TWO32;
      match event
      case KeyboardEvent(key, isUp) =>
        keyState := if isUp then keyState - {key} else keyState + {key};
        keyboard.AddKeyCode(key, !isUp);
      case OtherEvent(_) =>
    }

    /** dp_events_replay_one_event */
    method ReplayOneEvent()
      requires timetrack.Valid() && timetrack.freeEvent != TimetrackPool.NULL_EVENT
      modifies this, timetrack, timetrack.events
      ensures timetrack.Valid() && timetrack.inFlight == old(timetrack.inFlight)
      ensures (View(), timetrack.View()) == ReplayOne(old(View()), old(timetrack.View()))
    {
      while replayFile.Some?
        invariant timetrack.Valid() && timetrack.freeEvent != TimetrackPool.NULL_EVENT
        invariant timetrack.inFlight == old(timetrack.inFlight) && timetrack.View() == old(timetrack.View())
        invariant ReplayOne(View(), timetrack.View()) == ReplayOne(old(View()), old(timetrack.View()))
        decreases if replayFile.Some? then |replayFile.value| + 1 else 0
      {
        if replayFile.value == [] {
          replayFile := None;
          break;
        }
        replayEvent := replayFile.value[0];
        replayFile := Some(replayFile.value[1..]);
        if replayEvent.time >= timetrack.ticks {
          timetrack.AddEvent(ReplayEvent, EVENTS_PTR, replayEvent.time - timetrack.ticks);
          return;
        }
      }
    }

    /** dp_events_timetrack_cb */
    method ReplayEventCallback()
      requires keyboard.Valid() && timetrack.Valid() && keyboard.timetrack == timetrack
      requires Injectable(replayEvent.event) && |timetrack.View().queue| + 2 < TimetrackPool.MAX_EVENTS
      modifies this, keyboard, keyboard.buffer, timetrack, timetrack.events
      ensures keyboard.Valid() && timetrack.Valid() && timetrack.inFlight == old(timetrack.inFlight)
      ensures (View(), keyboard.View(), timetrack.View())
        == ReplayCallback(old(View()), old(keyboard.View()), old(timetrack.View()))
    {
      hide InjectNow, ReplayOne;
      timetrack.HasRoom();
      InjectGrows(View(), keyboard.View(), timetrack.View(), replayEvent.event);
      Inject(replayEvent.event);
      timetrack.HasRoom();
      ReplayOneEvent();
    }

    /** dp_events_start_replay */
    method StartReplayOf(file: seq<Record>)
      requires timetrack.Valid() && timetrack.freeEvent != TimetrackPool.NULL_EVENT
      modifies this, timetrack, timetrack.events
      ensures timetrack.Valid() && timetrack.inFlight == old(timetrack.inFlight)
      ensures (View(), timetrack.View()) == StartReplay(old(View()), old(timetrack.View()), file)
    {
      replayFile := Some(file);
      ReplayOneEvent();
    }
  }
}
