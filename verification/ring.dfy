/** Typematic state, byte ring and interrupt controllers at a tick: when the first input
    and the events due can change places as far as these go. */
module ReplayRing {
  import opened Scheduler
  import opened Machine
  import opened ReplaySame
  import opened ReplaySketch

  import PicModel
  import KeyboardModel
  import HwTimerModel
  import EventsModel

  // ----- the typematic state decides

  function RepeatRun(r: KeyboardModel.Repeat, steps: seq<Step>): KeyboardModel.Repeat
    decreases |steps|
  {
    if steps == [] then r
    else
      RepeatRun(match steps[0]
                case In(event) => RepeatAfter(r, event)
                case Ev(cb) => if cb == KeyboardEveryMsec then CountedDown(r) else r,
                steps[1..])
  }

  lemma {:induction false} RepeatOfSketch(z: Sketch, ticks: nat, steps: seq<Step>)
    requires |z.p.irqs| == PicModel.IRQS && |z.t.pit| == 3
    ensures RunSketch(z, ticks, steps).r == RepeatRun(z.r, steps)
    decreases |steps|
  {
    if steps != [] {
      hide PlayAll, Pushes, PicModel.Activate;
      RepeatOfSketch(StepSketch(z, ticks, steps[0]), ticks, steps[1..]);
    }
  }

  lemma {:induction false} RepeatBoth(r: KeyboardModel.Repeat, a: seq<Step>, b: seq<Step>)
    ensures RepeatRun(r, a + b) == RepeatRun(RepeatRun(r, a), b)
    decreases |a|
  {
    if a == [] {
      assert a + b == b;
    } else {
      assert (a + b)[1..] == a[1..] + b;
      RepeatBoth(RepeatRun(r, [a[0]]), a[1..], b);
      assert RepeatRun(r, [a[0]]) == RepeatRun(RepeatRun(r, [a[0]]), []);
      assert [a[0]][1..] == [];
    }
  }

  predicate Distinct(cbs: seq<Callback>) {
    forall i, j | 0 <= i < j < |cbs| :: cbs[i] != cbs[j]
  }

  lemma {:induction false} RepeatOverEvents(r: KeyboardModel.Repeat, cbs: seq<Callback>)
    requires Distinct(cbs)
    ensures RepeatRun(r, Evs(cbs)) == if KeyboardEveryMsec in cbs then CountedDown(r) else r
    decreases |cbs|
  {
    if cbs != [] {
      assert Evs(cbs)[1..] == Evs(cbs[1..]);
      assert Distinct(cbs[1..]);
      RepeatOverEvents(if cbs[0] == KeyboardEveryMsec then CountedDown(r) else r, cbs[1..]);
    }
  }

  predicate SomeSetsRepeat(inputs: seq<EventsModel.UserEvent>) {
    exists i :: 0 <= i < |inputs| && SetsRepeat(inputs[i])
  }

  /** Two states that count down differently are told apart until a key is pressed or
      released. */
  lemma {:induction false} RestDecides(r1: KeyboardModel.Repeat, r2: KeyboardModel.Repeat, rest: seq<EventsModel.UserEvent>)
    requires r1 == r2.(wait := r1.wait)
    ensures RepeatRun(r1, Ins(rest)) == RepeatRun(r2, Ins(rest)) <==> r1 == r2 || SomeSetsRepeat(rest)
    decreases |rest|
  {
    if rest != [] {
      assert Ins(rest)[1..] == Ins(rest[1..]);
      if SetsRepeat(rest[0]) {
        assert RepeatAfter(r1, rest[0]) == RepeatAfter(r2, rest[0]);
      } else {
        RestDecides(r1, r2, rest[1..]);
        SetsLater(rest);
      }
    }
  }

  lemma SetsLater(inputs: seq<EventsModel.UserEvent>)
    requires inputs != [] && !SetsRepeat(inputs[0])
    ensures SomeSetsRepeat(inputs) <==> SomeSetsRepeat(inputs[1..])
  {
    if SomeSetsRepeat(inputs) {
      var i :| 0 <= i < |inputs| && SetsRepeat(inputs[i]);
      assert SetsRepeat(inputs[1..][i - 1]);
    }
    if SomeSetsRepeat(inputs[1..]) {
      var i :| 0 <= i < |inputs[1..]| && SetsRepeat(inputs[1..][i]);
      assert SetsRepeat(inputs[i + 1]);
    }
  }

  /** The periodic event behind a key press makes that key repeat a millisecond early,
      unless a later input of the same tick sets the typematic state anew. */
  predicate RepeatAgrees(due: seq<Callback>, first: EventsModel.UserEvent, rest: seq<EventsModel.UserEvent>) {
    KeyboardEveryMsec in due && SetsRepeat(first) && !first.isUp ==> SomeSetsRepeat(rest)
  }

  function UserSteps(due: seq<Callback>, first: EventsModel.UserEvent, rest: seq<EventsModel.UserEvent>): seq<Step> {
    Evs(due) + ([In(first)] + Ins(rest))
  }

  function ReplaySteps(due: seq<Callback>, first: EventsModel.UserEvent, rest: seq<EventsModel.UserEvent>): seq<Step> {
    [In(first)] + (Evs(due) + Ins(rest))
  }

  lemma RepeatDecides(r: KeyboardModel.Repeat, due: seq<Callback>, first: EventsModel.UserEvent, rest: seq<EventsModel.UserEvent>)
    requires Distinct(due) && r.pause >= 2 && r.rate >= 2
    ensures RepeatRun(r, UserSteps(due, first, rest)) == RepeatRun(r, ReplaySteps(due, first, rest))
      <==> RepeatAgrees(due, first, rest)
  {
    hide RepeatRun;
    RepeatBoth(r, Evs(due), [In(first)] + Ins(rest));
    RepeatOverEvents(r, due);
    var ru := if KeyboardEveryMsec in due then CountedDown(r) else r;
    RepeatOne(ru, first, Ins(rest));
    RepeatOne(r, first, Evs(due) + Ins(rest));
    var rr := RepeatAfter(r, first);
    RepeatBoth(rr, Evs(due), Ins(rest));
    RepeatOverEvents(rr, due);
    var r1, r2 := RepeatAfter(ru, first), if KeyboardEveryMsec in due then CountedDown(rr) else rr;
    RestDecides(r1, r2, rest);
  }

  lemma RepeatOne(r: KeyboardModel.Repeat, first: EventsModel.UserEvent, steps: seq<Step>)
    ensures RepeatRun(r, [In(first)] + steps) == RepeatRun(RepeatAfter(r, first), steps)
  {
    assert ([In(first)] + steps)[1..] == steps;
  }

  // ----- the ring decides

  /** What the steps do to the port. */
  function Acts(r: KeyboardModel.Repeat, steps: seq<Step>): seq<Act>
    decreases |steps|
  {
    if steps == [] then []
    else
      match steps[0]
      case In(event) => Pushes(Bytes(event)) + Acts(RepeatAfter(r, event), steps[1..])
      case Ev(cb) =>
        match cb
        case KeyboardEveryMsec => Pushes(RepeatedBytes(r)) + Acts(CountedDown(r), steps[1..])
        case KeyboardTransfer => [Pop] + Acts(r, steps[1..])
        case _ => Acts(r, steps[1..])
  }

  lemma {:induction false} PortOfSketch(z: Sketch, ticks: nat, steps: seq<Step>)
    requires |z.p.irqs| == PicModel.IRQS && |z.t.pit| == 3
    ensures RunSketch(z, ticks, steps).port == PlayAll(z.port, Acts(z.r, steps))
    decreases |steps|
  {
    if steps != [] {
      hide Pushes, Bytes, RepeatedBytes, Play, PicModel.Activate;
      PortOfSketch(StepSketch(z, ticks, steps[0]), ticks, steps[1..]);
      match steps[0]
      case In(event) =>
        PlayBoth(z.port, Pushes(Bytes(event)), Acts(RepeatAfter(z.r, event), steps[1..]));
      case Ev(cb) =>
        PlayBoth(z.port, Pushes(RepeatedBytes(z.r)), Acts(CountedDown(z.r), steps[1..]));
        PlayBoth(z.port, [Pop], Acts(z.r, steps[1..]));
        assert [Pop][1..] == [];
    }
  }

  function Pops(acts: seq<Act>): nat {
    if acts == [] then 0 else (if acts[0].Pop? then 1 else 0) + Pops(acts[1..])
  }

  predicate HasPush(acts: seq<Act>) {
    acts != [] && (acts[0].Push? || HasPush(acts[1..]))
  }

  predicate PortSound(p: Port) { PortOk(p) && (p.scheduled ==> p.ring != []) }

  /** Apart from the ring itself, a port depends only on whether a byte was taken out
      and whether one came in. */
  lemma {:induction false} PortFlags(p: Port, acts: seq<Act>)
    requires PortSound(p) && Pops(acts) <= 1 && (Pops(acts) == 1 ==> p.scheduled)
    ensures var f := PlayAll(p, acts);
      if Pops(acts) == 1 then f.changed && f.data == p.ring[0] && !f.scheduled
      else f.changed == p.changed && f.data == p.data && f.scheduled == (p.scheduled || (!p.changed && HasPush(acts)))
    decreases |acts|
  {
    if acts != [] {
      PortFlags(Play(p, acts[0]), acts[1..]);
    }
  }

  lemma {:induction false} PopsBoth(a: seq<Act>, b: seq<Act>)
    ensures Pops(a + b) == Pops(a) + Pops(b) && (HasPush(a + b) <==> HasPush(a) || HasPush(b))
    decreases |a|
  {
    if a == [] {
      assert a + b == b;
    } else {
      assert (a + b)[1..] == a[1..] + b;
      PopsBoth(a[1..], b);
    }
  }

  lemma {:induction false} PushesOnly(bytes: seq<nat>)
    ensures Pops(Pushes(bytes)) == 0 && (HasPush(Pushes(bytes)) <==> bytes != [])
    decreases |bytes|
  {
    if bytes != [] {
      assert Pushes(bytes)[1..] == Pushes(bytes[1..]);
      PushesOnly(bytes[1..]);
    }
  }

  function Transfers(cbs: seq<Callback>): nat {
    if cbs == [] then 0 else (if cbs[0] == KeyboardTransfer then 1 else 0) + Transfers(cbs[1..])
  }

  predicate SomeBytes(steps: seq<Step>) {
    exists i :: 0 <= i < |steps| && steps[i].In? && Bytes(steps[i].event) != []
  }

  lemma BytesLater(steps: seq<Step>)
    requires steps != [] && SomeBytes(steps)
    ensures (steps[0].In? && Bytes(steps[0].event) != []) || SomeBytes(steps[1..])
  {
    var i :| 0 <= i < |steps| && steps[i].In? && Bytes(steps[i].event) != [];
    if i > 0 {
      assert steps[1..][i - 1] == steps[i];
    }
  }

  lemma {:induction false} ActsCounted(r: KeyboardModel.Repeat, steps: seq<Step>)
    ensures Pops(Acts(r, steps)) == Transfers(EvsOf(steps))
    ensures SomeBytes(steps) ==> HasPush(Acts(r, steps))
    decreases |steps|
  {
    if steps != [] {
      hide Pushes, Bytes;
      var rest := steps[1..];
      if SomeBytes(steps) {
        BytesLater(steps);
      }
      match steps[0]
      case In(event) =>
        assert EvsOf(steps) == EvsOf(rest);
        ActsCounted(RepeatAfter(r, event), rest);
        PushesOnly(Bytes(event));
        PopsBoth(Pushes(Bytes(event)), Acts(RepeatAfter(r, event), rest));
      case Ev(cb) =>
        assert EvsOf(steps)[1..] == EvsOf(rest);
        ActsCounted(r, rest);
        ActsCounted(CountedDown(r), rest);
        PushesOnly(RepeatedBytes(r));
        PopsBoth(Pushes(RepeatedBytes(r)), Acts(CountedDown(r), rest));
        PopsBoth([Pop], Acts(r, rest));
        assert [Pop][1..] == [];
    }
  }

  /** The bytes that find room, when there is room for so many at first. */
  function Taken(room: nat, acts: seq<Act>): seq<nat>
    decreases |acts|
  {
    if acts == [] then []
    else
      match acts[0]
      case Push(b) => if room == 0 then Taken(0, acts[1..]) else [b] + Taken(room - 1, acts[1..])
      case Pop => Taken(room + 1, acts[1..])
  }

  lemma {:induction false} RingIsTaken(p: Port, acts: seq<Act>)
    requires Pops(acts) <= |p.ring| <= KeyboardModel.KEYBUFSIZE
    ensures PlayAll(p, acts).ring == (p.ring + Taken(KeyboardModel.KEYBUFSIZE - |p.ring|, acts))[Pops(acts)..]
    decreases |acts|
  {
    if acts != [] {
      var rest := Taken(KeyboardModel.KEYBUFSIZE - |Play(p, acts[0]).ring|, acts[1..]);
      RingIsTaken(Play(p, acts[0]), acts[1..]);
      match acts[0]
      case Push(b) =>
        Join(p.ring, [b], rest);
      case Pop =>
        DropOne(p.ring, rest, Pops(acts[1..]));
    }
  }

  lemma DropOne<T>(a: seq<T>, b: seq<T>, n: nat)
    requires n < |a|
    ensures (a[1..] + b)[n..] == (a + b)[n + 1..]
  {
  }

  /** The same bytes find room in the ring in both orders. */
  predicate RingAgrees(r: KeyboardModel.Repeat, room: nat, due: seq<Callback>, first: EventsModel.UserEvent, rest: seq<EventsModel.UserEvent>) {
    Taken(room, Acts(r, UserSteps(due, first, rest))) == Taken(room, Acts(r, ReplaySteps(due, first, rest)))
  }

  // ----- the ring's part spelled out

  function First(n: nat, s: seq<nat>): seq<nat> {
    if n < |s| then s[..n] else s
  }

  lemma {:induction false} TakenPushes(room: nat, bytes: seq<nat>, acts: seq<Act>)
    ensures |First(room, bytes)| <= room
    ensures Taken(room, Pushes(bytes) + acts) == First(room, bytes) + Taken(room - |First(room, bytes)|, acts)
    decreases |bytes|
  {
    if bytes == [] {
      assert Pushes(bytes) + acts == acts;
    } else {
      assert (Pushes(bytes) + acts)[1..] == Pushes(bytes[1..]) + acts;
      TakenPushes(if room == 0 then 0 else room - 1, bytes[1..], acts);
      if room > 0 {
        FirstTail(room, bytes);
        Join([bytes[0]], First(room - 1, bytes[1..]), Taken(room - |First(room, bytes)|, acts));
      }
    }
  }

  lemma FirstTail(n: nat, s: seq<nat>)
    requires n > 0 && s != []
    ensures First(n, s) == [s[0]] + First(n - 1, s[1..])
  {
  }

  lemma TakenOnly(room: nat, bytes: seq<nat>)
    ensures Taken(room, Pushes(bytes)) == First(room, bytes)
  {
    TakenPushes(room, bytes, []);
    assert Pushes(bytes) + [] == Pushes(bytes);
    assert First(room, bytes) + [] == First(room, bytes);
  }

  /** Bytes ahead of a transfer and bytes behind it. */
  lemma TakenAround(room: nat, x: seq<nat>, y: seq<nat>)
    ensures Taken(room, Pushes(x) + ([Pop] + Pushes(y))) == First(room + 1, First(room, x) + y)
  {
    TakenPushes(room, x, [Pop] + Pushes(y));
    assert ([Pop] + Pushes(y))[1..] == Pushes(y);
    TakenOnly(room - |First(room, x)| + 1, y);
  }

  lemma PushesBoth(a: seq<nat>, b: seq<nat>)
    ensures Pushes(a) + Pushes(b) == Pushes(a + b)
  {
  }

  /** The bytes of all inputs. */
  function AllBytes(inputs: seq<EventsModel.UserEvent>): seq<nat>
    decreases |inputs|
  {
    if inputs == [] then [] else Bytes(inputs[0]) + AllBytes(inputs[1..])
  }

  /** Inputs bring the same bytes whatever the typematic state. */
  lemma {:induction false} InsActs(r: KeyboardModel.Repeat, inputs: seq<EventsModel.UserEvent>)
    ensures Acts(r, Ins(inputs)) == Pushes(AllBytes(inputs))
    decreases |inputs|
  {
    if inputs != [] {
      hide Bytes, Pushes;
      assert Ins(inputs)[1..] == Ins(inputs[1..]);
      InsActs(RepeatAfter(r, inputs[0]), inputs[1..]);
      PushesBoth(Bytes(inputs[0]), AllBytes(inputs[1..]));
    }
  }

  lemma ActsFirst(r: KeyboardModel.Repeat, first: EventsModel.UserEvent, steps: seq<Step>)
    ensures Acts(r, [In(first)] + steps) == Pushes(Bytes(first)) + Acts(RepeatAfter(r, first), steps)
  {
    assert ([In(first)] + steps)[1..] == steps;
  }

  /** What the events due do to the port, when the held key's bytes are b. */
  function DueActs(b: seq<nat>, due: seq<Callback>): seq<Act>
    decreases |due|
  {
    if due == [] then []
    else
      (match due[0]
       case KeyboardEveryMsec => Pushes(b)
       case KeyboardTransfer => [Pop]
       case _ => []) + DueActs(b, due[1..])
  }

  lemma {:induction false} DueActsAlike(b: seq<nat>, b': seq<nat>, due: seq<Callback>)
    requires KeyboardEveryMsec !in due
    ensures DueActs(b, due) == DueActs(b', due)
    decreases |due|
  {
    if due != [] {
      DueActsAlike(b, b', due[1..]);
    }
  }

  /** Whatever the typematic state, the steps push these bytes. */
  ghost predicate AlwaysPushes(steps: seq<Step>, bytes: seq<nat>) {
    forall r: KeyboardModel.Repeat :: Acts(r, steps) == Pushes(bytes)
  }

  lemma PushesNow(r: KeyboardModel.Repeat, steps: seq<Step>, bytes: seq<nat>)
    requires AlwaysPushes(steps, bytes)
    ensures Acts(r, steps) == Pushes(bytes)
  {
  }

  lemma {:induction false} EvsActs(r: KeyboardModel.Repeat, due: seq<Callback>, steps: seq<Step>, bytes: seq<nat>)
    requires Distinct(due) && AlwaysPushes(steps, bytes)
    ensures Acts(r, Evs(due) + steps) == DueActs(RepeatedBytes(r), due) + Pushes(bytes)
    decreases |due|
  {
    hide RepeatedBytes, Pushes, AlwaysPushes, CountedDown;
    if due == [] {
      assert Evs(due) + steps == steps;
      PushesNow(r, steps, bytes);
      assert [] + Pushes(bytes) == Pushes(bytes);
    } else {
      var after, rest, b := CountedDown(r), Evs(due[1..]) + steps, RepeatedBytes(r);
      assert (Evs(due) + steps)[1..] == rest && (Evs(due) + steps)[0] == Ev(due[0]);
      assert Distinct(due[1..]);
      if due[0] == KeyboardEveryMsec {
        EvsActs(after, due[1..], steps, bytes);
        DueActsAlike(RepeatedBytes(after), b, due[1..]);
        Join(Pushes(b), DueActs(b, due[1..]), Pushes(bytes));
      } else {
        EvsActs(r, due[1..], steps, bytes);
        Join([Pop], DueActs(b, due[1..]), Pushes(bytes));
        assert [] + DueActs(b, due[1..]) == DueActs(b, due[1..]);
      }
    }
  }

  /** The transfer is due behind the periodic event. */
  predicate TransferLate(due: seq<Callback>) {
    due != [] && if due[0] == KeyboardEveryMsec then KeyboardTransfer in due[1..] else TransferLate(due[1..])
  }

  lemma {:induction false} DueActsAre(b: seq<nat>, due: seq<Callback>)
    requires Distinct(due)
    ensures TransferLate(due) ==> KeyboardTransfer in due && KeyboardEveryMsec in due
    ensures var bytes := if KeyboardEveryMsec in due then b else [];
      DueActs(b, due) == if KeyboardTransfer !in due then Pushes(bytes)
                         else if TransferLate(due) then Pushes(bytes) + [Pop] else [Pop] + Pushes(bytes)
    decreases |due|
  {
    if due != [] {
      var rest := due[1..];
      assert Distinct(rest);
      DueActsAre(b, rest);
      assert forall cb: Callback :: cb in due <==> cb == due[0] || cb in rest;
      assert due[0] !in rest;
      if due[0] == KeyboardEveryMsec || due[0] == KeyboardTransfer {
        NotLate(rest);
      }
      assert [] + DueActs(b, rest) == DueActs(b, rest);
      assert Pushes(b) + Pushes([]) == Pushes(b) && [Pop] + Pushes([]) == [Pop] && Pushes([]) + [Pop] == [Pop];
    }
  }

  lemma {:induction false} NotLate(due: seq<Callback>)
    requires KeyboardEveryMsec !in due || KeyboardTransfer !in due
    ensures !TransferLate(due)
    decreases |due|
  {
    if due != [] {
      NotLate(due[1..]);
    }
  }

  /** How many bytes find room: a transfer makes room for one more. */
  function Limit(room: nat, due: seq<Callback>): nat {
    room + if KeyboardTransfer in due then 1 else 0
  }

  /** What the user's order offers: the held key's bytes b, those of the first input, the
      rest. Bytes ahead of the transfer are dropped when the ring is full. */
  function UserBytes(room: nat, due: seq<Callback>, b: seq<nat>, f: seq<nat>, t: seq<nat>): seq<nat> {
    (if TransferLate(due) then First(room, b) else b) + (f + t)
  }

  /** What the replay's order offers, with b for the bytes the held key still brings. */
  function ReplayBytes(room: nat, due: seq<Callback>, b: seq<nat>, f: seq<nat>, t: seq<nat>): seq<nat> {
    if KeyboardTransfer !in due then f + (b + t)
    else if TransferLate(due) then First(room, f + b) + t
    else First(room, f) + (b + t)
  }

  lemma UserTaken(r: KeyboardModel.Repeat, room: nat, due: seq<Callback>, first: EventsModel.UserEvent, rest: seq<EventsModel.UserEvent>)
    requires Distinct(due)
    ensures var b := if KeyboardEveryMsec in due then RepeatedBytes(r) else [];
      Taken(room, Acts(r, UserSteps(due, first, rest)))
        == First(Limit(room, due), UserBytes(room, due, b, Bytes(first), AllBytes(rest)))
  {
    hide Acts, Taken, Pushes, Bytes, AllBytes, RepeatedBytes, RepeatAfter, Distinct, First, DueActs;
    var f, t := Bytes(first), AllBytes(rest);
    var b := if KeyboardEveryMsec in due then RepeatedBytes(r) else [];
    forall r': KeyboardModel.Repeat ensures Acts(r', [In(first)] + Ins(rest)) == Pushes(f + t) {
      ActsFirst(r', first, Ins(rest));
      InsActs(RepeatAfter(r', first), rest);
      PushesBoth(f, t);
    }
    EvsActs(r, due, [In(first)] + Ins(rest), f + t);
    DueActsAre(RepeatedBytes(r), due);
    PushesBoth(b, f + t);
    if KeyboardTransfer !in due {
      NotLate(due);
      TakenOnly(room, b + (f + t));
    } else if TransferLate(due) {
      Join(Pushes(b), [Pop], Pushes(f + t));
      TakenAround(room, b, f + t);
    } else {
      Join([Pop], Pushes(b), Pushes(f + t));
      TakenAfterPop(room, b + (f + t));
    }
  }

  lemma TakenAfterPop(room: nat, bytes: seq<nat>)
    ensures Taken(room, [Pop] + Pushes(bytes)) == First(room + 1, bytes)
  {
    assert ([Pop] + Pushes(bytes))[1..] == Pushes(bytes);
    TakenOnly(room + 1, bytes);
  }

  lemma ReplayTaken(r: KeyboardModel.Repeat, room: nat, due: seq<Callback>, first: EventsModel.UserEvent, rest: seq<EventsModel.UserEvent>)
    requires Distinct(due)
    ensures var b := if KeyboardEveryMsec in due then RepeatedBytes(RepeatAfter(r, first)) else [];
      Taken(room, Acts(r, ReplaySteps(due, first, rest)))
        == First(Limit(room, due), ReplayBytes(room, due, b, Bytes(first), AllBytes(rest)))
  {
    hide Acts, Taken, Pushes, Bytes, AllBytes, RepeatedBytes, RepeatAfter, Distinct, First, DueActs;
    var f, t, after := Bytes(first), AllBytes(rest), RepeatAfter(r, first);
    var b := if KeyboardEveryMsec in due then RepeatedBytes(after) else [];
    forall r': KeyboardModel.Repeat ensures Acts(r', Ins(rest)) == Pushes(t) {
      InsActs(r', rest);
    }
    ActsFirst(r, first, Evs(due) + Ins(rest));
    EvsActs(after, due, Ins(rest), t);
    DueActsAre(RepeatedBytes(after), due);
    PushesBoth(b, t);
    if KeyboardTransfer !in due {
      PushesBoth(f, b + t);
      TakenOnly(room, f + (b + t));
    } else if TransferLate(due) {
      Join(Pushes(b), [Pop], Pushes(t));
      Join(Pushes(f), Pushes(b), [Pop] + Pushes(t));
      PushesBoth(f, b);
      TakenAround(room, f + b, t);
    } else {
      Join([Pop], Pushes(b), Pushes(t));
      TakenAround(room, f, b + t);
    }
  }

  /** What the held key still brings behind the first input: an ordinary key, pressed or
      released, stops it. */
  function Again(b: seq<nat>, first: EventsModel.UserEvent): seq<nat> {
    if SetsRepeat(first) then [] else b
  }

  /** The ring's part of the tick, from the bytes: without a repeat, only a transfer and a
      ring too full for the first input's bytes f can tell the orders apart, and do
      unless the byte that comes in behind the transfer is the one f lost. */
  predicate RingUnmoved(r: KeyboardModel.Repeat, room: nat, due: seq<Callback>, first: EventsModel.UserEvent, rest: seq<EventsModel.UserEvent>) {
    var b, f, t := RepeatedBytes(r), Bytes(first), AllBytes(rest);
    if KeyboardEveryMsec in due && RepeatsNow(r) then
      First(Limit(room, due), UserBytes(room, due, b, f, t))
        == First(Limit(room, due), ReplayBytes(room, due, Again(b, first), f, t))
    else KeyboardTransfer !in due || |f| <= room || (t != [] && t[0] == f[room])
  }

  lemma StillBrings(r: KeyboardModel.Repeat, first: EventsModel.UserEvent)
    requires r.pause >= 2 && r.rate >= 2
    ensures RepeatedBytes(RepeatAfter(r, first)) == Again(RepeatedBytes(r), first)
    ensures !RepeatsNow(r) ==> RepeatedBytes(r) == []
  {
  }

  /** Which bytes find room is decided by the room, the bytes and the order of transfer
      and periodic event, for every ring. */
  lemma RingAgreesIff(r: KeyboardModel.Repeat, room: nat, due: seq<Callback>, first: EventsModel.UserEvent,
                      rest: seq<EventsModel.UserEvent>)
    requires Distinct(due) && r.pause >= 2 && r.rate >= 2
    ensures RingAgrees(r, room, due, first, rest) <==> RingUnmoved(r, room, due, first, rest)
  {
    hide Acts, Taken, Bytes, AllBytes, RepeatedBytes, RepeatAfter, Distinct, First, SetsRepeat, RepeatsNow;
    UserTaken(r, room, due, first, rest);
    ReplayTaken(r, room, due, first, rest);
    StillBrings(r, first);
    if !(KeyboardEveryMsec in due && RepeatsNow(r)) {
      WithoutRepeat(room, due, Bytes(first), AllBytes(rest));
    }
  }

  lemma WithoutRepeat(room: nat, due: seq<Callback>, f: seq<nat>, t: seq<nat>)
    ensures First(Limit(room, due), UserBytes(room, due, [], f, t)) == First(Limit(room, due), ReplayBytes(room, due, [], f, t))
      <==> KeyboardTransfer !in due || |f| <= room || (t != [] && t[0] == f[room])
  {
    hide TransferLate;
    assert [] + (f + t) == f + t && [] + t == t && f + [] == f;
    if KeyboardTransfer in due && |f| > room {
      assert First(room + 1, f + t) == f[..room] + [f[room]];
      assert First(room + 1, f[..room] + t) == f[..room] + First(1, t);
      assert t != [] ==> First(1, t) == [t[0]];
    }
  }

  /** When the ring has room for every byte, the two orders differ exactly when the
      periodic event repeats the held key at this tick. */
  lemma RingWithRoom(r: KeyboardModel.Repeat, room: nat, due: seq<Callback>, first: EventsModel.UserEvent,
                     rest: seq<EventsModel.UserEvent>)
    requires Distinct(due) && r.pause >= 2 && r.rate >= 2 && Bytes(first) != []
    requires r.wait > 0 ==> r.key.Plain? || r.key.Extended?
    requires |RepeatedBytes(r)| + |Bytes(first)| + |AllBytes(rest)| <= room
    ensures RingAgrees(r, room, due, first, rest) <==> !(KeyboardEveryMsec in due && RepeatsNow(r))
  {
    hide Acts, Taken, Bytes, AllBytes, RepeatedBytes, RepeatAfter, Distinct, SetsRepeat, RepeatsNow, RingAgrees, TransferLate;
    RingAgreesIff(r, room, due, first, rest);
    RepeatedFirst(r, first);
    if KeyboardEveryMsec in due && RepeatsNow(r) {
      var b, f, t := RepeatedBytes(r), Bytes(first), AllBytes(rest);
      var b' := Again(b, first);
      Join(b, f, t);
      Join(f, b', t);
      if b + (f + t) == f + (b' + t) {
        SameFront(b + f, f + b', t);
      }
    }
  }

  lemma SameFront<T>(a: seq<T>, b: seq<T>, c: seq<T>)
    requires a + c == b + c
    ensures a == b
  {
    assert |a| == |b|;
    assert a == (a + c)[..|a|];
    assert b == (b + c)[..|b|];
  }

  /** Behind an ordinary key nothing repeats at once; the bytes of Pause do not mix
      with those of an ordinary key. */
  lemma RepeatedFirst(r: KeyboardModel.Repeat, first: EventsModel.UserEvent)
    requires Bytes(first) != [] && (r.wait > 0 ==> r.key.Plain? || r.key.Extended?)
    ensures var (b, f) := (RepeatedBytes(r), Bytes(first));
      && (RepeatsNow(r) <==> 1 <= |b| <= 2) && |Again(b, first)| <= |b| && |f| <= 3
      && (b != [] ==> b + f != f + Again(b, first))
      && (b != [] && !SetsRepeat(first) ==> |f| == 3 && (b + f)[..2] != (f + b)[..2])
  {
    var b, f := RepeatedBytes(r), Bytes(first);
    if b != [] {
      if SetsRepeat(first) {
        assert |b + f| != |f + []|;
      } else {
        assert f[0] == 0xe1 && f[1] != 0xe1;
        assert (b + f)[0] != (f + b)[0] || (b + f)[1] != (f + b)[1];
        assert (b + f)[..2][0] != (f + b)[..2][0] || (b + f)[..2][1] != (f + b)[..2][1];
      }
    }
  }

  /** x is b over and over, as far as n bytes go. */
  predicate Cycles(n: nat, b: seq<nat>, x: seq<nat>) {
    b != [] && n <= |x| && forall i | 0 <= i < n :: x[i] == b[i % |b|]
  }

  lemma CyclesIff(n: nat, b: seq<nat>, x: seq<nat>)
    requires 1 <= |b| <= 2
    ensures First(n, b + x) == First(n, x) <==> Cycles(n, b, x)
  {
    if Cycles(n, b, x) {
      CyclesBack(n, b, x);
    }
    if First(n, b + x) == First(n, x) {
      assert n <= |x|;
      CyclesOn(n, b, x);
    }
  }

  lemma CyclesBack(n: nat, b: seq<nat>, x: seq<nat>)
    requires 1 <= |b| <= 2 && Cycles(n, b, x)
    ensures First(n, b + x) == First(n, x)
  {
    forall i | 0 <= i < n ensures (b + x)[i] == x[i] {
      if i >= |b| {
        assert (i - |b|) % |b| == i % |b|;
      }
    }
  }

  lemma {:induction false} CyclesOn(n: nat, b: seq<nat>, x: seq<nat>)
    requires 1 <= |b| <= 2 && n <= |x| && (b + x)[..n] == x[..n]
    ensures Cycles(n, b, x)
    decreases n
  {
    if n > 0 {
      assert (b + x)[..n][..n - 1] == (b + x)[..n - 1] && x[..n][..n - 1] == x[..n - 1];
      CyclesOn(n - 1, b, x);
      var i := n - 1;
      assert x[..n][i] == (b + x)[..n][i];
      if i >= |b| {
        assert (i - |b|) % |b| == i % |b|;
      }
    }
  }

  /** A repeat at this tick, and room for five bytes: the orders agree only if inputs
      fill the ring with nothing but the held key's own bytes. */
  lemma RepeatFills(r: KeyboardModel.Repeat, room: nat, due: seq<Callback>, first: EventsModel.UserEvent,
                    rest: seq<EventsModel.UserEvent>)
    requires Distinct(due) && r.pause >= 2 && r.rate >= 2 && Bytes(first) != [] && room >= 5
    requires KeyboardEveryMsec in due && RepeatsNow(r) && (r.key.Plain? || r.key.Extended?)
    ensures RingAgrees(r, room, due, first, rest)
      <==> SetsRepeat(first) && Cycles(Limit(room, due), RepeatedBytes(r), Bytes(first) + AllBytes(rest))
  {
    hide Acts, Taken, Bytes, AllBytes, RepeatedBytes, RepeatAfter, Distinct, SetsRepeat, RepeatsNow, RingAgrees, TransferLate, Cycles;
    RingAgreesIff(r, room, due, first, rest);
    RepeatedFirst(r, first);
    var b, f, t, n := RepeatedBytes(r), Bytes(first), AllBytes(rest), Limit(room, due);
    assert f + [] == f && [] + t == t;
    if SetsRepeat(first) {
      CyclesIff(n, b, f + t);
    } else {
      Join(b, f, t);
      Join(f, b, t);
      FirstTwo(n, b + f, f + b, t);
    }
  }

  lemma FirstTwo(n: nat, x: seq<nat>, y: seq<nat>, t: seq<nat>)
    requires n >= 2 && |x| >= 2 && |y| >= 2 && x[..2] != y[..2]
    ensures First(n, x + t) != First(n, y + t)
  {
    assert First(n, x + t)[..2] == x[..2] && First(n, y + t)[..2] == y[..2];
  }

  /** Without a repeat and without a transfer nothing comes between the bytes. */
  lemma RingAgreesQuiet(r: KeyboardModel.Repeat, room: nat, due: seq<Callback>, first: EventsModel.UserEvent,
                        rest: seq<EventsModel.UserEvent>)
    requires Distinct(due) && r.pause >= 2 && r.rate >= 2 && KeyboardTransfer !in due && !(KeyboardEveryMsec in due && RepeatsNow(r))
    ensures RingAgrees(r, room, due, first, rest)
  {
    RingAgreesIff(r, room, due, first, rest);
  }

  lemma StepsCounted(due: seq<Callback>, first: EventsModel.UserEvent, rest: seq<EventsModel.UserEvent>)
    ensures EvsOf(UserSteps(due, first, rest)) == due == EvsOf(ReplaySteps(due, first, rest))
    ensures Bytes(first) != [] ==> SomeBytes(UserSteps(due, first, rest)) && SomeBytes(ReplaySteps(due, first, rest))
  {
    EvsOfEvs(due);
    EvsOfIns(rest);
    EvsOfBoth(Evs(due), Ins(rest));
    EvsOfBoth([In(first)], Evs(due) + Ins(rest));
    EvsOfBoth([In(first)], Ins(rest));
    EvsOfBoth(Evs(due), [In(first)] + Ins(rest));
    assert EvsOf([In(first)]) == [] by {
      assert [In(first)][1..] == [];
    }
    assert UserSteps(due, first, rest)[|due|] == In(first) == ReplaySteps(due, first, rest)[0];
  }

  lemma PortDecides(r: KeyboardModel.Repeat, p: Port, due: seq<Callback>, first: EventsModel.UserEvent, rest: seq<EventsModel.UserEvent>)
    requires PortSound(p) && Transfers(due) <= 1 && (Transfers(due) == 1 ==> p.scheduled) && Bytes(first) != []
    ensures PlayAll(p, Acts(r, UserSteps(due, first, rest))) == PlayAll(p, Acts(r, ReplaySteps(due, first, rest)))
      <==> RingAgrees(r, KeyboardModel.KEYBUFSIZE - |p.ring|, due, first, rest)
  {
    hide Acts, PlayAll, Taken, UserSteps, ReplaySteps;
    StepsCounted(due, first, rest);
    ActsCounted(r, UserSteps(due, first, rest));
    ActsCounted(r, ReplaySteps(due, first, rest));
    PortFlags(p, Acts(r, UserSteps(due, first, rest)));
    PortFlags(p, Acts(r, ReplaySteps(due, first, rest)));
    RingIsTaken(p, Acts(r, UserSteps(due, first, rest)));
    RingIsTaken(p, Acts(r, ReplaySteps(due, first, rest)));
    var room := KeyboardModel.KEYBUFSIZE - |p.ring|;
    SameEnd(p.ring, Taken(room, Acts(r, UserSteps(due, first, rest))),
            Taken(room, Acts(r, ReplaySteps(due, first, rest))), Transfers(due));
  }

  lemma SameEnd<T>(a: seq<T>, b: seq<T>, c: seq<T>, n: nat)
    requires n <= |a|
    ensures (a + b)[n..] == (a + c)[n..] <==> b == c
  {
    assert b == (a + b)[n..][|a| - n..];
    assert c == (a + c)[n..][|a| - n..];
  }

  // ----- controllers and timer see the callbacks only

  function TimerFired(t: HwTimerModel.Timer): (r: HwTimerModel.Timer)
    requires |t.pit| == 3
    ensures |r.pit| == 3
  {
    if t.pit[0].mode == 0 then t else t.(pit := t.pit[0 := HwTimerModel.Reloaded(t.pit[0])])
  }

  function Called(p: PicModel.Pic, t: HwTimerModel.Timer, cbs: seq<Callback>): (PicModel.Pic, HwTimerModel.Timer)
    requires |p.irqs| == PicModel.IRQS && |t.pit| == 3
    decreases |cbs|
  {
    if cbs == [] then (p, t)
    else
      match cbs[0]
      case KeyboardTransfer => Called(PicModel.Activate(p, 1), t, cbs[1..])
      case PitEvent => Called(PicModel.Activate(p, 0), TimerFired(t), cbs[1..])
      case _ => Called(p, t, cbs[1..])
  }

  lemma {:induction false} CalledOfSketch(z: Sketch, ticks: nat, steps: seq<Step>)
    requires |z.p.irqs| == PicModel.IRQS && |z.t.pit| == 3
    ensures var f := RunSketch(z, ticks, steps); (f.p, f.t) == Called(z.p, z.t, EvsOf(steps))
    decreases |steps|
  {
    if steps != [] {
      hide PlayAll, Pushes, Play, HwTimerModel.Reloaded;
      CalledOfSketch(StepSketch(z, ticks, steps[0]), ticks, steps[1..]);
      assert steps[0].Ev? ==> EvsOf(steps)[1..] == EvsOf(steps[1..]);
      assert steps[0].In? ==> EvsOf(steps) == EvsOf(steps[1..]);
    }
  }
}
