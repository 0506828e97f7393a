/** Recording and replaying: a machine fed by a recorded file goes through the same
    states as the machine that was fed by its user. */
module RecordReplay {
  import opened Basics
  import opened Scheduler
  import opened Machine
  import opened ReplaySame
  import opened ReplaySketch
  import opened ReplayFeed

  import PicModel
  import KeyboardModel
  import HwTimerModel
  import EventsModel

  // ----- one turn of the decode loop

  lemma {:induction false} DoAllSame(m: M, r: M, ops: seq<PortOp>)
    requires Inv(m) && Inv(r) && Same(m, r) && Roomy(m.s) && AllEnabled(m, ops)
    ensures Roomy(r.s) && AllEnabled(r, ops) && Same(DoAll(m, ops), DoAll(r, ops))
    decreases |ops|
  {
    if ops != [] {
      hide Do, Enabled, Same;
      SameClock(m, r);
      DoSame(m, r, ops[0]);
      DoKeeps(m, ops[0]);
      DoKeeps(r, ops[0]);
      DoAllSame(Do(m, ops[0]), Do(r, ops[0]), ops[1..]);
    }
  }

  lemma SameClock(m: M, r: M)
    requires Same(m, r)
    ensures m.s.ticks == r.s.ticks && m.p == r.p
  {
  }

  lemma TickSame(m: M, r: M)
    requires Inv(m) && Inv(r) && Same(m, r) && RoomFor(m, 1) && Ahead(r.e, m.s.ticks)
    ensures RoomFor(r, 1) && Same(Tick(m), Tick(r)) && Tick(m).e == m.e && Tick(r).e == r.e
  {
    hide RunEvents, Inv, FileLeft, DueCount, Same, Charge;
    SameClock(m, r);
    RunEventsSame(m, r);
    ChargeSame(RunEvents(m), RunEvents(r));
  }

  lemma ChargeSame(m: M, r: M)
    requires Same(m, r)
    ensures Same(Charge(m), Charge(r)) && Charge(m).e == m.e && Charge(r).e == r.e
  {
  }

  /** An instruction with no record due does the same to both machines. */
  lemma MoveSame(m: M, r: M, i: Instruction)
    requires Inv(m) && Inv(r) && Same(m, r) && RoomFor(m, 1) && Ahead(r.e, m.s.ticks)
    requires CanMove(m, Execute(i))
    ensures RoomFor(r, 1) && CanMove(r, Execute(i)) && Same(Moved(m, Execute(i)), Moved(r, Execute(i)))
    ensures Moved(m, Execute(i)).e == m.e && Moved(r, Execute(i)).e == r.e
  {
    hide RunEvents;
    var dm, dr := Deliver(m, i.deliver), Deliver(r, i.deliver);
    DeliverKeeps(m, i.deliver);
    DeliverKeeps(r, i.deliver);
    TickSame(dm, dr);
    TickKeeps(dm, |m.e.injected|);
    TickKeeps(dr, |r.e.injected|);
    DoAllSame(Tick(dm), Tick(dr), i.ops);
  }

  /** What a guest program can see of the devices. */
  datatype Seen = Seen(ticks: nat, p: PicModel.Pic, k: KeyboardModel.Kbd, t: HwTimerModel.Timer)

  function See(m: M): Seen {
    Seen(m.s.ticks, m.p, m.k, m.t)
  }

  /** The processor and its memory, whatever they hold: whether interrupts are on,
      what taking one does, and what the next instruction does. */
  datatype Guest<!G> = Guest(
    interruptsOn: G -> bool, interrupted: (G, PicModel.Pic) -> G, execute: (G, Seen) -> (G, seq<PortOp>))

  predicate InterruptsHandled<G>(c: Guest<G>, m: M, g: G)
    requires PicModel.WellFormed(m.p)
  {
    c.interruptsOn(g) ==> PicModel.RotationOff(m.p)
  }

  /** The guest's next state, and its instruction as seen by the devices. */
  ghost function Decoded<G>(c: Guest<G>, m: M, g: G): (G, Instruction)
    requires Inv(m) && RoomFor(m, 1) && InterruptsHandled(c, m, g)
  {
    var deliver := c.interruptsOn(g);
    DeliverKeeps(m, deliver);
    var (g', ops) := c.execute(if deliver then c.interrupted(g, m.p) else g, See(Tick(Deliver(m, deliver))));
    (g', Instruction(deliver, ops))
  }

  ghost predicate CanTurn<G>(c: Guest<G>, m: M, g: G)
    requires Inv(m) && RoomFor(m, 1)
  {
    InterruptsHandled(c, m, g) && CanMove(m, Execute(Decoded(c, m, g).1))
  }

  ghost function Turn<G>(c: Guest<G>, m: M, g: G): (M, G)
    requires Inv(m) && RoomFor(m, 1) && CanTurn(c, m, g)
  {
    var (g', i) := Decoded(c, m, g);
    (Moved(m, Execute(i)), g')
  }

  /** The guest cannot tell the replay from the original. */
  lemma TurnSame<G>(c: Guest<G>, m: M, r: M, g: G)
    requires Inv(m) && Inv(r) && Same(m, r) && RoomFor(m, 1) && Ahead(r.e, m.s.ticks) && CanTurn(c, m, g)
    ensures RoomFor(r, 1) && CanTurn(c, r, g)
    ensures var ((m', g1), (r', g2)) := (Turn(c, m, g), Turn(c, r, g));
      && g1 == g2 && Same(m', r') && m'.e == m.e && r'.e == r.e
      && Inv(m') && Inv(r') && m'.s.ticks == m.s.ticks + 1
  {
    var deliver := c.interruptsOn(g);
    DeliverKeeps(m, deliver);
    DeliverKeeps(r, deliver);
    TickSame(Deliver(m, deliver), Deliver(r, deliver));
    var i := Decoded(c, m, g).1;
    assert Decoded(c, r, g) == Decoded(c, m, g);
    MoveSame(m, r, i);
    MoveKeeps(m, Execute(i), |m.e.injected|);
    MoveKeeps(r, Execute(i), |r.e.injected|);
  }

  // ----- sessions

  /** One turn of dospack_loop's body and the decode loop: perhaps a due check and
      the user's inputs, then an instruction. */
  datatype Round = Round(poll: bool, inputs: seq<EventsModel.UserEvent>)

  /** Inputs arrive only behind a due check. */
  predicate Fits(round: Round) {
    round.inputs != [] ==> round.poll && forall x | x in round.inputs :: EventsModel.Injectable(x)
  }

  ghost function Polled(m: M, round: Round): M
    requires Inv(m) && Roomy(m.s)
  {
    if round.poll then RunEvents(m) else m
  }

  lemma PolledKeeps(m: M, round: Round)
    requires Inv(m) && Roomy(m.s)
    ensures Inv(Polled(m, round)) && Polled(m, round).s.ticks == m.s.ticks
    ensures m.e.replayFile.None? ==> Polled(m, round).e == m.e
    ensures !Due(m.s) ==> Polled(m, round) == m
  {
    RunEventsKeeps(m, |m.e.injected|);
    if m.e.replayFile.None? {
      NoReplayNoEvents(m);
    }
  }

  lemma {:induction false} NoReplayNoEvents(m: M)
    requires Inv(m) && Roomy(m.s) && m.e.replayFile.None?
    ensures RunEvents(m).e == m.e
    decreases FileLeft(m.e), DueCount(m.s.queue, m.s.ticks)
  {
    if Due(m.s) {
      FireKeeps(m);
      NoReplayNoEvents(Fire(m));
    }
  }

  /** The machine with its user at the keyboard, when the instruction starts. */
  ghost function Fed(m: M, round: Round): M
    requires Inv(m) && Roomy(m.s)
  {
    InjectAll(Polled(m, round), round.inputs)
  }

  lemma FedKeeps(m: M, round: Round)
    requires Inv(m) && Roomy(m.s) && m.e.replayFile.None?
    ensures var m' := Fed(m, round);
      && Inv(m') && m'.s.ticks == m.s.ticks && m'.e.replayFile.None?
      && Logged(m.e, m'.e, Stamped(round.inputs, m.s.ticks))
  {
    PolledKeeps(m, round);
    InjectAllKeeps(Polled(m, round), round.inputs);
  }

  /** A user's round and the replay of it: the recorded inputs are injected, and both
      machines are in the same place exactly if the tick agrees. */
  lemma FeedReplayed(m: M, r: M, round: Round, later: seq<EventsModel.Record>)
    requires Inv(m) && Inv(r) && Same(m, r) && Roomy(m.s) && m.e.replayFile.None? && Fits(round)
    requires EventsModel.Remaining(r.e) == Stamped(round.inputs, m.s.ticks) + later && After(later, m.s.ticks)
    ensures Roomy(r.s) && Inv(Polled(r, round))
    ensures Same(Fed(m, round), Polled(r, round)) <==> TickAgrees(r, round.inputs)
    ensures EventsModel.Remaining(Polled(r, round).e) == later
    ensures Polled(r, round).e.injected == r.e.injected + Stamped(round.inputs, m.s.ticks)
    ensures Ahead(Polled(r, round).e, m.s.ticks)
  {
    hide RunEvents, Inv, EventsModel.Remaining, Same, InjectAll, After;
    SameClock(m, r);
    if round.poll {
      TickReplayed(m, r, round.inputs, later);
    } else {
      assert Stamped(round.inputs, m.s.ticks) == [] && [] + later == later;
      assert r.e.injected + [] == r.e.injected;
      InjectNothing(m);
    }
    LaterIsAhead(Polled(r, round).e, later, m.s.ticks);
  }

  lemma InjectNothing(m: M)
    ensures InjectAll(m, []) == m
  {
  }

  lemma LaterIsAhead(e: EventsModel.Events, later: seq<EventsModel.Record>, t: nat)
    requires EventsModel.Remaining(e) == later && After(later, t)
    ensures Ahead(e, t)
  {
    if e.replayFile.Some? {
      assert later[0] == e.pending;
    }
  }

  /** No turn aborts. */
  ghost predicate CanLive<G>(c: Guest<G>, m: M, g: G, rounds: seq<Round>)
    requires Inv(m) && RoomFor(m, |rounds|) && m.e.replayFile.None?
    decreases |rounds|
  {
    rounds != [] ==> (
      && Fits(rounds[0])
      && (FedKeeps(m, rounds[0]); CanTurn(c, Fed(m, rounds[0]), g))
      && (LiveTurnKeeps(c, m, g, rounds[0]);
          var (m', g') := Turn(c, Fed(m, rounds[0]), g);
          CanLive(c, m', g', rounds[1..])))
  }

  lemma LiveTurnKeeps<G>(c: Guest<G>, m: M, g: G, round: Round)
    requires Inv(m) && RoomFor(m, 1) && m.e.replayFile.None?
    requires (FedKeeps(m, round); CanTurn(c, Fed(m, round), g))
    ensures var (m', g') := (FedKeeps(m, round); Turn(c, Fed(m, round), g));
      && Inv(m') && m'.s.ticks == m.s.ticks + 1 && m'.e == Fed(m, round).e
  {
    FedKeeps(m, round);
    SameAsItself(Fed(m, round));
    TurnSame(c, Fed(m, round), Fed(m, round), g);
  }

  lemma SameAsItself(m: M)
    requires Inv(m) && m.e.replayFile.None?
    ensures Same(m, m)
  {
    WithoutAbsent(m.s.queue, ReplayEvent);
  }

  /** The session with a user. */
  ghost function Live<G>(c: Guest<G>, m: M, g: G, rounds: seq<Round>): (M, G)
    requires Inv(m) && RoomFor(m, |rounds|) && m.e.replayFile.None? && CanLive(c, m, g, rounds)
    decreases |rounds|
  {
    if rounds == [] then (m, g)
    else
      FedKeeps(m, rounds[0]);
      LiveTurnKeeps(c, m, g, rounds[0]);
      var (m', g') := Turn(c, Fed(m, rounds[0]), g);
      Live(c, m', g', rounds[1..])
  }

  /** The same session with nobody at the keyboard. */
  ghost predicate CanReplay<G>(c: Guest<G>, r: M, g: G, rounds: seq<Round>)
    requires Inv(r) && RoomFor(r, |rounds|)
    decreases |rounds|
  {
    rounds != [] ==> (
      && (PolledKeeps(r, rounds[0]); CanTurn(c, Polled(r, rounds[0]), g))
      && (PolledKeeps(r, rounds[0]); TurnKeeps(c, Polled(r, rounds[0]), g);
          var (r', g') := Turn(c, Polled(r, rounds[0]), g);
          CanReplay(c, r', g', rounds[1..])))
  }

  lemma TurnKeeps<G>(c: Guest<G>, m: M, g: G)
    requires Inv(m) && RoomFor(m, 1) && CanTurn(c, m, g)
    ensures Inv(Turn(c, m, g).0) && Turn(c, m, g).0.s.ticks == m.s.ticks + 1
  {
    MoveKeeps(m, Execute(Decoded(c, m, g).1), |m.e.injected|);
  }

  ghost function Replay<G>(c: Guest<G>, r: M, g: G, rounds: seq<Round>): (M, G)
    requires Inv(r) && RoomFor(r, |rounds|) && CanReplay(c, r, g, rounds)
    decreases |rounds|
  {
    if rounds == [] then (r, g)
    else
      PolledKeeps(r, rounds[0]);
      TurnKeeps(c, Polled(r, rounds[0]), g);
      var (r', g') := Turn(c, Polled(r, rounds[0]), g);
      Replay(c, r', g', rounds[1..])
  }

  /** What a session that starts at tick t records. */
  function Log(t: nat, rounds: seq<Round>): seq<EventsModel.Record>
    decreases |rounds|
  {
    if rounds == [] then [] else Stamped(rounds[0].inputs, t) + Log(t + 1, rounds[1..])
  }

  lemma {:induction false} LogIsOrdered(t: nat, rounds: seq<Round>)
    ensures forall i | 0 <= i < |Log(t, rounds)| :: t <= Log(t, rounds)[i].time < t + |rounds|
    ensures EventsModel.InTimeOrder(Log(t, rounds))
    decreases |rounds|
  {
    if rounds != [] {
      LogIsOrdered(t + 1, rounds[1..]);
    }
  }

  lemma {:induction false} LogSplit(t: nat, first: seq<Round>, rest: seq<Round>)
    ensures Log(t, first + rest) == Log(t, first) + Log(t + |first|, rest)
    decreases |first|
  {
    if first == [] {
      assert first + rest == rest;
    } else {
      assert (first + rest)[1..] == first[1..] + rest;
      LogSplit(t + 1, first[1..], rest);
    }
  }

  // ----- the theorem

  /** Every tick of the replay agrees with the user's. */
  ghost predicate TicksAgree<G>(c: Guest<G>, r: M, g: G, rounds: seq<Round>)
    requires Inv(r) && RoomFor(r, |rounds|)
    decreases |rounds|
  {
    rounds != [] ==> (
      && TickAgrees(r, rounds[0].inputs)
      && (PolledKeeps(r, rounds[0]);
          CanTurn(c, Polled(r, rounds[0]), g) ==> (
            TurnKeeps(c, Polled(r, rounds[0]), g);
            var (r', g') := Turn(c, Polled(r, rounds[0]), g);
            TicksAgree(c, r', g', rounds[1..]))))
  }

  /** At the start of every instruction the replaying machine is the same as the
      user's: devices, clock and pending events. */
  ghost predicate InStep<G>(c: Guest<G>, m: M, r: M, g: G, rounds: seq<Round>)
    requires Inv(m) && RoomFor(m, |rounds|) && m.e.replayFile.None? && CanLive(c, m, g, rounds)
    requires Inv(r) && RoomFor(r, |rounds|)
    decreases |rounds|
  {
    rounds != [] ==> (
      && Same(Fed(m, rounds[0]), Polled(r, rounds[0]))
      && (LiveFirst(c, m, g, rounds);
          PolledKeeps(r, rounds[0]);
          CanTurn(c, Polled(r, rounds[0]), g) ==> (
            TurnKeeps(c, Polled(r, rounds[0]), g);
            var (m', g') := Turn(c, Fed(m, rounds[0]), g);
            InStep(c, m', Turn(c, Polled(r, rounds[0]), g).0, g', rounds[1..]))))
  }

  /** What a replay that keeps in step ends with: the same guest, the same machine,
      the same log. */
  ghost predicate Reproduces<G>(c: Guest<G>, m: M, r: M, g: G, rounds: seq<Round>, tail: seq<EventsModel.Record>)
    requires Inv(m) && RoomFor(m, |rounds|) && m.e.replayFile.None? && CanLive(c, m, g, rounds)
    requires Inv(r) && RoomFor(r, |rounds|)
  {
    && CanReplay(c, r, g, rounds)
    && var ((m', g1), (r', g2)) := (Live(c, m, g, rounds), Replay(c, r, g, rounds));
      && g1 == g2 && Same(m', r')
      && r'.e.injected == r.e.injected + Log(m.s.ticks, rounds)
      && EventsModel.Remaining(r'.e) == tail
  }

  /** As long as the records still to be replayed are those the user's inputs make,
      then `tail`: the two sessions are in step exactly if every tick agrees, and then
      they end alike. */
  lemma {:induction false} SessionsAgree<G>(c: Guest<G>, m: M, r: M, g: G, rounds: seq<Round>, tail: seq<EventsModel.Record>)
    requires Inv(m) && Inv(r) && Same(m, r) && RoomFor(m, |rounds|) && RoomFor(r, |rounds|) && m.e.replayFile.None?
    requires CanLive(c, m, g, rounds)
    requires EventsModel.Remaining(r.e) == Log(m.s.ticks, rounds) + tail
    requires forall i | 0 <= i < |tail| :: tail[i].time >= m.s.ticks + |rounds|
    ensures InStep(c, m, r, g, rounds) <==> TicksAgree(c, r, g, rounds)
    ensures InStep(c, m, r, g, rounds) ==> Reproduces(c, m, r, g, rounds, tail)
    decreases |rounds|
  {
    hide Inv, Same, Logged, Stamped, Log, Fed, Polled, Turn, CanTurn, Fits, CanLive, CanReplay, Live, Replay,
      EventsModel.Remaining, InterruptsHandled, Decoded, TicksAgree, InStep, TickAgrees, Reproduces;
    if rounds == [] {
      NoRounds(c, m, r, g, tail);
    } else {
      var now, log := Stamped(rounds[0].inputs, m.s.ticks), Log(m.s.ticks + 1, rounds[1..]);
      LogFirst(m.s.ticks, rounds);
      LogIsOrdered(m.s.ticks + 1, rounds[1..]);
      Join(now, log, tail);
      LiveFirst(c, m, g, rounds);
      LogIsLater(log, tail, m.s.ticks);
      FeedReplayed(m, r, rounds[0], log + tail);
      if TickAgrees(r, rounds[0].inputs) {
        RoundAgrees(c, m, r, g, rounds[0], log, tail, |rounds|);
        var (m1, g') := Turn(c, Fed(m, rounds[0]), g);
        var (r1, _) := Turn(c, Polled(r, rounds[0]), g);
        SessionsAgree(c, m1, r1, g', rounds[1..], tail);
        InStepFirst(c, m, r, g, rounds);
        TicksFirst(c, r, g, rounds);
        if InStep(c, m1, r1, g', rounds[1..]) {
          ReproducesFirst(c, m, r, g, rounds, tail);
        }
      } else {
        OutOfStep(c, m, r, g, rounds);
      }
    }
  }

  lemma LogIsLater(log: seq<EventsModel.Record>, tail: seq<EventsModel.Record>, t: nat)
    requires After(log, t) && After(tail, t)
    ensures After(log + tail, t)
  {
  }

  lemma OutOfStep<G>(c: Guest<G>, m: M, r: M, g: G, rounds: seq<Round>)
    requires Inv(m) && RoomFor(m, |rounds|) && m.e.replayFile.None? && CanLive(c, m, g, rounds)
    requires Inv(r) && RoomFor(r, |rounds|) && rounds != []
    requires !TickAgrees(r, rounds[0].inputs) && !Same(Fed(m, rounds[0]), Polled(r, rounds[0]))
    ensures !InStep(c, m, r, g, rounds) && !TicksAgree(c, r, g, rounds)
  {
  }

  lemma InStepFirst<G>(c: Guest<G>, m: M, r: M, g: G, rounds: seq<Round>)
    requires Inv(m) && RoomFor(m, |rounds|) && m.e.replayFile.None? && CanLive(c, m, g, rounds)
    requires Inv(r) && RoomFor(r, |rounds|) && rounds != []
    requires Same(Fed(m, rounds[0]), Polled(r, rounds[0]))
    requires (PolledKeeps(r, rounds[0]); CanTurn(c, Polled(r, rounds[0]), g))
    ensures InStep(c, m, r, g, rounds) <==> (
      LiveFirst(c, m, g, rounds);
      PolledKeeps(r, rounds[0]);
      TurnKeeps(c, Polled(r, rounds[0]), g);
      var (m', g') := Turn(c, Fed(m, rounds[0]), g);
      InStep(c, m', Turn(c, Polled(r, rounds[0]), g).0, g', rounds[1..]))
  {
  }

  lemma TicksFirst<G>(c: Guest<G>, r: M, g: G, rounds: seq<Round>)
    requires Inv(r) && RoomFor(r, |rounds|) && rounds != [] && TickAgrees(r, rounds[0].inputs)
    requires (PolledKeeps(r, rounds[0]); CanTurn(c, Polled(r, rounds[0]), g))
    ensures TicksAgree(c, r, g, rounds) <==> (
      PolledKeeps(r, rounds[0]);
      TurnKeeps(c, Polled(r, rounds[0]), g);
      var (r', g') := Turn(c, Polled(r, rounds[0]), g);
      TicksAgree(c, r', g', rounds[1..]))
  {
  }

  lemma ReproducesFirst<G>(c: Guest<G>, m: M, r: M, g: G, rounds: seq<Round>, tail: seq<EventsModel.Record>)
    requires Inv(m) && Inv(r) && RoomFor(m, |rounds|) && RoomFor(r, |rounds|) && m.e.replayFile.None? && rounds != []
    requires CanLive(c, m, g, rounds)
    requires Inv(Polled(r, rounds[0])) && RoomFor(Polled(r, rounds[0]), 1) && CanTurn(c, Polled(r, rounds[0]), g)
    requires (LiveFirst(c, m, g, rounds);
      var ((m', g1), (r', g2)) := (Turn(c, Fed(m, rounds[0]), g), Turn(c, Polled(r, rounds[0]), g));
      && g1 == g2 && Inv(r') && RoomFor(r', |rounds| - 1) && m'.s.ticks == m.s.ticks + 1
      && r'.e.injected == r.e.injected + Stamped(rounds[0].inputs, m.s.ticks)
      && Reproduces(c, m', r', g1, rounds[1..], tail))
    ensures Reproduces(c, m, r, g, rounds, tail)
  {
    hide Inv, Same, Stamped, Log, Fed, Polled, Turn, CanTurn, Fits, CanLive, CanReplay, Live, Replay,
      EventsModel.Remaining, InterruptsHandled, Decoded;
    LiveFirst(c, m, g, rounds);
    LogFirst(m.s.ticks, rounds);
    ReplayFirst(c, r, g, rounds);
    Join(r.e.injected, Stamped(rounds[0].inputs, m.s.ticks), Log(m.s.ticks + 1, rounds[1..]));
  }

  lemma NoRounds<G>(c: Guest<G>, m: M, r: M, g: G, tail: seq<EventsModel.Record>)
    requires Inv(m) && Inv(r) && RoomFor(m, 0) && RoomFor(r, 0) && m.e.replayFile.None?
    requires EventsModel.Remaining(r.e) == Log(m.s.ticks, []) + tail
    requires Same(m, r)
    ensures CanLive(c, m, g, []) && InStep(c, m, r, g, []) && TicksAgree(c, r, g, [])
    ensures Reproduces(c, m, r, g, [], tail)
  {
    assert [] + tail == tail;
    assert r.e.injected + [] == r.e.injected;
  }

  lemma LogFirst(t: nat, rounds: seq<Round>)
    requires rounds != []
    ensures Log(t, rounds) == Stamped(rounds[0].inputs, t) + Log(t + 1, rounds[1..])
  {
  }

  /** The first round of a session with a user. */
  lemma LiveFirst<G>(c: Guest<G>, m: M, g: G, rounds: seq<Round>)
    requires Inv(m) && RoomFor(m, |rounds|) && m.e.replayFile.None? && CanLive(c, m, g, rounds) && rounds != []
    ensures Fits(rounds[0]) && Inv(Fed(m, rounds[0])) && RoomFor(Fed(m, rounds[0]), 1)
    ensures CanTurn(c, Fed(m, rounds[0]), g)
    ensures var (m', g') := Turn(c, Fed(m, rounds[0]), g);
      && Inv(m') && RoomFor(m', |rounds| - 1) && m'.e.replayFile.None?
      && CanLive(c, m', g', rounds[1..]) && Live(c, m, g, rounds) == Live(c, m', g', rounds[1..])
  {
    FedKeeps(m, rounds[0]);
    LiveTurnKeeps(c, m, g, rounds[0]);
  }

  /** The first round of a replay. */
  lemma ReplayFirst<G>(c: Guest<G>, r: M, g: G, rounds: seq<Round>)
    requires Inv(r) && RoomFor(r, |rounds|) && rounds != []
    requires Inv(Polled(r, rounds[0])) && RoomFor(Polled(r, rounds[0]), 1) && CanTurn(c, Polled(r, rounds[0]), g)
    requires var (r', g') := Turn(c, Polled(r, rounds[0]), g);
      Inv(r') && RoomFor(r', |rounds| - 1) && CanReplay(c, r', g', rounds[1..])
    ensures var (r', g') := Turn(c, Polled(r, rounds[0]), g);
      CanReplay(c, r, g, rounds) && Replay(c, r, g, rounds) == Replay(c, r', g', rounds[1..])
  {
    PolledKeeps(r, rounds[0]);
    TurnKeeps(c, Polled(r, rounds[0]), g);
  }

  lemma RoundAgrees<G>(c: Guest<G>, m: M, r: M, g: G, round: Round, log: seq<EventsModel.Record>,
                       tail: seq<EventsModel.Record>, n: nat)
    requires n > 0 && Inv(m) && Inv(r) && Same(m, r) && RoomFor(m, n) && RoomFor(r, n) && m.e.replayFile.None?
    requires Fits(round) && (FedKeeps(m, round); CanTurn(c, Fed(m, round), g))
    requires EventsModel.Remaining(r.e) == Stamped(round.inputs, m.s.ticks) + (log + tail)
    requires After(log, m.s.ticks) && TickAgrees(r, round.inputs)
    requires forall i | 0 <= i < |tail| :: tail[i].time >= m.s.ticks + n
    ensures Inv(Polled(r, round)) && RoomFor(Polled(r, round), 1) && CanTurn(c, Polled(r, round), g)
    ensures var ((m', g1), (r', g2)) := (FedKeeps(m, round); PolledKeeps(r, round);
                                         (Turn(c, Fed(m, round), g), Turn(c, Polled(r, round), g)));
      && g1 == g2 && Same(m', r') && Inv(m') && Inv(r') && m'.s.ticks == r'.s.ticks == m.s.ticks + 1
      && m'.e.replayFile.None? && Logged(m.e, m'.e, Stamped(round.inputs, m.s.ticks))
      && r'.e.injected == r.e.injected + Stamped(round.inputs, m.s.ticks)
      && EventsModel.Remaining(r'.e) == log + tail
  {
    FedKeeps(m, round);
    FeedReplayed(m, r, round, log + tail);
    TurnSame(c, Fed(m, round), Polled(r, round), g);
    LiveTurnKeeps(c, m, g, round);
  }

  /** A session that can go on can also stop earlier, and its log can be replayed. */
  lemma {:induction false} LivePrefix<G>(c: Guest<G>, m: M, g: G, first: seq<Round>, rest: seq<Round>)
    requires Inv(m) && RoomFor(m, |first| + |rest|) && m.e.replayFile.None?
    requires CanLive(c, m, g, first + rest)
    ensures CanLive(c, m, g, first) && EventsModel.Playable(Log(m.s.ticks, first))
    ensures var (m', g') := Live(c, m, g, first);
      && Inv(m') && RoomFor(m', |rest|) && m'.e.replayFile.None? && m'.s.ticks == m.s.ticks + |first|
      && CanLive(c, m', g', rest) && Live(c, m, g, first + rest) == Live(c, m', g', rest)
      && Logged(m.e, m'.e, Log(m.s.ticks, first))
    decreases |first|
  {
    hide Inv, Logged, Stamped, Log, Fed, Turn, CanTurn, Fits, InterruptsHandled, Decoded, CanLive, Live, EventsModel.Playable;
    if first == [] {
      assert first + rest == rest;
      NoLive(c, m, g);
    } else {
      assert (first + rest)[1..] == first[1..] + rest;
      LiveFirst(c, m, g, first + rest);
      LiveStarts(c, m, g, first[0]);
      var (m1, g1) := Turn(c, Fed(m, first[0]), g);
      LivePrefix(c, m1, g1, first[1..], rest);
      LiveCons(c, m, g, first);
      LogFirst(m.s.ticks, first);
      LoggedThen(m.e, m1.e, Live(c, m1, g1, first[1..]).0.e, Stamped(first[0].inputs, m.s.ticks), Log(m1.s.ticks, first[1..]));
      PlayableBoth(Stamped(first[0].inputs, m.s.ticks), Log(m1.s.ticks, first[1..]));
    }
  }

  lemma NoLive<G>(c: Guest<G>, m: M, g: G)
    requires Inv(m) && RoomFor(m, 0) && m.e.replayFile.None?
    ensures CanLive(c, m, g, []) && Live(c, m, g, []) == (m, g)
    ensures Log(m.s.ticks, []) == [] && EventsModel.Playable([]) && Logged(m.e, m.e, [])
  {
    LoggedNothing(m.e, []);
  }

  lemma LiveStarts<G>(c: Guest<G>, m: M, g: G, round: Round)
    requires Inv(m) && RoomFor(m, 1) && m.e.replayFile.None? && Fits(round)
    requires Inv(Fed(m, round)) && RoomFor(Fed(m, round), 1) && CanTurn(c, Fed(m, round), g)
    ensures var m' := Turn(c, Fed(m, round), g).0;
      m'.s.ticks == m.s.ticks + 1 && Logged(m.e, m'.e, Stamped(round.inputs, m.s.ticks))
    ensures EventsModel.Playable(Stamped(round.inputs, m.s.ticks))
  {
    FedKeeps(m, round);
    LiveTurnKeeps(c, m, g, round);
    StampedPlayable(round.inputs, m.s.ticks);
  }

  lemma LiveCons<G>(c: Guest<G>, m: M, g: G, rounds: seq<Round>)
    requires Inv(m) && RoomFor(m, |rounds|) && m.e.replayFile.None? && rounds != [] && Fits(rounds[0])
    requires Inv(Fed(m, rounds[0])) && RoomFor(Fed(m, rounds[0]), 1) && CanTurn(c, Fed(m, rounds[0]), g)
    requires var (m', g') := Turn(c, Fed(m, rounds[0]), g);
      Inv(m') && RoomFor(m', |rounds| - 1) && m'.e.replayFile.None? && CanLive(c, m', g', rounds[1..])
    ensures var (m', g') := Turn(c, Fed(m, rounds[0]), g);
      CanLive(c, m, g, rounds) && Live(c, m, g, rounds) == Live(c, m', g', rounds[1..])
  {
    FedKeeps(m, rounds[0]);
    LiveTurnKeeps(c, m, g, rounds[0]);
  }

  lemma PlayableBoth(a: seq<EventsModel.Record>, b: seq<EventsModel.Record>)
    requires EventsModel.Playable(a) && EventsModel.Playable(b)
    ensures EventsModel.Playable(a + b)
  {
  }

  lemma StampedPlayable(inputs: seq<EventsModel.UserEvent>, t: nat)
    requires t < TWO64 && forall x | x in inputs :: EventsModel.Injectable(x)
    ensures EventsModel.Playable(Stamped(inputs, t))
  {
  }

  lemma StartSame(m: M, file: seq<EventsModel.Record>)
    requires Inv(m) && m.e.replayFile.None? && EventsModel.Playable(file)
    ensures Same(m, Started(m, file))
  {
    WithoutAbsent(m.s.queue, ReplayEvent);
    ReplayOneHidden(m.e.(replayFile := Some(file)), m.s);
  }

  lemma FileIsLog(e: EventsModel.Events, e': EventsModel.Events, rs: seq<EventsModel.Record>)
    requires Logged(e, e', rs) && e.recordFile == Some([])
    ensures e'.recordFile == Some(rs)
  {
    assert [] + rs == rs;
  }

  /** Replaying a file that starts with what the session's inputs record. */
  lemma ReplayFollows<G>(c: Guest<G>, m: M, g: G, rounds: seq<Round>, tail: seq<EventsModel.Record>)
    requires Inv(m) && RoomFor(m, |rounds|) && m.e.replayFile.None? && CanLive(c, m, g, rounds)
    requires EventsModel.Playable(Log(m.s.ticks, rounds) + tail)
    requires EventsModel.InTimeOrder(Log(m.s.ticks, rounds) + tail)
    requires forall i | 0 <= i < |tail| :: tail[i].time >= m.s.ticks + |rounds|
    ensures var r := Started(m, Log(m.s.ticks, rounds) + tail);
      && Inv(r) && RoomFor(r, |rounds|) && r.e.injected == m.e.injected
      && (InStep(c, m, r, g, rounds) <==> TicksAgree(c, r, g, rounds))
      && (InStep(c, m, r, g, rounds) ==> Reproduces(c, m, r, g, rounds, tail))
  {
    hide Inv, Same, CanLive, Started, EventsModel.Remaining, EventsModel.Playable, EventsModel.Kept, Log, InStep,
      TicksAgree, Reproduces;
    var file := Log(m.s.ticks, rounds) + tail;
    LogIsOrdered(m.s.ticks, rounds);
    EventsModel.AllKept(file, m.s.ticks);
    StartKeeps(m, file);
    StartSame(m, file);
    SessionsAgree(c, m, Started(m, file), g, rounds, tail);
  }

  /** Recorded input reproduces the run, exactly when it can: record a session, start
      the same machine again with the recorded file, and take any number of turns. The
      replay is in step with the session exactly if every tick agrees, and then it has
      the same guest, the same devices, the same clock, the same pending events and
      the same log as the recording had. */
  lemma RecordThenReplay<G>(c: Guest<G>, m: M, g: G, first: seq<Round>, rest: seq<Round>)
    requires Inv(m) && RoomFor(m, |first| + |rest|) && m.e.replayFile.None? && m.e.recordFile == Some([])
    requires CanLive(c, m, g, first + rest)
    ensures var file := Live(c, m, g, first + rest).0.e.recordFile;
      && file.Some? && EventsModel.Playable(file.value) && CanLive(c, m, g, first)
      && var r := Started(m, file.value);
      && Inv(r) && RoomFor(r, |first|)
      && (InStep(c, m, r, g, first) <==> TicksAgree(c, r, g, first))
      && (InStep(c, m, r, g, first) ==> (
        && CanReplay(c, r, g, first)
        && var ((m', g1), (r', g2)) := (Live(c, m, g, first), Replay(c, r, g, first));
          g1 == g2 && Same(m', r') && r'.e.injected == m'.e.injected))
  {
    hide Inv, Same, CanLive, CanReplay, Live, Replay, Started, EventsModel.Playable, Log, EventsModel.InTimeOrder, Logged,
      InStep, TicksAgree, Reproduces;
    var file := Log(m.s.ticks, first + rest);
    assert (first + rest) + [] == first + rest;
    LivePrefix(c, m, g, first + rest, []);
    FileIsLog(m.e, Live(c, m, g, first + rest).0.e, file);
    LivePrefix(c, m, g, first, rest);
    LogIsOrdered(m.s.ticks, first + rest);
    LogSplit(m.s.ticks, first, rest);
    LogIsOrdered(m.s.ticks + |first|, rest);
    ReplayFollows(c, m, g, first, Log(m.s.ticks + |first|, rest));
    var r := Started(m, file);
    if InStep(c, m, r, g, first) {
      SameLogs(c, m, r, g, first, Log(m.s.ticks + |first|, rest));
    }
  }

  lemma SameLogs<G>(c: Guest<G>, m: M, r: M, g: G, rounds: seq<Round>, tail: seq<EventsModel.Record>)
    requires Inv(m) && RoomFor(m, |rounds|) && m.e.replayFile.None? && CanLive(c, m, g, rounds)
    requires Inv(r) && RoomFor(r, |rounds|) && r.e.injected == m.e.injected && Reproduces(c, m, r, g, rounds, tail)
    requires Logged(m.e, Live(c, m, g, rounds).0.e, Log(m.s.ticks, rounds))
    ensures CanReplay(c, r, g, rounds)
    ensures var ((m', g1), (r', g2)) := (Live(c, m, g, rounds), Replay(c, r, g, rounds));
      g1 == g2 && Same(m', r') && r'.e.injected == m'.e.injected
  {
  }

  /** Inputs come only at ticks at which no other event due is queued behind the
      replay event. */
  ghost predicate InputsLast<G>(c: Guest<G>, r: M, g: G, rounds: seq<Round>)
    requires Inv(r) && RoomFor(r, |rounds|)
    decreases |rounds|
  {
    rounds != [] ==> (
      && (rounds[0].inputs != [] ==> DueBehind(r) == [])
      && (PolledKeeps(r, rounds[0]);
          CanTurn(c, Polled(r, rounds[0]), g) ==> (
            TurnKeeps(c, Polled(r, rounds[0]), g);
            var (r', g') := Turn(c, Polled(r, rounds[0]), g);
            InputsLast(c, r', g', rounds[1..]))))
  }

  /** Such sessions are reproduced whatever the inputs are. */
  lemma {:induction false} LastIsEnough<G>(c: Guest<G>, r: M, g: G, rounds: seq<Round>)
    requires Inv(r) && RoomFor(r, |rounds|) && InputsLast(c, r, g, rounds)
    ensures TicksAgree(c, r, g, rounds)
    decreases |rounds|
  {
    if rounds != [] {
      hide Inv, TickAgrees, DueBehind, Turn, CanTurn, Polled, Decoded, InterruptsHandled;
      AgreesWhen(r, rounds[0].inputs);
      PolledKeeps(r, rounds[0]);
      if CanTurn(c, Polled(r, rounds[0]), g) {
        TurnKeeps(c, Polled(r, rounds[0]), g);
        var (r', g') := Turn(c, Polled(r, rounds[0]), g);
        LastIsEnough(c, r', g', rounds[1..]);
      }
    }
  }

  /** A guest that does nothing but pass time. */
  ghost predicate Idle<G(!new)>(c: Guest<G>) {
    && (forall g :: !c.interruptsOn(g))
    && (forall g, seen :: c.execute(g, seen).1 == [])
  }

  /** An idle guest never aborts: every session it is given can be lived. */
  lemma {:induction false} IdleSessions<G(!new)>(c: Guest<G>, m: M, g: G, rounds: seq<Round>)
    requires Inv(m) && RoomFor(m, |rounds|) && m.e.replayFile.None? && Idle(c)
    requires forall i | 0 <= i < |rounds| :: Fits(rounds[i])
    ensures CanLive(c, m, g, rounds)
    decreases |rounds|
  {
    if rounds != [] {
      hide Inv, Fed, RunEvents;
      FedKeeps(m, rounds[0]);
      var j := Fed(m, rounds[0]);
      IdleTurn(c, j, g);
      LiveTurnKeeps(c, m, g, rounds[0]);
      var (m', g') := Turn(c, j, g);
      IdleSessions(c, m', g', rounds[1..]);
    }
  }

  lemma IdleTurn<G(!new)>(c: Guest<G>, m: M, g: G)
    requires Inv(m) && RoomFor(m, 1) && Idle(c)
    ensures CanTurn(c, m, g)
  {
    hide RunEvents;
    assert !c.interruptsOn(g);
    DeliverKeeps(m, false);
    TickKeeps(Deliver(m, false), |m.e.injected|);
    assert Decoded(c, m, g).1 == Instruction(false, []);
  }
}
