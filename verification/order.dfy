/** The order in which the scheduler runs events, over whole runs. */
module SchedulerOrder {
  import opened Scheduler

  /** An entry with the number of the dp_timetrack_add_event call that made it. */
  datatype Stamped = Stamped(e: Entry, stamp: nat)

  predicate Before(a: Stamped, b: Stamped) {
    a.e.time < b.e.time || (a.e.time == b.e.time && a.stamp < b.stamp)
  }

  predicate InOrder(q: seq<Stamped>) {
    forall i, j | 0 <= i < j < |q| :: Before(q[i], q[j])
  }

  /** One scheduler call, or the passage of time. */
  datatype Op =
    | Schedule(cb: Callback, data: nat, delay: nat)
    | Cancel(cb: Callback)
    | RunOne
    | Charge(diff: nat)

  /** The scheduler with its call counter and the history of what it has run. */
  datatype Trace = Trace(s: Sched, stamps: seq<nat>, nextStamp: nat, fired: seq<Stamped>)

  ghost predicate Consistent(t: Trace) {
    |t.stamps| == |t.s.queue|
  }

  ghost function Labelled(t: Trace): seq<Stamped>
    requires Consistent(t)
  {
    seq(|t.stamps|, i requires 0 <= i < |t.stamps| => Stamped(t.s.queue[i], t.stamps[i]))
  }

  /** Where Insert puts e. */
  ghost function InsertPos(q: seq<Entry>, e: Entry): (k: nat)
    ensures k <= |q|
  {
    if q == [] || q[0].time > e.time then 0 else 1 + InsertPos(q[1..], e)
  }

  /** Where RemoveFirst finds its match, |q| for none. */
  ghost function MatchPos(q: seq<Entry>, p: Pattern): (k: nat)
    ensures k <= |q|
  {
    if q == [] || Matches(q[0], p) then 0 else 1 + MatchPos(q[1..], p)
  }

  ghost function Apply(t: Trace, op: Op): Trace
    requires Consistent(t)
  {
    match op
    case Schedule(cb, data, delay) =>
      var s' := AddEvent(t.s, cb, data, delay);
      var k := InsertPos(t.s.queue, Entry((t.s.ticks + delay) % TWO64, cb, data));
      t.(s := s', stamps := t.stamps[..k] + [t.nextStamp] + t.stamps[k..], nextStamp := t.nextStamp + 1)
    case Cancel(cb) =>
      var k := MatchPos(t.s.queue, ByCallback(cb));
      t.(s := RemoveEvent(t.s, cb),
         stamps := if k < |t.stamps| then t.stamps[..k] + t.stamps[k+1..] else t.stamps)
    case RunOne =>
      if Due(t.s) then
        t.(s := t.s.(queue := t.s.queue[1..]), stamps := t.stamps[1..],
           fired := t.fired + [Stamped(t.s.queue[0], t.stamps[0])])
      else t
    case Charge(diff) =>
      t.(s := t.s.(ticks := t.s.ticks + diff))
  }

  /** The u64 arithmetic of the call does not wrap. */
  predicate NoWrap(s: Sched, op: Op) {
    match op
    case Schedule(_, _, delay) => s.ticks + delay < TWO64
    case Charge(diff) => s.ticks + diff < TWO64
    case _ => true
  }

  ghost predicate Good(t: Trace) {
    && Consistent(t)
    && InOrder(Labelled(t))
    && InOrder(t.fired)
    && (forall i | 0 <= i < |t.stamps| :: t.stamps[i] < t.nextStamp)
    && (forall i | 0 <= i < |t.fired| :: t.fired[i].stamp < t.nextStamp && t.fired[i].e.time <= t.s.ticks)
    && (forall i, j | 0 <= i < |t.fired| && 0 <= j < |Labelled(t)| :: Before(t.fired[i], Labelled(t)[j]))
  }

  lemma {:induction false} InsertPosSplit(q: seq<Entry>, e: Entry)
    ensures var k := InsertPos(q, e);
      && (forall i | 0 <= i < k :: q[i].time <= e.time)
      && (k < |q| ==> q[k].time > e.time)
      && Insert(q, e) == q[..k] + [e] + q[k..]
  {
    if q != [] && q[0].time <= e.time {
      InsertPosSplit(q[1..], e);
      var k := InsertPos(q, e);
      forall i | 0 <= i < k ensures q[i].time <= e.time {
        assert i > 0 ==> q[i] == q[1..][i - 1];
      }
    }
    InsertSplit(q, e, InsertPos(q, e));
  }

  lemma {:induction false} MatchPosSplit(q: seq<Entry>, p: Pattern)
    ensures var k := MatchPos(q, p);
      && (forall i | 0 <= i < k :: !Matches(q[i], p))
      && (k < |q| ==> Matches(q[k], p))
      && RemoveFirst(q, p) == if k < |q| then q[..k] + q[k+1..] else q
  {
    var k := MatchPos(q, p);
    if q != [] && !Matches(q[0], p) {
      MatchPosSplit(q[1..], p);
      forall i | 0 <= i < k ensures !Matches(q[i], p) {
        assert i > 0 ==> q[i] == q[1..][i - 1];
      }
    }
    RemoveFirstSplit(q, p, k);
  }

  lemma InOrderInsert(l: seq<Stamped>, k: nat, x: Stamped)
    requires InOrder(l) && k <= |l|
    requires forall i | 0 <= i < k :: Before(l[i], x)
    requires k < |l| ==> Before(x, l[k])
    ensures InOrder(l[..k] + [x] + l[k..])
  {
    var l' := l[..k] + [x] + l[k..];
    assert forall i | k < i < |l'| :: l'[i] == l[i - 1];
  }

  lemma InOrderDrop(l: seq<Stamped>, k: nat)
    requires InOrder(l) && k < |l|
    ensures InOrder(l[..k] + l[k+1..])
  {
    var l' := l[..k] + l[k+1..];
    assert forall i | k <= i < |l'| :: l'[i] == l[i + 1];
  }

  lemma BeforeAllDrop(a: seq<Stamped>, l: seq<Stamped>, k: nat)
    requires k < |l|
    requires forall i, j | 0 <= i < |a| && 0 <= j < |l| :: Before(a[i], l[j])
    ensures var l' := l[..k] + l[k+1..];
      forall i, j | 0 <= i < |a| && 0 <= j < |l'| :: Before(a[i], l'[j])
  {
    var l' := l[..k] + l[k+1..];
    assert forall j | 0 <= j < |l'| :: l'[j] == l[if j < k then j else j + 1];
  }

  lemma ScheduleKeepsGood(t: Trace, op: Op)
    requires Good(t) && op.Schedule? && NoWrap(t.s, op)
    ensures Good(Apply(t, op))
  {
    hide Insert, InsertPos, InOrder, Sorted;
    var e := Entry(t.s.ticks + op.delay, op.cb, op.data);
    var x, k := Stamped(e, t.nextStamp), InsertPos(t.s.queue, e);
    InsertPosSplit(t.s.queue, e);
    var t' := Apply(t, op);
    var l, l' := Labelled(t), Labelled(t');
    forall i | 0 <= i < |l'| ensures l'[i] == if i == k then x else l[if i < k then i else i - 1] {
      var j := if i < k then i else i - 1;
      assert i != k ==> t'.s.queue[i] == t.s.queue[j] && t'.stamps[i] == t.stamps[j];
    }
    assert l' == l[..k] + [x] + l[k..];
    assert InOrder(l') by {
      forall i | 0 <= i < k ensures Before(l[i], x) {
        assert l[i].e == t.s.queue[i] && l[i].stamp == t.stamps[i];
      }
      InOrderInsert(l, k, x);
    }
    BeforeAllInsert(t.fired, l, k, x);
  }

  lemma BeforeAllInsert(a: seq<Stamped>, l: seq<Stamped>, k: nat, x: Stamped)
    requires k <= |l|
    requires forall i, j | 0 <= i < |a| && 0 <= j < |l| :: Before(a[i], l[j])
    requires forall i | 0 <= i < |a| :: Before(a[i], x)
    ensures var l' := l[..k] + [x] + l[k..];
      forall i, j | 0 <= i < |a| && 0 <= j < |l'| :: Before(a[i], l'[j])
  {
    var l' := l[..k] + [x] + l[k..];
    assert forall j | 0 <= j < |l'| :: l'[j] == if j == k then x else l[if j < k then j else j - 1];
  }

  lemma CancelKeepsGood(t: Trace, op: Op)
    requires Good(t) && op.Cancel?
    ensures Good(Apply(t, op))
  {
    var k := MatchPos(t.s.queue, ByCallback(op.cb));
    MatchPosSplit(t.s.queue, ByCallback(op.cb));
    var l, l' := Labelled(t), Labelled(Apply(t, op));
    if k < |t.s.queue| {
      var t' := Apply(t, op);
      forall i | 0 <= i < |l'| ensures l'[i] == l[if i < k then i else i + 1] {
        assert t'.s.queue[i] == t.s.queue[if i < k then i else i + 1];
        assert t'.stamps[i] == t.stamps[if i < k then i else i + 1];
      }
      assert l' == l[..k] + l[k+1..];
      assert InOrder(l') by {
        InOrderDrop(l, k);
      }
      BeforeAllDrop(t.fired, l, k);
    }
  }

  lemma RunOneKeepsGood(t: Trace)
    requires Good(t)
    ensures Good(Apply(t, RunOne))
  {
    if Due(t.s) {
      var l, l' := Labelled(t), Labelled(Apply(t, RunOne));
      assert l' == l[1..];
      assert l[0] == Stamped(t.s.queue[0], t.stamps[0]);
    }
  }

  ghost function RunOps(t: Trace, ops: seq<Op>): Trace
    requires Good(t) && NoWraps(t, ops)
    decreases |ops|
  {
    if ops == [] then t
    else
      StepKeepsGood(t, ops[0]);
      RunOps(Apply(t, ops[0]), ops[1..])
  }

  ghost predicate NoWraps(t: Trace, ops: seq<Op>)
    requires Good(t)
    decreases |ops|
  {
    ops != [] ==>
      && NoWrap(t.s, ops[0])
      && (StepKeepsGood(t, ops[0]); NoWraps(Apply(t, ops[0]), ops[1..]))
  }

  lemma StepKeepsGood(t: Trace, op: Op)
    requires Good(t) && NoWrap(t.s, op)
    ensures Good(Apply(t, op))
  {
    match op
    case Schedule(_, _, _) => ScheduleKeepsGood(t, op);
    case Cancel(_) => CancelKeepsGood(t, op);
    case RunOne => RunOneKeepsGood(t);
    case Charge(_) =>
      assert Labelled(Apply(t, op)) == Labelled(t);
  }

  /** Over any run of calls, however they interleave, events fire in order of
      time, first scheduled first among equal times, and ahead of everything that is
      still queued. */
  lemma {:induction false} FiringOrder(t: Trace, ops: seq<Op>)
    requires Good(t) && NoWraps(t, ops)
    ensures var t' := RunOps(t, ops);
      && Good(t') && InOrder(t'.fired) && t.fired <= t'.fired && Sorted(t'.s.queue)
      && forall i, j | 0 <= i < |t'.fired| && 0 <= j < |Labelled(t')| :: Before(t'.fired[i], Labelled(t')[j])
    decreases |ops|
  {
    if ops == [] {
      assert forall i | 0 <= i < |t.s.queue| :: Labelled(t)[i].e == t.s.queue[i];
    } else {
      StepKeepsGood(t, ops[0]);
      FiringOrder(Apply(t, ops[0]), ops[1..]);
    }
  }

  lemma StartIsGood(ticks: nat)
    ensures Good(Trace(Sched(ticks, []), [], 0, []))
  {
  }
}
