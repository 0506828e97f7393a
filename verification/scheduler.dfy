/** The event queue of core/timetrack.c as a value: what the intrusive lists of
    class `Timetrack` mean, with the laws the scheduler's clients rely on. */
module Scheduler {

  const TWO64 := 0x1_0000_0000_0000_0000
  const TICKS_PER_SECOND := 3000000

  /** Every function the program ever passes to dp_timetrack_add_event, and the
      null pointer that marks an unused slot. */
  datatype Callback =
    | NoCallback
    | KeyboardTransfer
    | KeyboardEveryMsec
    | PitEvent
    | ReplayEvent

  datatype Entry = Entry(time: nat, cb: Callback, data: nat)

  /** The clock and the scheduled list, soonest event first. */
  datatype Sched = Sched(ticks: nat, queue: seq<Entry>)

  /** What a removal looks for: the callback, or the callback and its argument. */
  datatype Pattern = ByCallback(cb: Callback) | ByData(cb: Callback, data: nat)

  predicate Matches(e: Entry, p: Pattern) {
    e.cb == p.cb && (p.ByData? ==> e.data == p.data)
  }

  // ----- queue operations

  function Insert(q: seq<Entry>, e: Entry): (r: seq<Entry>)
    ensures |r| == |q| + 1
  {
    if q == [] || q[0].time > e.time then [e] + q
    else [q[0]] + Insert(q[1..], e)
  }

  function RemoveFirst(q: seq<Entry>, p: Pattern): (r: seq<Entry>)
    ensures |r| <= |q| <= |r| + 1
  {
    if q == [] then []
    else if Matches(q[0], p) then q[1..]
    else [q[0]] + RemoveFirst(q[1..], p)
  }

  /** dp_timetrack_add_event; exe_time is a u64 and wraps. */
  function AddEvent(s: Sched, cb: Callback, data: nat, delay: nat): Sched {
    s.(queue := Insert(s.queue, Entry((s.ticks + delay) % TWO64, cb, data)))
  }

  function RemoveEvent(s: Sched, cb: Callback): Sched {
    s.(queue := RemoveFirst(s.queue, ByCallback(cb)))
  }

  predicate Due(s: Sched) {
    s.queue != [] && s.queue[0].time <= s.ticks
  }

  // ----- how many entries carry a callback

  function Count(q: seq<Entry>, cb: Callback): nat {
    if q == [] then 0 else (if q[0].cb == cb then 1 else 0) + Count(q[1..], cb)
  }

  /** The entries whose callback is not cb, in order. */
  function Without(q: seq<Entry>, cb: Callback): (r: seq<Entry>)
  {
    if q == [] then []
    else if q[0].cb == cb then Without(q[1..], cb)
    else [q[0]] + Without(q[1..], cb)
  }

  predicate Sorted(q: seq<Entry>) {
    forall i, j | 0 <= i < j < |q| :: q[i].time <= q[j].time
  }

  /** No entry is due before tick t. */
  predicate From(q: seq<Entry>, t: nat) {
    forall i | 0 <= i < |q| :: t <= q[i].time
  }

  // ----- laws

  lemma TailSplit<T>(q: seq<T>, k: nat)
    requires 0 < k <= |q|
    ensures [q[0]] + q[1..][..k-1] == q[..k]
    ensures q[1..][k-1..] == q[k..]
    ensures k < |q| ==> q[1..][k-1] == q[k] && q[1..][k..] == q[k+1..]
  {
  }

  /** The loop of dp_timetrack_add_event stops at the first later entry; whatever
      k it stops at, the list it builds is Insert. */
  lemma {:induction false} InsertSplit(q: seq<Entry>, e: Entry, k: nat)
    requires k <= |q|
    requires forall i | 0 <= i < k :: q[i].time <= e.time
    requires k < |q| ==> q[k].time > e.time
    ensures Insert(q, e) == q[..k] + [e] + q[k..]
  {
    if k == 0 {
      assert q[..0] + [e] + q[0..] == [e] + q;
    } else {
      var t := q[1..];
      InsertSplit(t, e, k - 1);
      TailSplit(q, k);
      assert [q[0]] + (t[..k-1] + [e] + t[k-1..]) == ([q[0]] + t[..k-1]) + [e] + t[k-1..];
    }
  }

  /** An insertion goes behind every entry due no later, and before every later
      one: first scheduled, first run. */
  lemma {:induction false} InsertIsStable(q: seq<Entry>, e: Entry) returns (k: nat)
    requires Sorted(q)
    ensures k <= |q|
    ensures Insert(q, e) == q[..k] + [e] + q[k..]
    ensures forall i | 0 <= i < |q| :: i < k <==> q[i].time <= e.time
    ensures Sorted(Insert(q, e))
  {
    k := 0;
    while k < |q| && q[k].time <= e.time
      invariant k <= |q|
      invariant forall i | 0 <= i < k :: q[i].time <= e.time
    {
      k := k + 1;
    }
    InsertSplit(q, e, k);
    InsertedSorted(q, e, k);
  }

  lemma InsertedSorted(q: seq<Entry>, e: Entry, k: nat)
    requires Sorted(q) && k <= |q|
    requires forall i | 0 <= i < k :: q[i].time <= e.time
    requires k < |q| ==> q[k].time > e.time
    ensures forall i | k <= i < |q| :: q[i].time > e.time
    ensures Sorted(q[..k] + [e] + q[k..])
  {
    var r := q[..k] + [e] + q[k..];
    assert forall i | 0 <= i < |r| && i != k :: r[i] == q[if i < k then i else i - 1];
  }

  lemma InsertKeepsFrom(q: seq<Entry>, e: Entry, t: nat)
    requires From(q, t) && t <= e.time
    ensures From(Insert(q, e), t)
  {
    if q != [] && q[0].time <= e.time {
      InsertKeepsFrom(q[1..], e, t);
    }
  }

  lemma RemoveSkips(q: seq<Entry>, p: Pattern)
    requires q != [] && !Matches(q[0], p)
    ensures RemoveFirst(q, p) == [q[0]] + RemoveFirst(q[1..], p)
  {
  }

  lemma TailDrop<T>(q: seq<T>, k: nat)
    requires 0 < k <= |q|
    ensures [q[0]] + (if k - 1 < |q[1..]| then q[1..][..k-1] + q[1..][k..] else q[1..])
         == if k < |q| then q[..k] + q[k+1..] else q
  {
  }

  /** A removal that finds nothing changes nothing; one that finds a match at k
      drops exactly that entry. */
  lemma {:induction false} RemoveFirstSplit(q: seq<Entry>, p: Pattern, k: nat)
    requires k <= |q|
    requires forall i | 0 <= i < k :: !Matches(q[i], p)
    requires k < |q| ==> Matches(q[k], p)
    ensures RemoveFirst(q, p) == if k < |q| then q[..k] + q[k+1..] else q
  {
    hide Matches;
    if k > 0 {
      assert forall i | 0 <= i < k - 1 :: q[1..][i] == q[i + 1];
      RemoveFirstSplit(q[1..], p, k - 1);
      RemoveSkips(q, p);
      hide RemoveFirst;
      TailDrop(q, k);
    }
  }

  lemma {:induction false} RemoveKeepsOrder(q: seq<Entry>, p: Pattern, t: nat)
    ensures Sorted(q) ==> Sorted(RemoveFirst(q, p))
    ensures From(q, t) ==> From(RemoveFirst(q, p), t)
  {
    var k: nat := 0;
    while k < |q| && !Matches(q[k], p)
      invariant k <= |q|
      invariant forall i | 0 <= i < k :: !Matches(q[i], p)
    {
      k := k + 1;
    }
    RemoveFirstSplit(q, p, k);
    var r := RemoveFirst(q, p);
    forall i | 0 <= i < |r| ensures r[i] == q[if i < k then i else i + 1] {
    }
  }

  lemma CountInsert(q: seq<Entry>, e: Entry, cb: Callback)
    ensures Count(Insert(q, e), cb) == Count(q, cb) + if e.cb == cb then 1 else 0
  {
    if q == [] || q[0].time > e.time {
      assert ([e] + q)[1..] == q;
    } else {
      CountInsert(q[1..], e, cb);
      assert ([q[0]] + Insert(q[1..], e))[1..] == Insert(q[1..], e);
    }
  }

  lemma CountRemove(q: seq<Entry>, cb: Callback, c: Callback)
    ensures Count(RemoveFirst(q, ByCallback(cb)), c)
         == if c == cb && Count(q, cb) > 0 then Count(q, c) - 1 else Count(q, c)
  {
    if q != [] && q[0].cb != cb {
      CountRemove(q[1..], cb, c);
      var r := RemoveFirst(q[1..], ByCallback(cb));
      assert ([q[0]] + r)[1..] == r;
    }
  }

  /** The four callbacks account for the whole queue when no entry is null. */
  lemma CountsAddUp(q: seq<Entry>)
    requires Count(q, NoCallback) == 0
    ensures |q| == Count(q, KeyboardTransfer) + Count(q, KeyboardEveryMsec)
                   + Count(q, PitEvent) + Count(q, ReplayEvent)
  {
    if q != [] {
      CountsAddUp(q[1..]);
    }
  }

  // ----- hiding the entries of one callback

  lemma WithoutInsert(q: seq<Entry>, e: Entry, cb: Callback)
    requires Sorted(q)
    ensures Without(Insert(q, e), cb)
         == if e.cb == cb then Without(q, cb) else Insert(Without(q, cb), e)
  {
    if q == [] || q[0].time > e.time {
      assert ([e] + q)[1..] == q;
      if q != [] && e.cb != cb {
        WithoutLater(q, cb, e.time);
      }
    } else {
      WithoutInsert(q[1..], e, cb);
      assert ([q[0]] + Insert(q[1..], e))[1..] == Insert(q[1..], e);
      if q[0].cb != cb {
        var w := Without(q[1..], cb);
        assert ([q[0]] + w)[1..] == w;
      }
    }
  }

  lemma WithoutLater(q: seq<Entry>, cb: Callback, t: nat)
    requires forall i | 0 <= i < |q| :: q[i].time > t
    ensures forall i | 0 <= i < |Without(q, cb)| :: Without(q, cb)[i].time > t
  {
    if q != [] {
      WithoutLater(q[1..], cb, t);
    }
  }

  lemma WithoutRemove(q: seq<Entry>, c: Callback, cb: Callback)
    requires c != cb
    ensures Without(RemoveFirst(q, ByCallback(c)), cb)
         == RemoveFirst(Without(q, cb), ByCallback(c))
  {
    if q != [] && q[0].cb != c {
      WithoutRemove(q[1..], c, cb);
      var r := RemoveFirst(q[1..], ByCallback(c));
      assert ([q[0]] + r)[1..] == r;
      if q[0].cb != cb {
        var w := Without(q[1..], cb);
        assert ([q[0]] + w)[1..] == w;
      }
    } else if q != [] {
      var w := Without(q[1..], cb);
      assert ([q[0]] + w)[1..] == w;
    }
  }

  lemma WithoutAbsent(q: seq<Entry>, cb: Callback)
    requires Count(q, cb) == 0
    ensures Without(q, cb) == q
  {
    if q != [] {
      WithoutAbsent(q[1..], cb);
    }
  }

  lemma WithoutSorted(q: seq<Entry>, cb: Callback, t: nat)
    ensures Sorted(q) ==> Sorted(Without(q, cb))
    ensures From(q, t) ==> From(Without(q, cb), t)
  {
    if q != [] {
      WithoutSorted(q[1..], cb, t);
      if Sorted(q) {
        WithoutSorted(q[1..], cb, q[0].time);
      }
    }
  }

  lemma WithoutCount(q: seq<Entry>, cb: Callback, c: Callback)
    ensures Count(Without(q, cb), c) == if c == cb then 0 else Count(q, c)
  {
    if q != [] {
      WithoutCount(q[1..], cb, c);
      var w := Without(q[1..], cb);
      assert ([q[0]] + w)[1..] == w;
    }
  }

  // ----- what a routine that touches one callback's entries leaves alone

  /** No delay the devices ask for is longer. */
  const LONGEST := 0x30000

  /** In time order, and nothing overdue. */
  predicate Calm(s: Sched) {
    Sorted(s.queue) && From(s.queue, s.ticks)
  }

  predicate Roomy(s: Sched) {
    s.ticks + LONGEST < TWO64
  }

  /** How many entries are due by tick t. */
  function DueCount(q: seq<Entry>, t: nat): nat {
    if q == [] then 0 else (if q[0].time <= t then 1 else 0) + DueCount(q[1..], t)
  }

  /** s' is s but for entries of cb, and every new event lies in the future. */
  ghost predicate OnlyChanges(s: Sched, s': Sched, cb: Callback) {
    && s'.ticks == s.ticks
    && Without(s'.queue, cb) == Without(s.queue, cb)
    && (Calm(s) && Roomy(s) ==> Calm(s'))
    && (Roomy(s) ==> DueCount(s'.queue, s.ticks) <= DueCount(s.queue, s.ticks))
  }

  lemma AddChanges(s: Sched, cb: Callback, data: nat, delay: nat)
    requires 1 <= delay <= LONGEST
    ensures OnlyChanges(s, AddEvent(s, cb, data, delay), cb)
    ensures Count(AddEvent(s, cb, data, delay).queue, cb) == Count(s.queue, cb) + 1
  {
    var e := Entry((s.ticks + delay) % TWO64, cb, data);
    CountInsert(s.queue, e, cb);
    WithoutOwnInsert(s.queue, e);
    DueInsert(s.queue, e, s.ticks);
    if Calm(s) && Roomy(s) {
      AddCalm(s, cb, data, delay);
    }
  }

  lemma AddCalm(s: Sched, cb: Callback, data: nat, delay: nat)
    requires Calm(s) && s.ticks + delay < TWO64
    ensures Calm(AddEvent(s, cb, data, delay))
  {
    var e := Entry(s.ticks + delay, cb, data);
    var _ := InsertIsStable(s.queue, e);
    InsertKeepsFrom(s.queue, e, s.ticks);
  }

  lemma RemoveChanges(s: Sched, cb: Callback)
    ensures OnlyChanges(s, RemoveEvent(s, cb), cb)
    ensures Count(RemoveEvent(s, cb).queue, cb) == if Count(s.queue, cb) > 0 then Count(s.queue, cb) - 1 else 0
  {
    CountRemove(s.queue, cb, cb);
    WithoutOwnRemove(s.queue, cb);
    DueRemove(s.queue, cb, s.ticks);
    RemoveKeepsOrder(s.queue, ByCallback(cb), s.ticks);
  }

  lemma DueInsert(q: seq<Entry>, e: Entry, t: nat)
    ensures DueCount(Insert(q, e), t) == DueCount(q, t) + if e.time <= t then 1 else 0
  {
    if q == [] || q[0].time > e.time {
      assert ([e] + q)[1..] == q;
    } else {
      DueInsert(q[1..], e, t);
      assert ([q[0]] + Insert(q[1..], e))[1..] == Insert(q[1..], e);
    }
  }

  lemma DueRemove(q: seq<Entry>, cb: Callback, t: nat)
    ensures DueCount(RemoveFirst(q, ByCallback(cb)), t) <= DueCount(q, t)
  {
    if q != [] && q[0].cb != cb {
      DueRemove(q[1..], cb, t);
      var r := RemoveFirst(q[1..], ByCallback(cb));
      assert ([q[0]] + r)[1..] == r;
    }
  }

  lemma WithoutOwnInsert(q: seq<Entry>, e: Entry)
    ensures Without(Insert(q, e), e.cb) == Without(q, e.cb)
  {
    if q == [] || q[0].time > e.time {
      assert ([e] + q)[1..] == q;
    } else {
      WithoutOwnInsert(q[1..], e);
      assert ([q[0]] + Insert(q[1..], e))[1..] == Insert(q[1..], e);
    }
  }

  lemma WithoutOwnRemove(q: seq<Entry>, cb: Callback)
    ensures Without(RemoveFirst(q, ByCallback(cb)), cb) == Without(q, cb)
  {
    if q != [] && q[0].cb != cb {
      WithoutOwnRemove(q[1..], cb);
      var r := RemoveFirst(q[1..], ByCallback(cb));
      assert ([q[0]] + r)[1..] == r;
    }
  }

  lemma OthersCounted(s: Sched, s': Sched, cb: Callback, c: Callback)
    requires OnlyChanges(s, s', cb) && c != cb
    ensures Count(s'.queue, c) == Count(s.queue, c)
  {
    WithoutCount(s.queue, cb, c);
    WithoutCount(s'.queue, cb, c);
  }

  /** When the entries of cb are due. */
  function TimesOf(q: seq<Entry>, cb: Callback): (r: seq<nat>)
    ensures |r| == Count(q, cb)
  {
    if q == [] then [] else (if q[0].cb == cb then [q[0].time] else []) + TimesOf(q[1..], cb)
  }

  lemma TimesInsert(q: seq<Entry>, e: Entry, cb: Callback)
    ensures e.cb != cb ==> TimesOf(Insert(q, e), cb) == TimesOf(q, cb)
    ensures e.cb == cb && Count(q, cb) == 0 ==> TimesOf(Insert(q, e), cb) == [e.time]
  {
    if q == [] || q[0].time > e.time {
      assert ([e] + q)[1..] == q;
    } else {
      TimesInsert(q[1..], e, cb);
      assert ([q[0]] + Insert(q[1..], e))[1..] == Insert(q[1..], e);
    }
  }

  lemma OthersTimes(q: seq<Entry>, c: Callback, cb: Callback)
    requires c != cb
    ensures TimesOf(Without(q, c), cb) == TimesOf(q, cb)
  {
    if q != [] {
      OthersTimes(q[1..], c, cb);
      var w := Without(q[1..], c);
      assert ([q[0]] + w)[1..] == w;
    }
  }
}
