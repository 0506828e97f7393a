/** core/timetrack.c: the 512 event slots with their two intrusive lists. */
module TimetrackPool {
  import opened Scheduler

  const MAX_EVENTS := 512
  const NULL_EVENT := 0

  /** One slot; `next` is the 1-based index of the following slot, 0 for none. */
  datatype Event = Event(time: nat, cb: Callback, data: nat, next: nat)

  const EMPTY := Event(0, NoCallback, 0, NULL_EVENT)

  // ----- what a linked list is

  ghost predicate Slots(s: seq<nat>) {
    forall i | 0 <= i < |s| :: 1 <= s[i] <= MAX_EVENTS
  }

  ghost function At(s: seq<nat>, i: nat): nat {
    if i < |s| then s[i] else NULL_EVENT
  }

  /** The slots reached from `head` are exactly `s`, in that order, and the walk ends. */
  ghost predicate Chain(ev: seq<Event>, head: nat, s: seq<nat>)
    requires |ev| == MAX_EVENTS && Slots(s)
  {
    && head == At(s, 0)
    && (forall i | 0 <= i < |s| :: Linked(ev, s, i))
  }

  ghost predicate Linked(ev: seq<Event>, s: seq<nat>, i: nat)
    requires |ev| == MAX_EVENTS && Slots(s) && i < |s|
  {
    ev[s[i] - 1].next == At(s, i + 1)
  }

  ghost function EntryOf(e: Event): Entry {
    Entry(e.time, e.cb, e.data)
  }

  ghost function Entries(ev: seq<Event>, s: seq<nat>): (r: seq<Entry>)
    requires |ev| == MAX_EVENTS && Slots(s)
    ensures |r| == |s|
    ensures forall i | 0 <= i < |s| :: r[i] == EntryOf(ev[s[i] - 1])
  {
    seq(|s|, i requires 0 <= i < |s| => EntryOf(ev[s[i] - 1]))
  }

  /** Scheduled list, free list and the slot whose callback is running (0 for none)
      together hold every one of the 512 slots exactly once. */
  ghost predicate Partition(scheduled: seq<nat>, free: seq<nat>, inFlight: nat) {
    forall k: nat :: Held(scheduled, free, inFlight, k) == if 1 <= k <= MAX_EVENTS then 1 else 0
  }

  ghost function Held(scheduled: seq<nat>, free: seq<nat>, inFlight: nat, k: nat): nat {
    multiset(scheduled)[k] + multiset(free)[k] + Running(inFlight)[k]
  }

  ghost function Running(inFlight: nat): multiset<nat> {
    if inFlight == NULL_EVENT then multiset{} else multiset{inFlight}
  }

  /** The invariant of the pool: both walks are acyclic and disjoint, no slot is
      lost, free slots carry no callback, scheduled ones do and are in time order. */
  ghost predicate PoolOk(ev: seq<Event>, head: nat, freeHead: nat,
                         scheduled: seq<nat>, free: seq<nat>, inFlight: nat)
  {
    && ScheduledOk(ev, head, scheduled)
    && FreeOk(ev, freeHead, free)
    && Partition(scheduled, free, inFlight)
  }

  /** dp_timetrack_init's free list holds slot i at position i - 1. */
  ghost function FirstSlots(n: nat): seq<nat> {
    seq(n, i requires 0 <= i < n => i + 1)
  }

  lemma {:induction false} InitialPartition(n: nat)
    ensures forall k: nat :: multiset(FirstSlots(n))[k] == if 1 <= k <= n then 1 else 0
  {
    if n > 0 {
      InitialPartition(n - 1);
      assert FirstSlots(n) == FirstSlots(n - 1) + [n];
    }
  }

  // ----- the pointer surgery of the three operations, on values

  lemma CountAt(s: seq<nat>, k: nat)
    requires k < |s|
    ensures multiset(s)[s[k]] >= 1
    ensures forall i | 0 <= i < |s| && i != k && s[i] == s[k] :: multiset(s)[s[k]] >= 2
  {
    assert s == s[..k] + [s[k]] + s[k+1..];
    forall i | 0 <= i < |s| && i != k && s[i] == s[k] ensures multiset(s)[s[k]] >= 2 {
      assert if i < k then s[..k][i] == s[k] else s[k+1..][i-k-1] == s[k];
    }
  }

  /** A slot is in one place only. */
  lemma Unique(s: seq<nat>, f: seq<nat>, inFlight: nat, k: nat)
    requires Partition(s, f, inFlight) && k < |s|
    ensures 1 <= s[k] <= MAX_EVENTS && s[k] !in f && s[k] != inFlight
    ensures forall i | 0 <= i < |s| && i != k :: s[i] != s[k]
  {
    CountAt(s, k);
    assert Held(s, f, inFlight, s[k]) <= 1;
    assert Held(s, f, inFlight, 0) == 0;
  }

  lemma PartitionSymmetric(s: seq<nat>, f: seq<nat>, inFlight: nat)
    requires Partition(s, f, inFlight)
    ensures Partition(f, s, inFlight)
  {
    PartitionMove(s, f, inFlight, f, s, inFlight);
  }

  /** Moving slots between the three places keeps the partition. */
  lemma PartitionMove(s: seq<nat>, f: seq<nat>, r: nat, s': seq<nat>, f': seq<nat>, r': nat)
    requires Partition(s, f, r)
    requires multiset(s) + multiset(f) + Running(r) == multiset(s') + multiset(f') + Running(r')
    ensures Partition(s', f', r')
  {
    forall k: nat ensures Held(s', f', r', k) == Held(s, f, r, k) {
      assert (multiset(s) + multiset(f) + Running(r))[k] == Held(s, f, r, k);
      assert (multiset(s') + multiset(f') + Running(r'))[k] == Held(s', f', r', k);
    }
  }

  /** A list whose slots keep their contents stays the same list. */
  lemma ChainFrame(ev: seq<Event>, ev': seq<Event>, head: nat, s: seq<nat>)
    requires |ev| == |ev'| == MAX_EVENTS && Slots(s) && Chain(ev, head, s)
    requires forall i | 0 <= i < |s| :: ev'[s[i] - 1] == ev[s[i] - 1]
    ensures Chain(ev', head, s)
    ensures forall i | 0 <= i < |s| :: EntryOf(ev'[s[i] - 1]) == EntryOf(ev[s[i] - 1])
  {
    forall i | 0 <= i < |s| ensures Linked(ev', s, i) {
      assert Linked(ev, s, i);
    }
  }

  /** `ev'` is `ev` with slot x rewritten to `v` and link `link` (0 for the head
      field) pointed at `target`. */
  ghost predicate Relinked(ev: seq<Event>, ev': seq<Event>, link: nat, target: nat, x: nat, v: Event) {
    && |ev| == |ev'| == MAX_EVENTS && 1 <= x <= MAX_EVENTS && link <= MAX_EVENTS && link != x
    && ev'[x - 1] == v
    && (link != 0 ==> ev'[link - 1] == ev[link - 1].(next := target))
    && (forall y | 0 <= y < MAX_EVENTS && y != x - 1 && y != link - 1 :: ev'[y] == ev[y])
  }

  /** The slot array after `*last_link = index`; link 0 is the head field. */
  ghost function WithLink(ev: seq<Event>, link: nat, index: nat): seq<Event>
    requires link <= |ev|
  {
    if link == 0 then ev else ev[link - 1 := ev[link - 1].(next := index)]
  }

  lemma RelinkedBy(ev: seq<Event>, link: nat, target: nat, x: nat, v: Event)
    requires |ev| == MAX_EVENTS && 1 <= x <= MAX_EVENTS && link <= MAX_EVENTS && link != x
    ensures Relinked(ev, WithLink(ev[x - 1 := v], link, target), link, target, x, v)
  {
  }

  /** The link that leads to position k of a list: the head field or a slot. */
  ghost function LinkTo(s: seq<nat>, k: nat): nat
    requires k <= |s|
  {
    if k == 0 then 0 else s[k - 1]
  }

  ghost predicate Inserted<T>(s: seq<T>, k: nat, x: T, s': seq<T>) {
    && |s'| == |s| + 1 && k <= |s| && s'[k] == x
    && (forall i | 0 <= i < k :: s'[i] == s[i])
    && (forall i | k < i < |s'| :: s'[i] == s[i - 1])
  }

  lemma InsertedConcat<T>(s: seq<T>, k: nat, x: T, s': seq<T>)
    requires Inserted(s, k, x, s')
    ensures s' == s[..k] + [x] + s[k..]
    ensures s == s'[..k] + s'[k+1..]
  {
  }

  lemma InsertAt<T>(s: seq<T>, k: nat, x: T) returns (s': seq<T>)
    requires k <= |s|
    ensures Inserted(s, k, x, s')
  {
    s' := s[..k] + [x] + s[k..];
  }

  lemma DropAt<T>(s: seq<T>, k: nat) returns (s': seq<T>)
    requires k < |s|
    ensures Inserted(s', k, s[k], s)
  {
    s' := s[..k] + s[k+1..];
  }

  lemma InsertedMultiset<T>(s: seq<T>, k: nat, x: T, s': seq<T>)
    requires Inserted(s, k, x, s')
    ensures multiset(s') == multiset(s) + multiset{x}
  {
    InsertedConcat(s, k, x, s');
    assert s == s[..k] + s[k..];
  }

  lemma PartitionTake(s: seq<nat>, f: seq<nat>, r: nat, k: nat, s': seq<nat>)
    requires Partition(s, f, r) && f != [] && Inserted(s, k, f[0], s')
    ensures Partition(s', f[1..], r)
  {
    InsertedMultiset(s, k, f[0], s');
    assert f == [f[0]] + f[1..];
    PartitionMove(s, f, r, s', f[1..], r);
  }

  lemma PartitionGive(s: seq<nat>, f: seq<nat>, r: nat, k: nat, s': seq<nat>)
    requires Partition(s, f, r) && k < |s| && Inserted(s', k, s[k], s)
    ensures Partition(s', [s[k]] + f, r)
  {
    InsertedMultiset(s', k, s[k], s);
    PartitionMove(s, f, r, s', [s[k]] + f, r);
  }

  lemma {:induction false} OnceEachCount(m: multiset<nat>, n: nat)
    requires forall k: nat :: m[k] == if 1 <= k <= n then 1 else 0
    ensures |m| == n
  {
    if n == 0 {
      assert m == multiset{};
    } else {
      OnceEachCount(m - multiset{n}, n - 1);
    }
  }

  /** The assertion in dp_timetrack_add_event fails only when 512 events are
      scheduled or running: no slot is ever lost. */
  lemma PoolRoom(ev: seq<Event>, head: nat, freeHead: nat, s: seq<nat>, f: seq<nat>, inFlight: nat)
    requires PoolOk(ev, head, freeHead, s, f, inFlight)
    ensures freeHead == NULL_EVENT <==> |Entries(ev, s)| + |Running(inFlight)| == MAX_EVENTS
  {
    var m := multiset(s) + multiset(f) + Running(inFlight);
    forall k: nat ensures m[k] == if 1 <= k <= MAX_EVENTS then 1 else 0 {
      assert Held(s, f, inFlight, k) == m[k];
    }
    OnceEachCount(m, MAX_EVENTS);
  }

  /** Pointing the k-th link of a list at x, and x at what the link held, puts x
      in the k-th place. */
  lemma LinkIn(ev: seq<Event>, ev': seq<Event>, head: nat, s: seq<nat>, k: nat, x: nat, v: Event, s': seq<nat>)
    requires |ev| == MAX_EVENTS && Slots(s) && Chain(ev, head, s)
    requires Inserted(s, k, x, s') && x !in s
    requires k > 0 ==> forall i | 0 <= i < |s| && i != k - 1 :: s[i] != s[k - 1]
    requires Relinked(ev, ev', LinkTo(s, k), x, x, v) && v.next == At(s, k)
    ensures Slots(s') && Chain(ev', if k == 0 then x else head, s')
  {
    forall i | 0 <= i < |s'| ensures Linked(ev', s', i) {
      if i != k {
        var j := if i < k then i else i - 1;
        assert Linked(ev, s, j) && s'[i] == s[j];
      }
      assert At(s', i + 1) == if i + 1 == k then x else At(s, if i < k then i + 1 else i);
    }
  }

  lemma EntriesIn(ev: seq<Event>, ev': seq<Event>, s: seq<nat>, k: nat, x: nat, v: Event, s': seq<nat>)
    requires |ev| == MAX_EVENTS && Slots(s) && Slots(s')
    requires Inserted(s, k, x, s') && x !in s
    requires Relinked(ev, ev', LinkTo(s, k), x, x, v)
    ensures Entries(ev', s') == Entries(ev, s)[..k] + [EntryOf(v)] + Entries(ev, s)[k..]
  {
    var es, es' := Entries(ev, s), Entries(ev', s');
    forall i | 0 <= i < k ensures es'[i] == es[i] {
      assert s'[i] == s[i];
    }
    forall i | k < i < |s'| ensures es'[i] == es[i - 1] {
      assert s'[i] == s[i - 1];
    }
    InsertedConcat(es, k, EntryOf(v), es');
  }

  /** Pointing the link that leads to the k-th slot at its successor takes the
      slot out of the list. */
  lemma LinkOut(ev: seq<Event>, ev': seq<Event>, head: nat, s: seq<nat>, k: nat, v: Event, s': seq<nat>)
    requires |ev| == MAX_EVENTS && Slots(s) && Chain(ev, head, s)
    requires k < |s| && Inserted(s', k, s[k], s)
    requires forall i | 0 <= i < |s| && i != k :: s[i] != s[k]
    requires k > 0 ==> forall i | 0 <= i < |s| && i != k - 1 :: s[i] != s[k - 1]
    requires Relinked(ev, ev', LinkTo(s, k), At(s, k + 1), s[k], v)
    ensures Slots(s') && Chain(ev', if k == 0 then At(s, 1) else head, s')
  {
    forall i | 0 <= i < |s'| ensures 1 <= s'[i] <= MAX_EVENTS {
      assert s'[i] == s[if i < k then i else i + 1];
    }
    forall i | 0 <= i < |s'| ensures Linked(ev', s', i) {
      var j := if i < k then i else i + 1;
      assert Linked(ev, s, j) && s'[i] == s[j];
      assert At(s', i + 1) == At(s, if i + 1 < k then i + 1 else i + 2);
    }
  }

  lemma EntriesOut(ev: seq<Event>, ev': seq<Event>, s: seq<nat>, k: nat, target: nat, v: Event, s': seq<nat>)
    requires |ev| == MAX_EVENTS && Slots(s) && Slots(s')
    requires k < |s| && Inserted(s', k, s[k], s)
    requires forall i | 0 <= i < |s| && i != k :: s[i] != s[k]
    requires Relinked(ev, ev', LinkTo(s, k), target, s[k], v)
    ensures Entries(ev', s') == Entries(ev, s)[..k] + Entries(ev, s)[k+1..]
  {
    var es, es' := Entries(ev, s), Entries(ev', s');
    forall i | 0 <= i < k ensures es[i] == es'[i] {
      assert s[i] == s'[i];
    }
    forall i | k < i < |s| ensures es[i] == es'[i - 1] {
      assert s[i] == s'[i - 1];
    }
    InsertedConcat(es', k, es[k], es);
  }

  ghost predicate FreeOk(ev: seq<Event>, freeHead: nat, f: seq<nat>)
  {
    && |ev| == MAX_EVENTS && Slots(f) && Chain(ev, freeHead, f)
    && (forall i | 0 <= i < |f| :: EntryOf(ev[f[i] - 1]) == EntryOf(EMPTY))
  }

  lemma FreeFrame(ev: seq<Event>, ev': seq<Event>, freeHead: nat, f: seq<nat>)
    requires FreeOk(ev, freeHead, f) && |ev'| == MAX_EVENTS
    requires forall i | 0 <= i < |f| :: ev'[f[i] - 1] == ev[f[i] - 1]
    ensures FreeOk(ev', freeHead, f)
  {
    ChainFrame(ev, ev', freeHead, f);
  }

  lemma FreePop(ev: seq<Event>, freeHead: nat, f: seq<nat>)
    requires FreeOk(ev, freeHead, f) && f != []
    ensures FreeOk(ev, ev[f[0] - 1].next, f[1..])
  {
    assert Linked(ev, f, 0);
    forall i | 0 <= i < |f[1..]| ensures Linked(ev, f[1..], i) {
      assert Linked(ev, f, i + 1);
    }
  }

  lemma FreePush(ev: seq<Event>, freeHead: nat, f: seq<nat>, x: nat)
    requires FreeOk(ev, freeHead, f) && 1 <= x <= MAX_EVENTS
    requires ev[x - 1] == EMPTY.(next := freeHead)
    ensures FreeOk(ev, x, [x] + f)
  {
    forall i | 0 <= i < |[x] + f| ensures Linked(ev, [x] + f, i) {
      assert i > 0 ==> Linked(ev, f, i - 1);
    }
  }

  ghost predicate ScheduledOk(ev: seq<Event>, head: nat, s: seq<nat>)
  {
    && |ev| == MAX_EVENTS && Slots(s) && Chain(ev, head, s)
    && Sorted(Entries(ev, s))
    && (forall i | 0 <= i < |s| :: Entries(ev, s)[i].cb != NoCallback)
  }

  /** Position k is where the walk of dp_timetrack_add_event stops for `time`. */
  ghost predicate Place(ev: seq<Event>, s: seq<nat>, k: nat, time: nat)
    requires |ev| == MAX_EVENTS && Slots(s)
  {
    && k <= |s|
    && (forall i | 0 <= i < k :: ev[s[i] - 1].time <= time)
    && (k < |s| ==> ev[s[k] - 1].time > time)
  }

  /** dp_timetrack_add_event: slot x is linked behind the k-th scheduled slot. */
  lemma ScheduledInsert(ev: seq<Event>, ev': seq<Event>, head: nat, s: seq<nat>, k: nat, x: nat, v: Event, s': seq<nat>)
    requires ScheduledOk(ev, head, s)
    requires Place(ev, s, k, v.time) && v.cb != NoCallback && x !in s
    requires k > 0 ==> forall i | 0 <= i < |s| && i != k - 1 :: s[i] != s[k - 1]
    requires Relinked(ev, ev', LinkTo(s, k), x, x, v) && v.next == At(s, k)
    requires Inserted(s, k, x, s')
    ensures ScheduledOk(ev', if k == 0 then x else head, s')
    ensures Entries(ev', s') == Insert(Entries(ev, s), EntryOf(v))
  {
    var es := Entries(ev, s);
    LinkIn(ev, ev', head, s, k, x, v, s');
    EntriesIn(ev, ev', s, k, x, v, s');
    EntriesInsert(es, EntryOf(v), k);
  }

  lemma EntriesInsert(es: seq<Entry>, e: Entry, k: nat)
    requires Sorted(es) && k <= |es| && e.cb != NoCallback
    requires forall i | 0 <= i < |es| :: es[i].cb != NoCallback
    requires forall i | 0 <= i < k :: es[i].time <= e.time
    requires k < |es| ==> es[k].time > e.time
    ensures Insert(es, e) == es[..k] + [e] + es[k..]
    ensures Sorted(Insert(es, e))
    ensures forall i | 0 <= i < |Insert(es, e)| :: Insert(es, e)[i].cb != NoCallback
  {
    InsertSplit(es, e, k);
    var _ := InsertIsStable(es, e);
  }

  lemma EntriesRemove(es: seq<Entry>, p: Pattern, k: nat)
    requires Sorted(es) && k < |es| && Matches(es[k], p)
    requires forall i | 0 <= i < |es| :: es[i].cb != NoCallback
    requires forall i | 0 <= i < k :: !Matches(es[i], p)
    ensures RemoveFirst(es, p) == es[..k] + es[k+1..]
    ensures Sorted(RemoveFirst(es, p))
    ensures forall i | 0 <= i < |RemoveFirst(es, p)| :: RemoveFirst(es, p)[i].cb != NoCallback
  {
    RemoveFirstSplit(es, p, k);
    hide RemoveFirst;
    var r := RemoveFirst(es, p);
    forall i | 0 <= i < |r| ensures r[i] == es[if i < k then i else i + 1] {
    }
  }

  lemma ScheduledRemove(ev: seq<Event>, ev': seq<Event>, head: nat, s: seq<nat>, k: nat, v: Event, p: Pattern, s': seq<nat>)
    requires ScheduledOk(ev, head, s) && k < |s|
    requires FirstMatch(ev, s, k, p)
    requires forall i | 0 <= i < |s| && i != k :: s[i] != s[k]
    requires k > 0 ==> forall i | 0 <= i < |s| && i != k - 1 :: s[i] != s[k - 1]
    requires Relinked(ev, ev', LinkTo(s, k), At(s, k + 1), s[k], v)
    requires Inserted(s', k, s[k], s)
    ensures ScheduledOk(ev', if k == 0 then At(s, 1) else head, s')
    ensures Entries(ev', s') == RemoveFirst(Entries(ev, s), p)
  {
    hide Chain, RemoveFirst, Sorted;
    LinkOut(ev, ev', head, s, k, v, s');
    EntriesOut(ev, ev', s, k, At(s, k + 1), v, s');
    var es := Entries(ev, s);
    forall i | 0 <= i < k ensures !Matches(es[i], p) {
    }
    EntriesRemove(es, p, k);
  }

  /** Position k holds the first scheduled event that matches p. */
  ghost predicate FirstMatch(ev: seq<Event>, s: seq<nat>, k: nat, p: Pattern)
    requires |ev| == MAX_EVENTS && Slots(s)
  {
    && k < |s|
    && Matches(EntryOf(ev[s[k] - 1]), p)
    && (forall i | 0 <= i < k :: !Matches(EntryOf(ev[s[i] - 1]), p))
  }

  /** dp_timetrack_add_event on the whole pool: slot f[0] moves from the free list
      to the k-th place of the scheduled list. */
  lemma PoolHead(ev: seq<Event>, head: nat, freeHead: nat, s: seq<nat>, f: seq<nat>, inFlight: nat)
    requires PoolOk(ev, head, freeHead, s, f, inFlight) && freeHead != NULL_EVENT
    ensures |ev| == MAX_EVENTS && Slots(s) && ScheduledOk(ev, head, s)
    ensures f != [] && f[0] == freeHead && 1 <= freeHead <= MAX_EVENTS && freeHead !in s
  {
    PartitionSymmetric(s, f, inFlight);
    Unique(f, s, inFlight, 0);
  }

  lemma PoolInsert(ev: seq<Event>, ev': seq<Event>, head: nat, freeHead: nat, s: seq<nat>, f: seq<nat>,
                   inFlight: nat, k: nat, v: Event) returns (s': seq<nat>)
    requires PoolOk(ev, head, freeHead, s, f, inFlight) && f != []
    requires Place(ev, s, k, v.time) && v.cb != NoCallback && v.next == At(s, k)
    requires Relinked(ev, ev', LinkTo(s, k), f[0], f[0], v)
    ensures PoolOk(ev', if k == 0 then f[0] else head, ev[f[0] - 1].next, s', f[1..], inFlight)
    ensures Entries(ev', s') == Insert(Entries(ev, s), EntryOf(v))
  {
    hide Chain, Sorted, Partition, Insert;
    s' := InsertAt(s, k, f[0]);
    assert f[0] !in s && (forall i | 0 < i < |f| :: f[i] != f[0]) by {
      PartitionSymmetric(s, f, inFlight);
      Unique(f, s, inFlight, 0);
    }
    assert ScheduledOk(ev', if k == 0 then f[0] else head, s') && Entries(ev', s') == Insert(Entries(ev, s), EntryOf(v)) by {
      if k > 0 {
        Unique(s, f, inFlight, k - 1);
      }
      ScheduledInsert(ev, ev', head, s, k, f[0], v, s');
    }
    assert FreeOk(ev', ev[f[0] - 1].next, f[1..]) by {
      FreePop(ev, freeHead, f);
      if k > 0 {
        Unique(s, f, inFlight, k - 1);
      }
      FreeFrame(ev, ev', ev[f[0] - 1].next, f[1..]);
    }
    PartitionTake(s, f, inFlight, k, s');
  }

  /** dp_timetrack_remove_event on the whole pool: the k-th scheduled slot becomes
      the head of the free list. */
  lemma PoolRemove(ev: seq<Event>, ev': seq<Event>, head: nat, freeHead: nat, s: seq<nat>, f: seq<nat>,
                   inFlight: nat, k: nat, p: Pattern) returns (s': seq<nat>)
    requires PoolOk(ev, head, freeHead, s, f, inFlight)
    requires FirstMatch(ev, s, k, p)
    requires Relinked(ev, ev', LinkTo(s, k), At(s, k + 1), s[k], EMPTY.(next := freeHead))
    ensures PoolOk(ev', if k == 0 then At(s, 1) else head, s[k], s', [s[k]] + f, inFlight)
    ensures Entries(ev', s') == RemoveFirst(Entries(ev, s), p)
  {
    hide Chain, Sorted, Partition, RemoveFirst;
    s' := DropAt(s, k);
    assert ScheduledOk(ev', if k == 0 then At(s, 1) else head, s')
      && Entries(ev', s') == RemoveFirst(Entries(ev, s), p) by {
      Unique(s, f, inFlight, k);
      if k > 0 {
        Unique(s, f, inFlight, k - 1);
      }
      ScheduledRemove(ev, ev', head, s, k, EMPTY.(next := freeHead), p, s');
    }
    assert FreeOk(ev', s[k], [s[k]] + f) by {
      Unique(s, f, inFlight, k);
      if k > 0 {
        Unique(s, f, inFlight, k - 1);
      }
      FreeFrame(ev, ev', freeHead, f);
      FreePush(ev', freeHead, f, s[k]);
    }
    PartitionGive(s, f, inFlight, k, s');
  }

  /** dp_timetrack_run_events unlinks the first scheduled slot; its callback runs
      while the slot is in neither list. */
  lemma PoolBegin(ev: seq<Event>, head: nat, freeHead: nat, s: seq<nat>, f: seq<nat>)
    requires PoolOk(ev, head, freeHead, s, f, NULL_EVENT) && s != []
    ensures PoolOk(ev, ev[s[0] - 1].next, freeHead, s[1..], f, s[0])
    ensures Entries(ev, s[1..]) == Entries(ev, s)[1..]
  {
    assert Linked(ev, s, 0);
    assert Entries(ev, s[1..]) == Entries(ev, s)[1..];
    forall i | 0 <= i < |s[1..]| ensures Linked(ev, s[1..], i) {
      assert Linked(ev, s, i + 1);
    }
    PartitionBegin(s, f);
  }

  lemma PartitionBegin(s: seq<nat>, f: seq<nat>)
    requires Partition(s, f, NULL_EVENT) && s != []
    ensures Partition(s[1..], f, s[0])
  {
    Unique(s, f, NULL_EVENT, 0);
    assert s == [s[0]] + s[1..];
    PartitionMove(s, f, NULL_EVENT, s[1..], f, s[0]);
  }

  lemma PartitionFinish(s: seq<nat>, f: seq<nat>, x: nat)
    requires Partition(s, f, x) && x != NULL_EVENT
    ensures 1 <= x <= MAX_EVENTS && x !in s && x !in f
    ensures Partition(s, [x] + f, NULL_EVENT)
  {
    assert Held(s, f, x, x) <= 1 && Held(s, f, x, x) != 0;
    PartitionMove(s, f, x, s, [x] + f, NULL_EVENT);
  }

  /** ... and is pushed on the free list when the callback has returned. */
  lemma PoolFinish(ev: seq<Event>, head: nat, freeHead: nat, s: seq<nat>, f: seq<nat>, x: nat)
    requires PoolOk(ev, head, freeHead, s, f, x) && x != NULL_EVENT
    ensures 1 <= x <= MAX_EVENTS
    ensures var ev' := ev[x - 1 := EMPTY.(next := freeHead)];
      && PoolOk(ev', head, x, s, [x] + f, NULL_EVENT)
      && Entries(ev', s) == Entries(ev, s)
  {
    PartitionFinish(s, f, x);
    var ev' := ev[x - 1 := EMPTY.(next := freeHead)];
    assert forall i | 0 <= i < |s| :: s[i] in s;
    assert forall i | 0 <= i < |f| :: f[i] in f;
    ChainFrame(ev, ev', head, s);
    assert Entries(ev', s) == Entries(ev, s);
    FreeFrame(ev, ev', freeHead, f);
    FreePush(ev', freeHead, f, x);
  }

  class Timetrack {
    var ticks: nat
    var nextEvent: nat
    var freeEvent: nat
    const events: array<Event>

    ghost var scheduled: seq<nat>
    ghost var free: seq<nat>
    ghost var inFlight: nat

    ghost predicate Valid()
      reads this, events
    {
      PoolOk(events[..], nextEvent, freeEvent, scheduled, free, inFlight)
    }

    ghost function View(): (s: Sched)
      requires Valid()
      reads this, events
    {
      Sched(ticks, Entries(events[..], scheduled))
    }

    /** dp_timetrack_init: slots 1..512 chained into the free list. */
    constructor ()
      ensures Valid() && fresh(events)
      ensures View() == Sched(0, []) && inFlight == NULL_EVENT
    {
      ticks, nextEvent, freeEvent := 0, NULL_EVENT, 1;
      events := new Event[MAX_EVENTS](_ => EMPTY);
      scheduled, inFlight := [], NULL_EVENT;
      free := FirstSlots(MAX_EVENTS);
      new;
      for i := 0 to MAX_EVENTS - 1
        modifies events
        invariant forall j | 0 <= j < i :: events[j] == EMPTY.(next := j + 2)
        invariant forall j | i <= j < MAX_EVENTS :: events[j] == EMPTY
      {
        events[i] := events[i].(next := 2 + i % MAX_EVENTS);
      }
      InitialPartition(MAX_EVENTS);
    }

    lemma HasRoom()
      requires Valid()
      ensures |View().queue| + 1 < MAX_EVENTS ==> freeEvent != NULL_EVENT
      ensures inFlight == NULL_EVENT && |View().queue| < MAX_EVENTS ==> freeEvent != NULL_EVENT
    {
      PoolRoom(events[..], nextEvent, freeEvent, scheduled, free, inFlight);
    }

    /** `*last_link = index`, where link 0 stands for timetrack->next_event and
        link k for the next_event field of slot k. */
    method SetLink(link: nat, index: nat)
      requires events.Length == MAX_EVENTS && link <= MAX_EVENTS
      modifies this`nextEvent, events
      ensures nextEvent == if link == 0 then index else old(nextEvent)
      ensures events[..] == WithLink(old(events[..]), link, index)
    {
      if link == 0 {
        nextEvent := index;
      } else {
        events[link - 1] := events[link - 1].(next := index);
      }
    }

    /** The walk of dp_timetrack_add_event to the first event later than `time`:
        the link that leads to it and its index. */
    method FindPlace(time: nat) returns (link: nat, next: nat, ghost k: nat)
      requires ScheduledOk(events[..], nextEvent, scheduled)
      ensures Place(events[..], scheduled, k, time)
      ensures link == LinkTo(scheduled, k) && next == At(scheduled, k)
    {
      link, next, k := 0, nextEvent, 0;
      while next != NULL_EVENT
        invariant k <= |scheduled|
        invariant next == At(scheduled, k)
        invariant link == LinkTo(scheduled, k)
        invariant forall i | 0 <= i < k :: events[..][scheduled[i] - 1].time <= time
        decreases |scheduled| - k
      {
        if events[next - 1].time > time {
          break;
        }
        link := next;
        assert Linked(events[..], scheduled, k);
        next := events[next - 1].next;
        k := k + 1;
      }
    }

    /** The stores of dp_timetrack_add_event: the first free slot is filled and
        linked in where the walk stopped. */
    method LinkEvent(cb: Callback, data: nat, delay: nat) returns (ghost k: nat)
      requires ScheduledOk(events[..], nextEvent, scheduled)
      requires 1 <= freeEvent <= MAX_EVENTS && freeEvent !in scheduled
      modifies this`nextEvent, this`freeEvent, events
      ensures Place(old(events[..]), scheduled, k, (ticks + delay) % TWO64)
      ensures Relinked(old(events[..]), events[..], LinkTo(scheduled, k), old(freeEvent), old(freeEvent),
                       Event((ticks + delay) % TWO64, cb, data, At(scheduled, k)))
      ensures nextEvent == if k == 0 then old(freeEvent) else old(nextEvent)
      ensures freeEvent == old(events[freeEvent - 1].next)
    {
      ghost var ev := events[..];
      var cur, time := freeEvent, (ticks + delay) % TWO64;
      var link, next;
      link, next, k := FindPlace(time);
      freeEvent := events[cur - 1].next;
      events[cur - 1] := Event(time, cb, data, next);
      assert events[..] == ev[cur - 1 := Event(time, cb, data, next)];
      SetLink(link, cur);
      RelinkedBy(ev, link, cur, cur, Event(time, cb, data, next));
    }

    /** dp_timetrack_add_event */
    method AddEvent(cb: Callback, data: nat, delay: nat)
      requires Valid() && cb != NoCallback
      requires freeEvent != NULL_EVENT
      modifies this, events
      ensures Valid()
      ensures View() == Scheduler.AddEvent(old(View()), cb, data, delay)
      ensures inFlight == old(inFlight)
    {
      hide Place, Relinked, ScheduledOk, FreeOk, Partition, Insert;
      ghost var ev, head, freeHead := events[..], nextEvent, freeEvent;
      PoolHead(ev, head, freeHead, scheduled, free, inFlight);
      ghost var k := LinkEvent(cb, data, delay);
      ghost var v := Event((ticks + delay) % TWO64, cb, data, At(scheduled, k));
      ghost var ev' := events[..];
      ghost var s' := PoolInsert(ev, ev', head, freeHead, scheduled, free, inFlight, k, v);
      scheduled, free := s', free[1..];
    }

    /** The stores of dp_timetrack_remove_event: the slot is cleared, made the head
        of the free list, and its link pointed past it. */
    method StoreUnlink(link: nat, index: nat, next: nat)
      requires events.Length == MAX_EVENTS && 1 <= index <= MAX_EVENTS
      requires link <= MAX_EVENTS && link != index
      modifies this`nextEvent, this`freeEvent, events
      ensures Relinked(old(events[..]), events[..], link, next, index, EMPTY.(next := old(freeEvent)))
      ensures nextEvent == if link == 0 then next else old(nextEvent)
      ensures freeEvent == index
    {
      ghost var ev, freeHead := events[..], freeEvent;
      ReleaseSlot(index);
      SetLink(link, next);
      RelinkedBy(ev, link, next, index, EMPTY.(next := freeHead));
    }

    /** A match at scheduled position k: the slot moves to the free list. */
    method UnlinkEvent(link: nat, index: nat, next: nat, ghost k: nat, ghost p: Pattern)
      requires Valid() && FirstMatch(events[..], scheduled, k, p)
      requires link == LinkTo(scheduled, k) && index == scheduled[k] && next == At(scheduled, k + 1)
      modifies this, events
      ensures Valid() && ticks == old(ticks) && inFlight == old(inFlight)
      ensures View().queue == RemoveFirst(old(View()).queue, p)
      ensures Draining(0, index, link)
    {
      hide Relinked, Chain, Partition, RemoveFirst, Sorted;
      ghost var ev, head, freeHead := events[..], nextEvent, freeEvent;
      assert link != index by {
        Unique(scheduled, free, inFlight, k);
      }
      StoreUnlink(link, index, next);
      ghost var ev' := events[..];
      ghost var s' := PoolRemove(ev, ev', head, freeHead, scheduled, free, inFlight, k, p);
      scheduled, free := s', [index] + free;
    }

    /** Clears a slot and makes it the head of the free list. */
    method ReleaseSlot(index: nat)
      requires events.Length == MAX_EVENTS && 1 <= index <= MAX_EVENTS
      modifies this`freeEvent, events
      ensures events[..] == old(events[..])[index - 1 := EMPTY.(next := old(freeEvent))]
      ensures freeEvent == index
    {
      events[index - 1] := Event(0, NoCallback, 0, freeEvent);
      freeEvent := index;
    }

    /** dp_timetrack_remove_event and dp_timetrack_remove_event_data. After a match
        the walk goes on from the freed slot, which is now the head of the free
        list; no free slot carries a callback, so it only runs off the end. */
    method RemoveMatching(p: Pattern)
      requires Valid() && p.cb != NoCallback
      modifies this, events
      ensures Valid() && ticks == old(ticks) && inFlight == old(inFlight)
      ensures View().queue == RemoveFirst(old(View()).queue, p)
    {
      hide PoolOk, FirstMatch, RemoveFirst;
      var index: nat, link: nat := nextEvent, 0;
      ghost var k: nat, found := 0, false;
      WalkBegins(p);
      while index != NULL_EVENT
        invariant Valid() && ticks == old(ticks) && inFlight == old(inFlight)
        invariant if found then Draining(k, index, link) else Searching(k, p, index, link)
        invariant View().queue == if found then RemoveFirst(old(View()).queue, p) else old(View()).queue
        decreases !found, if found then |free| - k else |scheduled| - k
      {
        WalkFacts(found, k, p, index, link);
        var event := events[index - 1];
        var next := event.next;
        if event.cb == p.cb && (p.ByData? ==> event.data == p.data) {
          UnlinkEvent(link, index, next, k, p);
          found, k := true, 0;
          continue;
        }
        link := index;
        index := next;
        k := k + 1;
      }
      if !found {
        WalkOver(k, p, link);
      }
    }

    lemma WalkBegins(p: Pattern)
      requires Valid()
      ensures Searching(0, p, nextEvent, 0)
    {
    }

    /** A walk off the end of the scheduled list has found no match. */
    lemma WalkOver(k: nat, p: Pattern, link: nat)
      requires Valid() && Searching(k, p, NULL_EVENT, link)
      ensures RemoveFirst(View().queue, p) == View().queue
    {
      RemoveFirstSplit(View().queue, p, |View().queue|);
    }

    /** The walk stands at scheduled position k and has passed no match. */
    ghost predicate Searching(k: nat, p: Pattern, index: nat, link: nat)
      requires Valid()
      reads this, events
    {
      && k <= |scheduled| && index == At(scheduled, k) && link == LinkTo(scheduled, k)
      && (forall i | 0 <= i < k :: !Matches(EntryOf(events[..][scheduled[i] - 1]), p))
    }

    /** The walk stands at position k of the free list, behind a match. */
    ghost predicate Draining(k: nat, index: nat, link: nat)
      requires Valid()
      reads this, events
    {
      k <= |free| && index == At(free, k) && link <= MAX_EVENTS
    }

    /** What the slot under the walk holds: the next position of its list, and in
        the free list no callback. */
    lemma WalkFacts(found: bool, k: nat, p: Pattern, index: nat, link: nat)
      requires Valid() && index != NULL_EVENT && p.cb != NoCallback
      requires if found then Draining(k, index, link) else Searching(k, p, index, link)
      ensures 1 <= index <= MAX_EVENTS == events.Length
      ensures !found ==> (k < |scheduled| && index == scheduled[k]
                          && events[index - 1].next == At(scheduled, k + 1))
      ensures !found && !Matches(EntryOf(events[index - 1]), p)
        ==> Searching(k + 1, p, events[index - 1].next, index)
      ensures !found && Matches(EntryOf(events[index - 1]), p) ==> FirstMatch(events[..], scheduled, k, p)
      ensures found ==> (!Matches(EntryOf(events[index - 1]), p)
                         && k < |free| && Draining(k + 1, events[index - 1].next, index))
    {
      if found {
        assert Linked(events[..], free, k);
      } else {
        assert Linked(events[..], scheduled, k);
      }
    }

    /** dp_timetrack_remove_event */
    method RemoveEvent(cb: Callback)
      requires Valid() && cb != NoCallback
      modifies this, events
      ensures Valid() && inFlight == old(inFlight)
      ensures View() == Scheduler.RemoveEvent(old(View()), cb)
    {
      RemoveMatching(ByCallback(cb));
    }

    /** dp_timetrack_remove_event_data */
    method RemoveEventData(cb: Callback, data: nat)
      requires Valid() && cb != NoCallback
      modifies this, events
      ensures Valid() && inFlight == old(inFlight)
      ensures View() == old(View()).(queue := RemoveFirst(old(View()).queue, ByData(cb, data)))
    {
      RemoveMatching(ByData(cb, data));
    }

    /** The test of dp_timetrack_run_events and dp_timetrack_run_events_check. */
    method IsDue() returns (due: bool)
      requires Valid()
      ensures due == Due(View())
    {
      due := nextEvent != NULL_EVENT && events[nextEvent - 1].time <= ticks;
    }

    /** First half of an iteration of dp_timetrack_run_events: unlink the due slot. */
    method BeginEvent() returns (index: nat, cb: Callback, data: nat)
      requires Valid() && Due(View()) && inFlight == NULL_EVENT
      modifies this
      ensures Valid() && inFlight == index != NULL_EVENT
      ensures cb == old(View()).queue[0].cb && data == old(View()).queue[0].data
      ensures View() == old(View()).(queue := old(View()).queue[1..])
    {
      index := nextEvent;
      PoolBegin(events[..], nextEvent, freeEvent, scheduled, free);
      cb, data := events[index - 1].cb, events[index - 1].data;
      nextEvent := events[index - 1].next;
      inFlight, scheduled := scheduled[0], scheduled[1..];
    }

    /** Second half: the slot goes to the free list. */
    method FinishEvent(index: nat)
      requires Valid() && inFlight == index != NULL_EVENT
      modifies this, events
      ensures Valid() && inFlight == NULL_EVENT
      ensures View() == old(View())
    {
      PoolFinish(events[..], nextEvent, freeEvent, scheduled, free, index);
      ReleaseSlot(index);
      inFlight, free := NULL_EVENT, [index] + free;
    }

    /** dp_timetrack_charge_ticks without the periodic dump; ticks is a u64. */
    method ChargeTicks(diff: nat)
      requires Valid()
      modifies this`ticks
      ensures Valid() && inFlight == old(inFlight)
      ensures View() == old(View()).(ticks := (old(ticks) + diff) % TWO64)
    {
      ticks := (ticks + diff) % TWO64;
    }
  }
}
