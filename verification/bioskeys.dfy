/** core/keyboard.c: the BIOS key ring in guest memory and the int 16h calls that read
    it. */
module BiosKeys {
  import opened Basics

  const FLAGS2 := 0x418
  const BUFFER_HEAD := 0x41a
  const BUFFER_TAIL := 0x41c
  const BUFFER := 0x41e
  const BUFFER_START := 0x480
  const BUFFER_END := 0x482

  /** Segment 0x40, where the ring's offsets count from. */
  const BIOS_SEGMENT := 0x400

  const FIRST_OFFSET: u16 := 0x1e
  const LAST_OFFSET: u16 := 0x3e
  const SLOTS := 16
  const FLAG_ZF := 0x40
  const FLAG_IF := 0x200

  // ----- words in memory

  function Word(m: seq<u8>, a: nat): u16
    requires a + 1 < |m|
  {
    Joined(m[a], m[a + 1])
  }

  function Joined(lo: u8, hi: u8): u16 {
    var low: nat, high: nat := lo, hi;
    low + 0x100 * high
  }

  function WithWord(m: seq<u8>, a: nat, v: u16): (r: seq<u8>)
    requires a + 1 < |m|
    ensures |r| == |m| && Word(r, a) == v
    ensures forall i | 0 <= i < |m| && i != a && i != a + 1 :: r[i] == m[i]
  {
    m[a := v % 0x100][a + 1 := v / 0x100]
  }

  // ----- the ring

  function SlotAddr(s: nat): nat { BUFFER + 2 * s }

  /** The slot i places behind slot h, around the end of the ring. */
  function Slot(h: nat, i: nat): nat {
    if h + i >= SLOTS then h + i - SLOTS else h + i
  }

  function HeadSlot(m: seq<u8>): nat
    requires Sound(m)
  {
    (Word(m, BUFFER_HEAD) - FIRST_OFFSET) / 2
  }

  function TailSlot(m: seq<u8>): nat
    requires Sound(m)
  {
    (Word(m, BUFFER_TAIL) - FIRST_OFFSET) / 2
  }

  predicate SlotOffset(v: u16) { FIRST_OFFSET <= v < LAST_OFFSET && v % 2 == 0 }

  /** The ring's bounds are those dp_keyboard_init wrote, and both ends lie in it. */
  predicate Sound(m: seq<u8>) {
    && |m| >= 0x500
    && Word(m, BUFFER_START) == FIRST_OFFSET && Word(m, BUFFER_END) == LAST_OFFSET
    && SlotOffset(Word(m, BUFFER_HEAD)) && SlotOffset(Word(m, BUFFER_TAIL))
  }

  /** How many keys wait. */
  function Waiting(m: seq<u8>): (n: nat)
    requires Sound(m)
    ensures n < SLOTS
  {
    SlotOf(Word(m, BUFFER_HEAD));
    SlotOf(Word(m, BUFFER_TAIL));
    if TailSlot(m) >= HeadSlot(m) then TailSlot(m) - HeadSlot(m) else TailSlot(m) + SLOTS - HeadSlot(m)
  }

  function KeyAt(m: seq<u8>, i: nat): u16
    requires Sound(m) && i < SLOTS
  {
    SlotOf(Word(m, BUFFER_HEAD));
    Word(m, SlotAddr(Slot(HeadSlot(m), i)))
  }

  /** The waiting keys, oldest first. */
  function Keys(m: seq<u8>): (r: seq<u16>)
    requires Sound(m)
    ensures |r| == Waiting(m)
    ensures forall i | 0 <= i < |r| :: r[i] == KeyAt(m, i)
  {
    seq(Waiting(m), i requires 0 <= i < Waiting(m) => KeyAt(m, i))
  }

  /** `offset + 2`, around the end of the ring. */
  function NextOffset(m: seq<u8>, offset: u16): u16
    requires |m| >= 0x500
  {
    var t := (offset + 2) % 0x1_0000;
    if t >= Word(m, BUFFER_END) then Word(m, BUFFER_START) else t
  }

  predicate Paused(m: seq<u8>)
    requires |m| >= 0x500
  {
    m[FLAGS2] / 8 % 2 == 1
  }

  predicate Full(m: seq<u8>)
    requires |m| >= 0x500
  {
    NextOffset(m, Word(m, BUFFER_TAIL)) == Word(m, BUFFER_HEAD)
  }

  /** BIOS_AddKeyToBuffer: memory and the result. */
  function AddKey(m: seq<u8>, code: u16): (seq<u8>, bool)
    requires Sound(m)
  {
    if Paused(m) then (m, true)
    else if Full(m) then (m, false)
    else
      var tail := Word(m, BUFFER_TAIL);
      (WithWord(WithWord(m, BIOS_SEGMENT + tail, code), BUFFER_TAIL, NextOffset(m, tail)), true)
  }

  predicate Empty(m: seq<u8>)
    requires |m| >= 0x500
  {
    Word(m, BUFFER_HEAD) == Word(m, BUFFER_TAIL)
  }

  /** get_key, when a key waits: memory and the key. */
  function GetKey(m: seq<u8>): (seq<u8>, u16)
    requires Sound(m)
  {
    var head := Word(m, BUFFER_HEAD);
    (WithWord(m, BUFFER_HEAD, NextOffset(m, head)), Word(WithWord(m, BUFFER_HEAD, NextOffset(m, head)), BIOS_SEGMENT + head))
  }

  lemma NextSlot(m: seq<u8>, v: u16)
    requires Sound(m) && SlotOffset(v)
    ensures SlotOffset(NextOffset(m, v))
    ensures (NextOffset(m, v) - FIRST_OFFSET) / 2 == Slot((v - FIRST_OFFSET) / 2, 1)
  {
    SlotOf(v);
    SlotOf(NextOffset(m, v));
  }

  lemma SlotOf(v: u16)
    requires SlotOffset(v)
    ensures var s := (v - FIRST_OFFSET) / 2; s < SLOTS && SlotAddr(s) == BIOS_SEGMENT + v && v == FIRST_OFFSET + 2 * s
  {
  }

  lemma EmptyIs(m: seq<u8>)
    requires Sound(m)
    ensures Empty(m) <==> Keys(m) == []
    ensures Full(m) <==> |Keys(m)| == SLOTS - 1
  {
    SlotOf(Word(m, BUFFER_HEAD));
    SlotOf(Word(m, BUFFER_TAIL));
    NextSlot(m, Word(m, BUFFER_TAIL));
  }

  /** Only the ring and its two ends are ever written. */
  ghost predicate RingOnly(m: seq<u8>, m': seq<u8>) {
    && |m'| == |m|
    && forall a: nat | a < |m| && !(BUFFER_HEAD <= a < BUFFER + 2 * SLOTS) :: m'[a] == m[a]
  }

  /** A key is put behind the others, unless 15 wait or input is paused. */
  lemma AddKeyQueues(m: seq<u8>, code: u16)
    requires Sound(m)
    ensures var (m', ok) := AddKey(m, code);
      && Sound(m') && RingOnly(m, m')
      && (ok <==> Paused(m) || |Keys(m)| < SLOTS - 1)
      && Keys(m') == if !Paused(m) && |Keys(m)| < SLOTS - 1 then Keys(m) + [code] else Keys(m)
  {
    EmptyIs(m);
    if !Paused(m) && !Full(m) {
      var tail := Word(m, BUFFER_TAIL);
      SlotOf(tail);
      NextSlot(m, tail);
      var m1 := WithWord(m, BIOS_SEGMENT + tail, code);
      SlotWritten(m, m1, TailSlot(m), code);
      var m' := WithWord(m1, BUFFER_TAIL, NextOffset(m, tail));
      assert Sound(m');
      AddedKeys(m, m', code);
    }
  }

  lemma SlotWritten(m: seq<u8>, m': seq<u8>, s: nat, code: u16)
    requires Sound(m) && s < SLOTS && m' == WithWord(m, SlotAddr(s), code)
    ensures Sound(m') && RingOnly(m, m') && HeadSlot(m') == HeadSlot(m) && TailSlot(m') == TailSlot(m)
    ensures Word(m', SlotAddr(s)) == code
    ensures forall t | 0 <= t < SLOTS && t != s :: Word(m', SlotAddr(t)) == Word(m, SlotAddr(t))
  {
  }

  lemma AddedKeys(m: seq<u8>, m': seq<u8>, code: u16)
    requires Sound(m) && Sound(m') && Waiting(m) < SLOTS - 1
    requires HeadSlot(m) < SLOTS && TailSlot(m) < SLOTS
    requires HeadSlot(m') == HeadSlot(m) && TailSlot(m') == Slot(TailSlot(m), 1)
    requires Word(m', SlotAddr(TailSlot(m))) == code
    requires forall t | 0 <= t < SLOTS && t != TailSlot(m) :: Word(m', SlotAddr(t)) == Word(m, SlotAddr(t))
    ensures Keys(m') == Keys(m) + [code]
  {
    hide Word;
    var h, w := HeadSlot(m), Waiting(m);
    assert Waiting(m') == w + 1 && Slot(h, w) == TailSlot(m);
    forall i | 0 <= i < w ensures KeyAt(m', i) == KeyAt(m, i) {
      assert Slot(h, i) != TailSlot(m);
    }
    assert KeyAt(m', w) == code;
  }

  /** The oldest key comes off, and the others keep their order. */
  lemma GetKeyTakesFirst(m: seq<u8>)
    requires Sound(m) && !Empty(m)
    ensures Keys(m) != []
    ensures var (m', code) := GetKey(m);
      && Sound(m') && RingOnly(m, m') && code == Keys(m)[0] && Keys(m') == Keys(m)[1..]
  {
    EmptyIs(m);
    var head := Word(m, BUFFER_HEAD);
    SlotOf(head);
    NextSlot(m, head);
    var m' := GetKey(m).0;
    HeadMoved(m, m');
  }

  lemma HeadMoved(m: seq<u8>, m': seq<u8>)
    requires Sound(m) && Sound(m') && Waiting(m) > 0 && HeadSlot(m) < SLOTS
    requires HeadSlot(m') == Slot(HeadSlot(m), 1) && TailSlot(m') == TailSlot(m)
    requires forall t | 0 <= t < SLOTS :: Word(m', SlotAddr(t)) == Word(m, SlotAddr(t))
    ensures Keys(m') == Keys(m)[1..]
  {
    hide Word;
    var h, w := HeadSlot(m), Waiting(m);
    assert Waiting(m') == w - 1;
    forall i | 0 <= i < w - 1 ensures KeyAt(m', i) == KeyAt(m, i + 1) {
      assert Slot(Slot(h, 1), i) == Slot(h, i + 1);
    }
  }

  /** A run of calls. */
  datatype RingOp = Put(code: u16) | Take

  /** Memory behind the calls, and the keys they took. */
  function Run(m: seq<u8>, ops: seq<RingOp>): (seq<u8>, seq<u16>)
    requires Sound(m)
    decreases |ops|
  {
    if ops == [] then (m, [])
    else
      match ops[0]
      case Put(code) =>
        AddKeyQueues(m, code);
        Run(AddKey(m, code).0, ops[1..])
      case Take =>
        if Empty(m) then Run(m, ops[1..])
        else
          GetKeyTakesFirst(m);
          var (m1, key) := GetKey(m);
          var (m2, keys) := Run(m1, ops[1..]);
          (m2, [key] + keys)
  }

  /** The same calls on a plain queue of at most 15 keys. */
  function Fifo(q: seq<u16>, paused: bool, ops: seq<RingOp>): (seq<u16>, seq<u16>)
    decreases |ops|
  {
    if ops == [] then (q, [])
    else
      match ops[0]
      case Put(code) => Fifo(if !paused && |q| < SLOTS - 1 then q + [code] else q, paused, ops[1..])
      case Take =>
        if q == [] then Fifo(q, paused, ops[1..])
        else
          var (q', keys) := Fifo(q[1..], paused, ops[1..]);
          (q', [q[0]] + keys)
  }

  /** Over any run of calls the ring in guest memory is a queue of 15 keys: the same
      keys come out and the same ones are left, and nothing outside the ring and its
      ends is written. */
  lemma {:induction false} RingIsFifo(m: seq<u8>, ops: seq<RingOp>)
    requires Sound(m)
    ensures var ((m', taken), (left, keys)) := (Run(m, ops), Fifo(Keys(m), Paused(m), ops));
      Sound(m') && RingOnly(m, m') && Keys(m') == left && taken == keys
    decreases |ops|
  {
    if ops != [] {
      match ops[0]
      case Put(code) =>
        AddKeyQueues(m, code);
        RingIsFifo(AddKey(m, code).0, ops[1..]);
      case Take =>
        EmptyIs(m);
        if Empty(m) {
          RingIsFifo(m, ops[1..]);
        } else {
          GetKeyTakesFirst(m);
          RingIsFifo(GetKey(m).0, ops[1..]);
        }
    }
  }

  // ----- int 16h

  /** A key the calls do not show. */
  predicate Enhanced(key: u16) {
    key / 0x100 != 0xe0 && (key / 0x100 > 0x84 || (key % 0x100 == 0xf0 && key / 0x100 != 0))
  }

  /** What IsEnhancedKey makes of a normal key. */
  function Translated(key: u16): u16 {
    var hi, lo := key / 0x100, key % 0x100;
    if hi == 0xe0 then
      if lo == 0x0a || lo == 0x0d then lo + 0x1c00 else lo + 0x3500
    else if hi != 0 && lo == 0xe0 then 0x100 * hi
    else key
  }

  /** The keys behind the leading run of enhanced ones. */
  function WithoutEnhanced(keys: seq<u16>): (r: seq<u16>)
    ensures r != [] ==> !Enhanced(r[0])
    ensures |r| <= |keys| && r == keys[|keys| - |r|..]
    ensures forall i | 0 <= i < |keys| - |r| :: Enhanced(keys[i])
  {
    if keys != [] && Enhanced(keys[0]) then WithoutEnhanced(keys[1..]) else keys
  }

  function WithBit(x: u16, bit: nat, on: bool): u16
    requires bit == FLAG_ZF || bit == FLAG_IF
  {
    if on == (x / bit % 2 == 1) then x else if on then (x + bit) % 0x1_0000 else x - bit
  }

  class Bios {
    const memory: array<u8>
    var ax: u16

    ghost predicate Valid()
      reads this, memory
    {
      Sound(memory[..])
    }

    method ReadWord(a: nat) returns (v: u16)
      requires a + 1 < memory.Length
      ensures v == Word(memory[..], a)
    {
      v := Joined(memory[a], memory[a + 1]);
    }

    method WriteWord(a: nat, v: u16)
      requires a + 1 < memory.Length
      modifies memory
      ensures memory[..] == WithWord(old(memory[..]), a, v)
    {
      memory[a] := v % 0x100;
      memory[a + 1] := v / 0x100;
    }

    /** The ring's words as dp_keyboard_init writes them. */
    method InitRing()
      requires memory.Length >= 0x500
      modifies memory
      ensures Valid() && Keys(memory[..]) == []
    {
      WriteWord(BUFFER_START, FIRST_OFFSET);
      WriteWord(BUFFER_END, LAST_OFFSET);
      WriteWord(BUFFER_HEAD, FIRST_OFFSET);
      WriteWord(BUFFER_TAIL, FIRST_OFFSET);
    }

    /** BIOS_AddKeyToBuffer */
    method AddKeyToBuffer(code: u16) returns (ok: bool)
      requires Valid()
      modifies memory
      ensures Valid() && (memory[..], ok) == AddKey(old(memory[..]), code)
    {
      ghost var m := memory[..];
      AddKeyQueues(m, code);
      if memory[FLAGS2] / 8 % 2 == 1 {
        return true;
      }
      var start := ReadWord(BUFFER_START);
      var end := ReadWord(BUFFER_END);
      var head := ReadWord(BUFFER_HEAD);
      var tail := ReadWord(BUFFER_TAIL);
      var ttail: u16 := (tail + 2) % 0x1_0000;
      if ttail >= end {
        ttail := start;
      }
      if ttail == head {
        return false;
      }
      WriteWord(BIOS_SEGMENT + tail, code);
      WriteWord(BUFFER_TAIL, ttail);
      ok := true;
    }

    /** get_key */
    method TakeKey() returns (found: bool, code: u16)
      requires Valid()
      modifies memory
      ensures Valid() && RingOnly(old(memory[..]), memory[..])
      ensures var keys := Keys(old(memory[..]));
        if keys == [] then !found && memory[..] == old(memory[..])
        else found && code == keys[0] && Keys(memory[..]) == keys[1..]
    {
      ghost var m := memory[..];
      EmptyIs(m);
      var start := ReadWord(BUFFER_START);
      var end := ReadWord(BUFFER_END);
      var head := ReadWord(BUFFER_HEAD);
      var tail := ReadWord(BUFFER_TAIL);
      if head == tail {
        return false, 0;
      }
      GetKeyTakesFirst(m);
      var thead: u16 := (head + 2) % 0x1_0000;
      if thead >= end {
        thead := start;
      }
      WriteWord(BUFFER_HEAD, thead);
      code := ReadWord(BIOS_SEGMENT + head);
      found := true;
    }

    /** check_key */
    method CheckKey() returns (found: bool, code: u16)
      requires Valid()
      ensures var keys := Keys(memory[..]);
        if keys == [] then !found else found && code == keys[0]
    {
      EmptyIs(memory[..]);
      var head := ReadWord(BUFFER_HEAD);
      var tail := ReadWord(BUFFER_TAIL);
      if head == tail {
        return false, 0;
      }
      SlotOf(head);
      code := ReadWord(BIOS_SEGMENT + head);
      found := true;
    }

    /** int 16h, AH = 0: the oldest key, translated; 0 if there is none or it is
        enhanced. */
    method GetKeystroke()
      requires Valid()
      modifies this`ax, memory
      ensures Valid() && RingOnly(old(memory[..]), memory[..])
      ensures var keys := Keys(old(memory[..]));
        && Keys(memory[..]) == (if keys == [] then [] else keys[1..])
        && ax == if keys == [] || Enhanced(keys[0]) then 0 else Translated(keys[0])
    {
      var found, key := TakeKey();
      ax := 0;
      if found && !Enhanced(key) {
        ax := Translated(key);
      }
    }

    /** int 16h, AH = 1, without the caller's flags word: drops the leading enhanced
        keys and shows the next one, which stays queued. */
    method CheckKeystroke() returns (none: bool)
      requires Valid()
      modifies this`ax, memory
      ensures Valid() && RingOnly(old(memory[..]), memory[..])
      ensures var left := WithoutEnhanced(Keys(old(memory[..])));
        && Keys(memory[..]) == left && (none <==> left == [])
        && ax == if left == [] then old(ax) else Translated(left[0])
    {
      while true
        invariant Valid() && RingOnly(old(memory[..]), memory[..]) && ax == old(ax)
        invariant WithoutEnhanced(Keys(memory[..])) == WithoutEnhanced(Keys(old(memory[..])))
        decreases |Keys(memory[..])|
      {
        var found, key := CheckKey();
        if !found {
          return true;
        }
        if !Enhanced(key) {
          ax := Translated(key);
          return false;
        }
        var _, _ := TakeKey();
      }
    }

    /** int 16h, AH = 1: the caller's saved flags get IF set, and ZF set exactly when no
        key is shown. The flags word may lie anywhere; where it overlaps the ring, the
        keys are those left by the first store, and `shown` is the memory before the
        second. */
    method CheckForKey(flagsAddr: nat) returns (ghost shown: seq<u8>)
      requires Valid() && flagsAddr + 1 < memory.Length
      requires Sound(FlagsSet(memory[..], flagsAddr, FLAG_IF, true))
      modifies this`ax, memory
      ensures var first := FlagsSet(old(memory[..]), flagsAddr, FLAG_IF, true);
        RingOnly(first, shown) && ShownBy(first, shown, old(ax), ax) && |shown| == memory.Length
        && memory[..] == FlagsSet(shown, flagsAddr, FLAG_ZF, Keys(shown) == [])
      ensures flagsAddr + 1 < BUFFER_HEAD || BUFFER_END + 1 < flagsAddr ==> (
        && Valid() && ShownBy(old(memory[..]), memory[..], old(ax), ax)
        && Word(memory[..], flagsAddr)
          == WithBit(WithBit(old(Word(memory[..], flagsAddr)), FLAG_IF, true), FLAG_ZF, Keys(memory[..]) == []))
    {
      hide Sound, Keys, FlagsSet, RingOnly, WithBit, Word, WithoutEnhanced;
      ghost var m, ax0 := memory[..], ax;
      SetFlag(flagsAddr, FLAG_IF, true);
      ghost var first := memory[..];
      var none := CheckKeystroke();
      shown := memory[..];
      RingIsLong(m, first, shown);
      assert ShownBy(first, shown, ax0, ax);
      SetFlag(flagsAddr, FLAG_ZF, none);
      hide ShownBy;
      if flagsAddr + 1 < BUFFER_HEAD || BUFFER_END + 1 < flagsAddr {
        FlagsElsewhere(m, first, shown, memory[..], flagsAddr, ax0, ax);
      }
    }

    method SetFlag(a: nat, bit: nat, on: bool)
      requires a + 1 < memory.Length && (bit == FLAG_ZF || bit == FLAG_IF)
      modifies memory
      ensures memory[..] == FlagsSet(old(memory[..]), a, bit, on)
    {
      hide WithBit;
      var f := ReadWord(a);
      WriteWord(a, WithBit(f, bit, on));
    }
  }

  /** The keys m' shows: those of m without the leading enhanced ones, the first of
      them translated in AX. */
  ghost predicate ShownBy(m: seq<u8>, m': seq<u8>, ax: u16, ax': u16) {
    && Sound(m) && Sound(m') && Keys(m') == WithoutEnhanced(Keys(m))
    && ax' == if Keys(m') == [] then ax else Translated(Keys(m')[0])
  }

  lemma RingIsLong(m: seq<u8>, first: seq<u8>, shown: seq<u8>)
    requires Sound(m) && |first| == |m| && RingOnly(first, shown)
    ensures |shown| == |m| >= 0x500
  {
  }

  /** A flags word outside the ring: its two stores leave the keys alone, and nothing in
      between touches it. */
  lemma FlagsElsewhere(m: seq<u8>, first: seq<u8>, shown: seq<u8>, last: seq<u8>, a: nat, ax: u16, ax': u16)
    requires Sound(m) && a + 1 < |m| && (a + 1 < BUFFER_HEAD || BUFFER_END + 1 < a)
    requires first == FlagsSet(m, a, FLAG_IF, true) && |shown| == |first| && RingOnly(first, shown)
    requires ShownBy(first, shown, ax, ax') && last == FlagsSet(shown, a, FLAG_ZF, Keys(shown) == [])
    ensures ShownBy(m, last, ax, ax')
    ensures |last| == |m| && Word(last, a) == WithBit(WithBit(Word(m, a), FLAG_IF, true), FLAG_ZF, Keys(last) == [])
  {
    hide Sound, Keys, WithBit;
    ElsewhereKept(m, first, a);
    ElsewhereKept(shown, last, a);
  }

  /** One bit of the flags word at a. */
  function FlagsSet(m: seq<u8>, a: nat, bit: nat, on: bool): (r: seq<u8>)
    requires a + 1 < |m| && (bit == FLAG_ZF || bit == FLAG_IF)
    ensures |r| == |m| && Word(r, a) == WithBit(Word(m, a), bit, on)
  {
    WithWord(m, a, WithBit(Word(m, a), bit, on))
  }

  /** A word outside the ring is none of its business. */
  lemma ElsewhereKept(m: seq<u8>, m': seq<u8>, a: nat)
    requires Sound(m) && |m'| == |m| && (a + 1 < BUFFER_HEAD || BUFFER_END + 1 < a)
    requires forall i | 0 <= i < |m| && i != a && i != a + 1 :: m'[i] == m[i]
    ensures Sound(m') && Keys(m') == Keys(m)
  {
  }
}
