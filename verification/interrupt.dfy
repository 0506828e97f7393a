/** core/cpu.c in real mode: interrupt entry and IRET over a 16-bit stack in guest
    memory. */
module InterruptModel {
  import opened Basics

  const FLAG_DF: bv32 := 0x400
  const FLAG_TF: bv32 := 0x100
  const FLAG_IF: bv32 := 0x200

  /** The condition flags, which may still have to be worked out. */
  const FMASK_TEST: bv32 := 0x8d5

  /** DC_FMASK_ALL & 0xffff: the flags a 16-bit IRET loads. */
  const FMASK_IRET: bv32 := 0x7fd5

  /** `pending` holds the condition flags a lazily read instruction left behind, None
      when they are in the register. csPhys is the cached base of the code segment. */
  datatype Cpu = Cpu(
    esp: nat, ss: nat, cs: bv16, csPhys: nat, eip: bv32, flags: bv32, pending: Option<bv32>,
    direction: int, idt: nat, mem: seq<bv8>)

  function Sp(c: Cpu): nat { c.esp % 0x1_0000 }

  /** The stack segment, with the byte behind an odd word at its end, is in memory. */
  predicate Sound(c: Cpu) {
    && c.esp < 0x1_0000_0000 && c.ss < 0x1_0000
    && c.ss * 16 + 0x1_0001 <= |c.mem| && c.idt + 0x400 <= |c.mem|
  }

  // ----- words in memory

  function LowByte(v: bv16): bv8 { (v & 0xff) as bv8 }

  function HighByte(v: bv16): bv8 { ((v >> 8) & 0xff) as bv8 }

  function Joined(lo: bv8, hi: bv8): bv16 { ((hi as bv16) << 8) | (lo as bv16) }

  lemma SplitJoin(v: bv16)
    ensures Joined(LowByte(v), HighByte(v)) == v
  {
  }

  function ReadWord(m: seq<bv8>, addr: nat): bv16
    requires addr + 1 < |m|
  {
    Joined(m[addr], m[addr + 1])
  }

  function WriteWord(m: seq<bv8>, addr: nat, v: bv16): (r: seq<bv8>)
    requires addr + 1 < |m|
    ensures |r| == |m|
    ensures forall a | 0 <= a < |m| && a != addr && a != addr + 1 :: r[a] == m[a]
    ensures ReadWord(r, addr) == v
  {
    SplitJoin(v);
    m[addr := LowByte(v)][addr + 1 := HighByte(v)]
  }

  // ----- push, pop, flags

  /** esp with its low half moved; the high half stays. */
  function Moved(esp: nat, step: int): nat {
    esp - esp % 0x1_0000 + (esp % 0x1_0000 + step) % 0x1_0000
  }

  function StackAddr(c: Cpu): nat { c.ss * 16 + Sp(c) }

  /** dp_cpu_push16 */
  function Push(c: Cpu, v: bv16): Cpu
    requires Sound(c)
  {
    var c1 := c.(esp := Moved(c.esp, -2));
    c1.(mem := WriteWord(c.mem, StackAddr(c1), v))
  }

  /** dp_cpu_pop16 */
  function Pop(c: Cpu): (Cpu, bv16)
    requires Sound(c)
  {
    (c.(esp := Moved(c.esp, 2)), ReadWord(c.mem, StackAddr(c)))
  }

  /** The flags as an instruction that reads them sees them. */
  function Visible(c: Cpu): bv32 {
    match c.pending
    case None => c.flags
    case Some(v) => (c.flags & !FMASK_TEST) | (v & FMASK_TEST)
  }

  function DirectionOf(flags: bv32): int {
    if flags & FLAG_DF != 0 then -1 else 1
  }

  /** dp_cpu_set_flags; flag_id_toggle is always zero. */
  function SetFlags(c: Cpu, word: bv32, mask: bv32): Cpu {
    var flags := (c.flags & !mask) | (word & mask) | 2;
    c.(flags := flags, direction := DirectionOf(flags))
  }

  function SetCs(c: Cpu, v: bv16): Cpu {
    c.(cs := v, csPhys := (v as nat) * 16)
  }

  function Low16(v: bv32): bv16 { (v & 0xffff) as bv16 }

  /** dp_cpu_interrupt */
  function Enter(c: Cpu, num: nat, oldeip: bv32): Cpu
    requires Sound(c) && num < 256
  {
    var c0 := c.(flags := Visible(c), pending := None);
    var c3 := PushFrame(c0, oldeip);
    var c4 := c3.(flags := (c3.flags & !FLAG_IF) | FLAG_TF);
    var off, seg := ReadWord(c4.mem, c4.idt + num * 4), ReadWord(c4.mem, c4.idt + num * 4 + 2);
    SetCs(c4.(eip := off as bv32), seg)
  }

  /** Flags, CS and IP on the stack. */
  function PushFrame(c: Cpu, oldeip: bv32): (r: Cpu)
    requires Sound(c)
    ensures Sound(r) && r == c.(esp := r.esp, mem := r.mem) && |r.mem| == |c.mem|
  {
    PushSound(c, Low16(c.flags));
    var c1 := Push(c, Low16(c.flags));
    PushSound(c1, c.cs);
    var c2 := Push(c1, c.cs);
    PushSound(c2, Low16(oldeip));
    Push(c2, Low16(oldeip))
  }

  lemma PushSound(c: Cpu, v: bv16)
    requires Sound(c)
    ensures var r := Push(c, v); Sound(r) && r == c.(esp := r.esp, mem := r.mem) && |r.mem| == |c.mem|
  {
  }

  /** dp_cpu_iret with a 16-bit operand */
  function Iret(c: Cpu): Cpu
    requires Sound(c)
  {
    var (c1, ip) := Pop(c);
    var (c2, cs) := Pop(c1.(eip := ip as bv32));
    var (c3, flags) := Pop(SetCs(c2, cs));
    SetFlags(c3, flags as bv32, FMASK_IRET).(pending := None)
  }

  // ----- depths on the stack

  /** The offset of the stack word whose low end is d bytes below `base`. */
  function Offset(base: nat, d: nat): nat {
    (base - d) % 0x1_0000
  }

  /** The two bytes of that word; at the end of the segment the second byte lies behind
      it. */
  predicate InWord(ss: nat, base: nat, d: nat, a: nat) {
    ss * 16 + Offset(base, d) <= a <= ss * 16 + Offset(base, d) + 1
  }

  /** Words at different depths do not share a byte, wherever SP wraps and whether or
      not it is even. */
  lemma WordsDisjoint(ss: nat, base: nat, d: nat, e: nat, a: nat)
    requires d + 2 <= e && e + 2 <= d + 0x1_0000
    ensures !(InWord(ss, base, d, a) && InWord(ss, base, e, a))
  {
    var x, y := base - d, base - e;
    var q, r := x / 0x1_0000, y / 0x1_0000;
    assert Offset(base, d) - Offset(base, e) == (e - d) - 0x1_0000 * (q - r);
  }

  lemma OffsetStep(base: nat, d: nat)
    ensures Offset(base, d + 2) == (Offset(base, d) - 2) % 0x1_0000
  {
    var k, r := (base - d) / 0x1_0000, Offset(base, d);
    assert base - (d + 2) == 0x1_0000 * k + (r - 2);
  }

  lemma DownAndUp(r: nat)
    requires r < 0x1_0000
    ensures ((r - 2) % 0x1_0000 + 2) % 0x1_0000 == r
  {
  }

  lemma MovedLow(esp: nat, step: int)
    ensures Moved(esp, step) % 0x1_0000 == (esp % 0x1_0000 + step) % 0x1_0000
    ensures Moved(esp, step) - Moved(esp, step) % 0x1_0000 == esp - esp % 0x1_0000
  {
    var q, r := esp / 0x1_0000, (esp % 0x1_0000 + step) % 0x1_0000;
    assert Moved(esp, step) == 0x1_0000 * q + r;
  }

  /** A push goes two bytes deeper, and a pop takes it back. */
  lemma MovedOffset(esp: nat, base: nat, d: nat)
    requires esp % 0x1_0000 == Offset(base, d)
    ensures Moved(esp, -2) % 0x1_0000 == Offset(base, d + 2)
    ensures Moved(Moved(esp, -2), 2) == esp
  {
    hide Moved;
    OffsetStep(base, d);
    MovedLow(esp, -2);
    MovedLow(Moved(esp, -2), 2);
    DownAndUp(esp % 0x1_0000);
  }

  /** A push at depth d writes the word at depth d + 2 and no other byte. */
  lemma PushAt(c: Cpu, v: bv16, base: nat, d: nat)
    requires Sound(c) && Sp(c) == Offset(base, d)
    ensures var r := Push(c, v);
      && Sound(r) && |r.mem| == |c.mem| && Sp(r) == Offset(base, d + 2) && Moved(r.esp, 2) == c.esp
      && r == c.(esp := r.esp, mem := r.mem)
      && ReadWord(r.mem, r.ss * 16 + Offset(base, d + 2)) == v
      && forall a: nat | a < |c.mem| && !InWord(c.ss, base, d + 2, a) :: r.mem[a] == c.mem[a]
  {
    MovedOffset(c.esp, base, d);
  }

  /** The three words an interrupt entry at depth d saves. */
  ghost predicate Saved(c: Cpu, m: seq<bv8>, base: nat, d: nat, oldeip: bv32)
    requires c.ss * 16 + 0x1_0001 <= |m|
  {
    && ReadWord(m, c.ss * 16 + Offset(base, d + 2)) == Low16(Visible(c))
    && ReadWord(m, c.ss * 16 + Offset(base, d + 4)) == c.cs
    && ReadWord(m, c.ss * 16 + Offset(base, d + 6)) == Low16(oldeip)
  }

  predicate InFrame(ss: nat, base: nat, d: nat, a: nat) {
    InWord(ss, base, d + 2, a) || InWord(ss, base, d + 4, a) || InWord(ss, base, d + 6, a)
  }

  /** Three pushes: the words stay as they were pushed, and nothing else changes. */
  lemma FramePushed(c: Cpu, oldeip: bv32, base: nat, d: nat)
    requires Sound(c) && Sp(c) == Offset(base, d) && c.pending.None?
    ensures var r := PushFrame(c, oldeip);
      && Sp(r) == Offset(base, d + 6) && Saved(c, r.mem, base, d, oldeip)
      && Moved(Moved(Moved(r.esp, 2), 2), 2) == c.esp
      && Moved(r.esp, 2) % 0x1_0000 == Offset(base, d + 4)
      && Moved(Moved(r.esp, 2), 2) % 0x1_0000 == Offset(base, d + 2)
      && forall a: nat | a < |c.mem| && !InFrame(c.ss, base, d, a) :: r.mem[a] == c.mem[a]
  {
    hide Moved, Offset, ReadWord, WriteWord, Push;
    var c1 := Push(c, Low16(c.flags));
    PushAt(c, Low16(c.flags), base, d);
    var c2 := Push(c1, c.cs);
    PushAt(c1, c.cs, base, d + 2);
    PushAt(c2, Low16(oldeip), base, d + 4);
    var r := Push(c2, Low16(oldeip));
    WordKept(c1.mem, c2.mem, c.ss, base, d + 2, d + 4);
    WordKept(c2.mem, r.mem, c.ss, base, d + 4, d + 6);
    WordKept(c2.mem, r.mem, c.ss, base, d + 2, d + 6);
  }

  /** A write to the word at depth e leaves the word at depth d. */
  lemma WordKept(m: seq<bv8>, m': seq<bv8>, ss: nat, base: nat, d: nat, e: nat)
    requires |m| == |m'| && ss * 16 + 0x1_0001 <= |m| && d + 2 <= e && e + 2 <= d + 0x1_0000
    requires forall a: nat | a < |m| && !InWord(ss, base, e, a) :: m'[a] == m[a]
    ensures ReadWord(m', ss * 16 + Offset(base, d)) == ReadWord(m, ss * 16 + Offset(base, d))
  {
    var a := ss * 16 + Offset(base, d);
    WordsDisjoint(ss, base, d, e, a);
    WordsDisjoint(ss, base, d, e, a + 1);
  }

  /** What an interrupt returned from leaves of the processor: CS:IP, SP, every flag
      a program can see, and the string direction. */
  ghost predicate Restored(c: Cpu, oldeip: bv32, r: Cpu) {
    && r.esp == c.esp && r.ss == c.ss && r.cs == c.cs && r.csPhys == (c.cs as nat) * 16
    && r.eip == oldeip
    && Visible(r) & FMASK_IRET == Visible(c) & FMASK_IRET
    && r.direction == DirectionOf(Visible(c))
  }

  /** IRET takes back what interrupt entry saved, if the handler returns the stack
      pointer and has left the frame alone. */
  lemma IretRestores(c: Cpu, num: nat, oldeip: bv32, base: nat, d: nat, x: Cpu)
    requires Sound(c) && Sp(c) == Offset(base, d) && num < 256 && oldeip & 0xffff == oldeip
    requires Sound(x) && x.ss == c.ss && |x.mem| == |c.mem| && x.esp == Enter(c, num, oldeip).esp
    requires Saved(c, x.mem, base, d, oldeip)
    ensures Restored(c, oldeip, Iret(x)) && Sound(Iret(x)) && |Iret(x).mem| == |c.mem|
    ensures Iret(x).mem == x.mem
  {
    hide Moved, Offset, ReadWord, WriteWord;
    var c0 := c.(flags := Visible(c), pending := None);
    FramePushed(c0, oldeip, base, d);
    var p := PushFrame(c0, oldeip);
    assert x.esp == p.esp;
    FlagsBack(Visible(c), x.flags);
    IpBack(oldeip);
  }

  lemma IpBack(ip: bv32)
    requires ip & 0xffff == ip
    ensures Low16(ip) as bv32 == ip
  {
  }

  lemma FlagsBack(seen: bv32, now: bv32)
    ensures var word := Low16(seen) as bv32;
      var f := (now & !FMASK_IRET) | (word & FMASK_IRET) | 2;
      && f & FMASK_IRET == seen & FMASK_IRET
      && f & FLAG_DF == seen & FLAG_DF
  {
  }

  // ----- nesting

  /** What happens between two points of a program: work that leaves the processor in
      state `next` with the stack `depth` bytes deep, or an interrupt with everything
      its handler does before its IRET. */
  datatype Item = Work(next: Cpu, depth: nat) | Nest(num: nat, oldeip: bv32, body: seq<Item>)

  /** Byte a belongs to a frame that an IRET will still read. */
  ghost predicate Guarded(ss: nat, base: nat, frames: seq<nat>, a: nat) {
    exists i :: 0 <= i < |frames| && InFrame(ss, base, frames[i], a)
  }

  ghost predicate GuardKept(m: seq<bv8>, m': seq<bv8>, ss: nat, base: nat, frames: seq<nat>) {
    && |m'| == |m|
    && forall a: nat | a < |m| && Guarded(ss, base, frames, a) :: m'[a] == m[a]
  }

  ghost predicate Below(frames: seq<nat>, floor: nat) {
    forall i | 0 <= i < |frames| :: frames[i] + 6 <= floor
  }

  /** The depth behind a list of items. */
  function EndDepth(items: seq<Item>, d: nat): nat
    decreases |items|
  {
    if items == [] then d
    else EndDepth(items[1..], if items[0].Work? then items[0].depth else d)
  }

  /** Work keeps the stack segment, never pops the frame of its own handler, fits the
      64 KB of the stack and leaves saved frames untouched. */
  ghost predicate WorkFits(c: Cpu, next: Cpu, base: nat, floor: nat, depth: nat, frames: seq<nat>) {
    && Sound(next) && next.ss == c.ss && Sp(next) == Offset(base, depth)
    && floor <= depth <= 0x1_0000
    && GuardKept(c.mem, next.mem, c.ss, base, frames)
  }

  /** The items can happen from state c, and every handler returns the stack pointer it
      was given. */
  ghost predicate Fits(c: Cpu, items: seq<Item>, base: nat, floor: nat, d: nat, frames: seq<nat>)
    decreases items
  {
    && Sound(c) && Sp(c) == Offset(base, d) && floor <= d <= 0x1_0000
    && (items != [] ==>
          match items[0]
          case Work(next, depth) =>
            WorkFits(c, next, base, floor, depth, frames) && Fits(next, items[1..], base, floor, depth, frames)
          case Nest(num, oldeip, body) =>
            && d + 6 <= 0x1_0000 && num < 256 && oldeip & 0xffff == oldeip
            && var e := Enter(c, num, oldeip);
            && Fits(e, body, base, d + 6, d + 6, [d] + frames)
            && var b := Exec(e, body);
            && b.esp == e.esp && Sound(b) && Fits(Iret(b), items[1..], base, floor, d, frames))
  }

  /** The state behind the items; a state the memory cannot hold stays as it is. */
  ghost function Exec(c: Cpu, items: seq<Item>): Cpu
    decreases items
  {
    if items == [] then c
    else
      match items[0]
      case Work(next, _) => Exec(next, items[1..])
      case Nest(num, oldeip, body) =>
        if Sound(c) && num < 256 then
          var b := Exec(Enter(c, num, oldeip), body);
          if Sound(b) then Exec(Iret(b), items[1..]) else b
        else c
  }

  /** Entry at depth d writes no byte of a frame further up. */
  lemma EnterKeepsGuard(c: Cpu, num: nat, oldeip: bv32, base: nat, d: nat, frames: seq<nat>)
    requires Sound(c) && Sp(c) == Offset(base, d) && num < 256 && d + 6 <= 0x1_0000 && Below(frames, d)
    ensures var e := Enter(c, num, oldeip);
      && Sound(e) && e.ss == c.ss && Sp(e) == Offset(base, d + 6)
      && GuardKept(c.mem, e.mem, c.ss, base, frames) && Saved(c, e.mem, base, d, oldeip)
  {
    hide Moved, Offset, ReadWord, WriteWord;
    var c0 := c.(flags := Visible(c), pending := None);
    FramePushed(c0, oldeip, base, d);
    var m := PushFrame(c0, oldeip).mem;
    forall a: nat | a < |m| && Guarded(c.ss, base, frames, a) ensures m[a] == c.mem[a] {
      var i :| 0 <= i < |frames| && InFrame(c.ss, base, frames[i], a);
      FramesDisjoint(c.ss, base, frames[i], d, a);
    }
  }

  lemma FramesDisjoint(ss: nat, base: nat, f: nat, d: nat, a: nat)
    requires f + 6 <= d && d + 6 <= 0x1_0000
    ensures !(InFrame(ss, base, f, a) && InFrame(ss, base, d, a))
  {
    hide InWord;
    FrameMissesWord(ss, base, f, d + 2, a);
    FrameMissesWord(ss, base, f, d + 4, a);
    FrameMissesWord(ss, base, f, d + 6, a);
  }

  lemma FrameMissesWord(ss: nat, base: nat, f: nat, e: nat, a: nat)
    requires f + 8 <= e <= 0x1_0000
    ensures !(InFrame(ss, base, f, a) && InWord(ss, base, e, a))
  {
    WordsDisjoint(ss, base, f + 2, e, a);
    WordsDisjoint(ss, base, f + 4, e, a);
    WordsDisjoint(ss, base, f + 6, e, a);
  }

  /** The handler left the frame alone, so the words it saved are still there. */
  lemma SavedKept(c: Cpu, m: seq<bv8>, m': seq<bv8>, base: nat, d: nat, oldeip: bv32, frames: seq<nat>)
    requires c.ss * 16 + 0x1_0001 <= |m| && Saved(c, m, base, d, oldeip)
    requires GuardKept(m, m', c.ss, base, [d] + frames)
    ensures Saved(c, m', base, d, oldeip)
  {
    hide Offset;
    forall a: nat | a < |m| && InFrame(c.ss, base, d, a) ensures m'[a] == m[a] {
      assert ([d] + frames)[0] == d;
      assert Guarded(c.ss, base, [d] + frames, a);
    }
    FrameWordKept(m, m', c.ss, base, d, d + 2);
    FrameWordKept(m, m', c.ss, base, d, d + 4);
    FrameWordKept(m, m', c.ss, base, d, d + 6);
  }

  lemma FrameWordKept(m: seq<bv8>, m': seq<bv8>, ss: nat, base: nat, d: nat, e: nat)
    requires |m'| == |m| && ss * 16 + 0x1_0001 <= |m| && (e == d + 2 || e == d + 4 || e == d + 6)
    requires forall a: nat | a < |m| && InFrame(ss, base, d, a) :: m'[a] == m[a]
    ensures ReadWord(m', ss * 16 + Offset(base, e)) == ReadWord(m, ss * 16 + Offset(base, e))
  {
    var a := ss * 16 + Offset(base, e);
    assert InFrame(ss, base, d, a) && InFrame(ss, base, d, a + 1);
  }

  lemma GuardWeaker(m: seq<bv8>, m': seq<bv8>, ss: nat, base: nat, d: nat, frames: seq<nat>)
    requires GuardKept(m, m', ss, base, [d] + frames)
    ensures GuardKept(m, m', ss, base, frames)
  {
    forall a: nat | a < |m| && Guarded(ss, base, frames, a) ensures m'[a] == m[a] {
      var i :| 0 <= i < |frames| && InFrame(ss, base, frames[i], a);
      assert ([d] + frames)[i + 1] == frames[i];
      assert Guarded(ss, base, [d] + frames, a);
    }
  }

  lemma GuardThen(m: seq<bv8>, m1: seq<bv8>, m2: seq<bv8>, ss: nat, base: nat, frames: seq<nat>)
    requires GuardKept(m, m1, ss, base, frames) && GuardKept(m1, m2, ss, base, frames)
    ensures GuardKept(m, m2, ss, base, frames)
  {
  }

  lemma NoItems(c: Cpu, base: nat, floor: nat, d: nat, frames: seq<nat>)
    requires Fits(c, [], base, floor, d, frames)
    ensures Exec(c, []) == c && EndDepth([], d) == d && Sound(c) && Sp(c) == Offset(base, d)
    ensures GuardKept(c.mem, c.mem, c.ss, base, frames)
  {
    hide Offset;
  }

  lemma WorkFirst(c: Cpu, items: seq<Item>, base: nat, floor: nat, d: nat, frames: seq<nat>)
    requires Fits(c, items, base, floor, d, frames) && items != [] && items[0].Work?
    ensures var (next, depth) := (items[0].next, items[0].depth);
      && Fits(next, items[1..], base, floor, depth, frames) && Exec(c, items) == Exec(next, items[1..])
      && EndDepth(items, d) == EndDepth(items[1..], depth) && next.ss == c.ss
      && GuardKept(c.mem, next.mem, c.ss, base, frames)
  {
    hide Offset, GuardKept, Sound;
  }

  lemma NestFirst(c: Cpu, items: seq<Item>, base: nat, floor: nat, d: nat, frames: seq<nat>)
    requires Fits(c, items, base, floor, d, frames) && items != [] && items[0].Nest?
    ensures var (num, oldeip, body) := (items[0].num, items[0].oldeip, items[0].body);
      && Sound(c) && Sp(c) == Offset(base, d) && floor <= d && d + 6 <= 0x1_0000 && num < 256 && oldeip & 0xffff == oldeip
      && var e := Enter(c, num, oldeip);
      && Fits(e, body, base, d + 6, d + 6, [d] + frames)
      && var b := Exec(e, body);
      && b.esp == e.esp && Sound(b) && Fits(Iret(b), items[1..], base, floor, d, frames)
      && Exec(c, items) == Exec(Iret(b), items[1..]) && EndDepth(items, d) == EndDepth(items[1..], d)
  {
    hide Offset, Enter, Iret, Sound;
  }

  /** An interrupt whose handler may itself be interrupted, to any depth that fits the
      stack, restores what it interrupted and keeps every frame further up. */
  lemma {:induction false} NestRestores(c: Cpu, items: seq<Item>, base: nat, floor: nat, d: nat, frames: seq<nat>)
    requires Fits(c, items, base, floor, d, frames) && Below(frames, floor)
    ensures var r := Exec(c, items);
      && Sound(r) && r.ss == c.ss && Sp(r) == Offset(base, EndDepth(items, d))
      && GuardKept(c.mem, r.mem, c.ss, base, frames)
    ensures items != [] && items[0].Nest? ==>
      var e := Enter(c, items[0].num, items[0].oldeip);
      Sound(Exec(e, items[0].body)) && Restored(c, items[0].oldeip, Iret(Exec(e, items[0].body)))
    decreases items, 0
  {
    hide Fits, Exec, EndDepth, Enter, Iret, Offset, GuardKept, Sound;
    if items == [] {
      NoItems(c, base, floor, d, frames);
    } else if items[0].Work? {
      var next, depth := items[0].next, items[0].depth;
      WorkFirst(c, items, base, floor, d, frames);
      NestRestores(next, items[1..], base, floor, depth, frames);
      GuardThen(c.mem, next.mem, Exec(next, items[1..]).mem, c.ss, base, frames);
    } else {
      var num, oldeip, body := items[0].num, items[0].oldeip, items[0].body;
      NestFirst(c, items, base, floor, d, frames);
      OneNest(c, num, oldeip, body, base, d, frames);
      var r := Iret(Exec(Enter(c, num, oldeip), body));
      NestRestores(r, items[1..], base, floor, d, frames);
      GuardThen(c.mem, r.mem, Exec(r, items[1..]).mem, c.ss, base, frames);
    }
  }

  lemma {:induction false} OneNest(c: Cpu, num: nat, oldeip: bv32, body: seq<Item>, base: nat, d: nat, frames: seq<nat>)
    requires Sound(c) && Sp(c) == Offset(base, d) && num < 256 && d + 6 <= 0x1_0000
    requires oldeip & 0xffff == oldeip && Below(frames, d)
    requires Fits(Enter(c, num, oldeip), body, base, d + 6, d + 6, [d] + frames)
    requires Exec(Enter(c, num, oldeip), body).esp == Enter(c, num, oldeip).esp
    ensures var b := Exec(Enter(c, num, oldeip), body);
      && Sound(b) && Restored(c, oldeip, Iret(b)) && Sound(Iret(b)) && Sp(Iret(b)) == Offset(base, d)
      && GuardKept(c.mem, Iret(b).mem, c.ss, base, frames)
    decreases body, 1
  {
    hide Enter, Iret, Offset, Fits, Exec;
    var e := Enter(c, num, oldeip);
    EnterKeepsGuard(c, num, oldeip, base, d, frames);
    NestRestores(e, body, base, d + 6, d + 6, [d] + frames);
    var b := Exec(e, body);
    SavedKept(c, e.mem, b.mem, base, d, oldeip, frames);
    GuardWeaker(e.mem, b.mem, c.ss, base, d, frames);
    IretRestores(c, num, oldeip, base, d, b);
  }

  // ----- the processor

  class Processor {
    const memory: array<bv8>
    var esp: nat
    var ss: nat
    var cs: bv16
    var csPhys: nat
    var eip: bv32
    var flags: bv32
    var pending: Option<bv32>
    var direction: int
    var idt: nat

    ghost function View(): Cpu
      reads this, memory
    {
      Cpu(esp, ss, cs, csPhys, eip, flags, pending, direction, idt, memory[..])
    }

    /** dp_cpu_push16 */
    method Push16(value: bv16)
      requires Sound(View())
      modifies this`esp, memory
      ensures View() == Push(old(View()), value)
    {
      hide Moved;
      esp := Moved(esp, -2);
      var addr := ss * 16 + esp % 0x1_0000;
      memory[addr] := LowByte(value);
      memory[addr + 1] := HighByte(value);
    }

    /** dp_cpu_pop16 */
    method Pop16() returns (value: bv16)
      requires Sound(View())
      modifies this`esp
      ensures (View(), value) == Pop(old(View()))
    {
      hide Moved;
      var addr := ss * 16 + esp % 0x1_0000;
      value := Joined(memory[addr], memory[addr + 1]);
      esp := Moved(esp, 2);
    }

    /** dp_cpu_set_flags */
    method SetFlagBits(word: bv32, mask: bv32)
      modifies this`flags, this`direction
      ensures View() == SetFlags(old(View()), word, mask)
    {
      flags := (flags & !mask) | (word & mask) | 2;
      direction := 1 - ((flags & FLAG_DF) >> 9) as int;
      DirectionIs(flags);
    }

    /** dp_seg_set16 on cs */
    method SetCodeSegment(value: bv16)
      modifies this`cs, this`csPhys
      ensures View() == SetCs(old(View()), value)
    {
      cs := value;
      csPhys := (value as nat) * 16;
    }

    /** dp_decode_fill_flags, as far as the register is concerned. */
    method FillFlags()
      modifies this`flags, this`pending
      ensures View() == old(View()).(flags := Visible(old(View())), pending := None)
    {
      match pending
      case None =>
      case Some(v) =>
        flags := (flags & !FMASK_TEST) | (v & FMASK_TEST);
        pending := None;
    }

    /** The pushes of dp_cpu_interrupt. */
    method PushSaved(oldeip: bv32)
      requires Sound(View())
      modifies this`esp, memory
      ensures View() == PushFrame(old(View()), oldeip)
    {
      hide Moved, WriteWord, Push, Sound;
      PushSound(View(), Low16(flags));
      Push16(Low16(flags));
      PushSound(View(), cs);
      Push16(cs);
      PushSound(View(), Low16(oldeip));
      Push16(Low16(oldeip));
    }

    /** dp_cpu_interrupt */
    method Interrupt(num: nat, oldeip: bv32)
      requires Sound(View()) && num < 256
      modifies this, memory
      ensures View() == Enter(old(View()), num, oldeip)
    {
      hide PushFrame, Visible, Joined, Sound, SetCs;
      ghost var c := View();
      FillFlags();
      ghost var c0 := View();
      FilledSound(c);
      PushSaved(oldeip);
      ghost var c3 := View();
      flags := flags & !FLAG_IF;
      flags := flags | FLAG_TF;
      VectorInside(c3, num);
      var vector := idt + num * 4;
      var off, seg := Joined(memory[vector], memory[vector + 1]), Joined(memory[vector + 2], memory[vector + 3]);
      eip := off as bv32;
      SetCodeSegment(seg);
      EnterSteps(c, c0, c3, num, oldeip, off, seg);
    }

    /** dp_cpu_iret with a 16-bit operand */
    method Return()
      requires Sound(View())
      modifies this
      ensures View() == Iret(old(View()))
    {
      hide Pop, Moved, SetFlags, Sound, Iret, SetCs;
      ghost var c0 := View();
      PopSound(c0);
      var ip := Pop16();
      eip := ip as bv32;
      ghost var c1 := View();
      PopSound(c1);
      var newCs := Pop16();
      SetCodeSegment(newCs);
      ghost var c2 := View();
      PopCsSound(c1);
      var word := Pop16();
      ghost var c3 := View();
      SetFlagBits(word as bv32, FMASK_IRET);
      pending := None;
      IretSteps(c0, c1, c2, c3, ip, newCs, word);
    }
  }

  lemma FilledSound(c: Cpu)
    requires Sound(c)
    ensures Sound(c.(flags := Visible(c), pending := None))
  {
  }

  lemma VectorInside(c: Cpu, num: nat)
    requires Sound(c) && num < 256
    ensures c.idt + num * 4 + 3 < |c.mem|
  {
  }

  lemma EnterSteps(c: Cpu, c0: Cpu, c3: Cpu, num: nat, oldeip: bv32, off: bv16, seg: bv16)
    requires Sound(c) && num < 256 && c0 == c.(flags := Visible(c), pending := None) && Sound(c0)
    requires c3 == PushFrame(c0, oldeip) && c3.idt + num * 4 + 3 < |c3.mem|
    requires off == ReadWord(c3.mem, c3.idt + num * 4) && seg == ReadWord(c3.mem, c3.idt + num * 4 + 2)
    ensures Enter(c, num, oldeip) == SetCs(c3.(flags := (c3.flags & !FLAG_IF) | FLAG_TF, eip := off as bv32), seg)
  {
    hide PushFrame, Visible, ReadWord;
  }

  lemma IretSteps(c0: Cpu, c1: Cpu, c2: Cpu, c3: Cpu, ip: bv16, cs: bv16, word: bv16)
    requires Sound(c0) && Pop(c0).1 == ip && c1 == Pop(c0).0.(eip := ip as bv32)
    requires Sound(c1) && Pop(c1).1 == cs && c2 == SetCs(Pop(c1).0, cs)
    requires Sound(c2) && Pop(c2) == (c3, word)
    ensures Iret(c0) == SetFlags(c3, word as bv32, FMASK_IRET).(pending := None)
  {
  }

  lemma PopCsSound(c: Cpu)
    requires Sound(c)
    ensures Sound(SetCs(Pop(c).0, Pop(c).1))
  {
  }

  /** A pop moves the stack pointer only, so the next one is possible. */
  lemma PopSound(c: Cpu)
    requires Sound(c)
    ensures Sound(Pop(c).0.(eip := Pop(c).1 as bv32))
  {
  }

  lemma DirectionIs(flags: bv32)
    ensures 1 - ((flags & FLAG_DF) >> 9) as int == DirectionOf(flags)
  {
    assert (flags & FLAG_DF) >> 9 == 0 || (flags & FLAG_DF) >> 9 == 2;
    assert (flags & FLAG_DF) >> 9 == 0 <==> flags & FLAG_DF == 0;
  }
}
