/** core/cpu_decode.c: condition flags that are worked out only when they are read.
    An instruction leaves its operands, its result and its kind behind; the getters
    compute a flag from those, and FillFlags writes all of them into the register. */
module LazyFlags {
  import opened Basics

  datatype Width = Byte | Word | Dword

  datatype Kind =
    | UNKNOWN
    | ADD | OR | ADC | SBB | AND | SUB | XOR | CMP | TEST
    | INC | DEC | NEG
    | SHL | SHR | SAR

  /** The flags register: the six condition flags and all other bits. */
  datatype Flags = Flags(cf: bool, pf: bool, af: bool, zf: bool, sf: bool, ov: bool, other: nat)

  /** struct lflags and the flags register; the operands are unions of a byte, a word
      and a dword that share their low bits. */
  datatype Lazy = Lazy(kind: Kind, w: Width, var1: nat, var2: nat, res: nat, oldcf: bool, flags: Flags)

  function Bits(w: Width): nat { match w case Byte => 8 case Word => 16 case Dword => 32 }

  function Half(w: Width): nat { match w case Byte => 0x80 case Word => 0x8000 case Dword => 0x8000_0000 }

  function Full(w: Width): nat { 2 * Half(w) }

  function Low(w: Width, x: int): (r: nat)
    ensures r < Full(w)
  {
    x % Full(w)
  }

  /** Storing v in the w-wide part of a union. */
  function Put(w: Width, x: nat, v: int): (r: nat)
    ensures Low(w, r) == Low(w, v)
  {
    PutLow(w, x, Low(w, v));
    x - Low(w, x) + Low(w, v)
  }

  lemma PutTwice(w: Width, x: nat, a: int, b: int)
    ensures Put(w, Put(w, x, a), b) == Put(w, x, b)
  {
    PutLow(w, x, Low(w, a));
    assert Low(w, Put(w, x, a)) == Low(w, a);
  }

  lemma PutLow(w: Width, x: nat, v: nat)
    requires v < Full(w)
    ensures Low(w, x) <= x
    ensures (x - Low(w, x) + v) % Full(w) == v
  {
    var q := x / Full(w);
    assert x - Low(w, x) + v == Full(w) * q + v;
  }

  function Pow2(n: nat): (r: nat)
    ensures r > 0
  {
    if n == 0 then 1 else 2 * Pow2(n - 1)
  }

  function Signed(h: nat, v: int): int {
    if v >= h then v - 2 * h else v
  }

  function Ones(b: nat): nat {
    if b == 0 then 0 else b % 2 + Ones(b / 2)
  }

  /** parity_lookup: set for bytes with an even number of ones. */
  predicate EvenParity(b: nat) {
    Ones(b) % 2 == 0
  }

  // ----- the flags as formulas on the operands (h is the sign bit's weight)

  predicate Bit4(x: nat) { x / 16 % 2 == 1 }

  /** `(a ^ b ^ r) & 0x10` */
  predicate HalfCarry(a: nat, b: nat, r: nat) { (Bit4(a) != Bit4(b)) != Bit4(r) }

  /** `(a ^ b ^ h) & (r ^ c) & h` */
  predicate SumOverflows(h: nat, a: nat, b: nat, r: nat, c: nat) {
    (a >= h) == (b >= h) && (r >= h) != (c >= h)
  }

  /** `(a ^ b) & (a ^ r) & h` */
  predicate DifferenceOverflows(h: nat, a: nat, b: nat, r: nat) {
    (a >= h) != (b >= h) && (a >= h) != (r >= h)
  }

  predicate AddCarries(a: nat, r: nat) { r < a }

  predicate AdcCarries(a: nat, r: nat, c: bool) { r < a || (c && r == a) }

  predicate SbbBorrows(h: nat, a: nat, b: nat, r: nat, c: bool) { a < r || (c && b == 2 * h - 1) }

  // ----- reading a flag

  function V1(l: Lazy): nat { Low(l.w, l.var1) }
  function V2(l: Lazy): nat { Low(l.w, l.var2) }
  function Res(l: Lazy): nat { Low(l.w, l.res) }

  /** Shift counts live in the low byte of var2. */
  function Count(l: Lazy): nat { Low(Byte, l.var2) }

  /** What the last flag-writing instruction left behind. */
  predicate Ok(l: Lazy) {
    && (l.kind == SHL || l.kind == SHR || l.kind == SAR ==> 1 <= Count(l) <= 31)
    && (l.kind == NEG ==> Res(l) == Low(l.w, 0 - V1(l)))
  }

  predicate ShlCarries(w: Width, a: nat, count: nat)
    requires count <= 32
  {
    if w != Dword && count > Bits(w) then false else a / Pow2(Bits(w) - count) % 2 == 1
  }

  predicate GetCF(l: Lazy)
    requires Ok(l)
  {
    match l.kind
    case UNKNOWN => l.flags.cf
    case INC => l.flags.cf
    case DEC => l.flags.cf
    case ADD => AddCarries(V1(l), Res(l))
    case ADC => AdcCarries(V1(l), Res(l), l.oldcf)
    case SBB => SbbBorrows(Half(l.w), V1(l), V2(l), Res(l), l.oldcf)
    case SUB => V1(l) < V2(l)
    case CMP => V1(l) < V2(l)
    case SHL => ShlCarries(l.w, V1(l), Count(l))
    case SHR => V1(l) / Pow2(Count(l) - 1) % 2 == 1
    case SAR => Signed(Half(l.w), V1(l)) / Pow2(Count(l) - 1) % 2 == 1
    case NEG => V1(l) != 0
    case _ => false
  }

  predicate GetAF(l: Lazy) {
    match l.kind
    case UNKNOWN => l.flags.af
    case ADD => HalfCarry(V1(l), V2(l), Res(l))
    case ADC => HalfCarry(V1(l), V2(l), Res(l))
    case SBB => HalfCarry(V1(l), V2(l), Res(l))
    case SUB => HalfCarry(V1(l), V2(l), Res(l))
    case CMP => HalfCarry(V1(l), V2(l), Res(l))
    case INC => Res(l) % 16 == 0
    case DEC => Res(l) % 16 == 15
    case NEG => V1(l) % 16 != 0
    case SHL => V2(l) % 32 != 0
    case SHR => V2(l) % 32 != 0
    case SAR => V2(l) % 32 != 0
    case _ => false
  }

  predicate GetZF(l: Lazy) {
    if l.kind == UNKNOWN then l.flags.zf else Res(l) == 0
  }

  predicate GetSF(l: Lazy) {
    if l.kind == UNKNOWN then l.flags.sf else Res(l) >= Half(l.w)
  }

  predicate GetOF(l: Lazy) {
    match l.kind
    case UNKNOWN => l.flags.ov
    case ADD => SumOverflows(Half(l.w), V1(l), V2(l), Res(l), V2(l))
    case ADC => SumOverflows(Half(l.w), V1(l), V2(l), Res(l), V2(l))
    case SBB => DifferenceOverflows(Half(l.w), V1(l), V2(l), Res(l))
    case SUB => DifferenceOverflows(Half(l.w), V1(l), V2(l), Res(l))
    case CMP => DifferenceOverflows(Half(l.w), V1(l), V2(l), Res(l))
    case INC => Res(l) == Half(l.w)
    case DEC => Res(l) == Half(l.w) - 1
    case NEG => V1(l) == Half(l.w)
    case SHL => (Res(l) >= Half(l.w)) != (V1(l) >= Half(l.w))
    case SHR => Count(l) % 32 == 1 && V1(l) > Half(l.w)
    case _ => false
  }

  predicate GetPF(l: Lazy) {
    if l.kind == UNKNOWN then l.flags.pf else EvenParity(Low(Byte, l.res))
  }

  // ----- filling the register

  /** DOFLAG_AF looks at the low bytes whatever the width. */
  predicate FilledAF(l: Lazy) {
    match l.kind
    case ADD => HalfCarry(Low(Byte, l.var1), Low(Byte, l.var2), Low(Byte, l.res))
    case ADC => HalfCarry(Low(Byte, l.var1), Low(Byte, l.var2), Low(Byte, l.res))
    case SBB => HalfCarry(Low(Byte, l.var1), Low(Byte, l.var2), Low(Byte, l.res))
    case SUB => HalfCarry(Low(Byte, l.var1), Low(Byte, l.var2), Low(Byte, l.res))
    case CMP => HalfCarry(Low(Byte, l.var1), Low(Byte, l.var2), Low(Byte, l.res))
    case INC => Res(l) % 16 == 0
    case DEC => Res(l) % 16 == 15
    case NEG => Res(l) % 16 != 0
    case SHL => V2(l) % 32 != 0
    case SHR => V2(l) % 32 != 0
    case SAR => V2(l) % 32 != 0
    case _ => false
  }

  predicate FilledOF(l: Lazy) {
    match l.kind
    case ADD => SumOverflows(Half(l.w), V1(l), V2(l), Res(l), V1(l))
    case ADC => SumOverflows(Half(l.w), V1(l), V2(l), Res(l), V1(l))
    case SBB => DifferenceOverflows(Half(l.w), V1(l), V2(l), Res(l))
    case SUB => DifferenceOverflows(Half(l.w), V1(l), V2(l), Res(l))
    case CMP => DifferenceOverflows(Half(l.w), V1(l), V2(l), Res(l))
    case INC => Res(l) == Half(l.w)
    case DEC => Res(l) == Half(l.w) - 1
    case NEG => V1(l) == Half(l.w)
    case SHL => (Res(l) >= Half(l.w)) != (V1(l) >= Half(l.w))
    case SHR => V2(l) % 32 == 1 && V1(l) >= Half(l.w)
    case _ => false
  }

  /** FillFlagsNoCFOF */
  function FillNoCFOF(l: Lazy): Lazy {
    if l.kind == UNKNOWN then l
    else
      l.(kind := UNKNOWN,
         flags := l.flags.(af := FilledAF(l), zf := Res(l) == 0, sf := Res(l) >= Half(l.w),
                           pf := EvenParity(Low(Byte, l.res))))
  }

  /** FillFlags; INC and DEC leave CF as it is in the register. */
  function Fill(l: Lazy): (r: Lazy)
    requires Ok(l)
    ensures Ok(r) && r.kind == UNKNOWN
  {
    if l.kind == UNKNOWN then l
    else
      var f := FillNoCFOF(l);
      f.(flags := f.flags.(cf := GetCF(l), ov := FilledOF(l)))
  }

  // ----- the getters agree with the register

  lemma Mod32(x: nat, k: nat, m: nat)
    requires x == 32 * k + m && m < 32
    ensures x % 32 == m
  {
  }

  /** The low bits of x are those of any wider part of it. */
  lemma LowPart(x: nat, q: nat, scale: nat, r: nat)
    requires x == 32 * scale * q + r
    ensures x % 32 == r % 32
  {
    var k, m := r / 32, r % 32;
    assert x == 32 * (scale * q + k) + m;
    Mod32(x, scale * q + k, m);
  }

  lemma LowMod(w: Width, x: nat)
    ensures Low(w, x) % 32 == x % 32
  {
    var q := x / Full(w);
    match w
    case Byte => LowPart(x, q, 8, Low(w, x));
    case Word => LowPart(x, q, 0x800, Low(w, x));
    case Dword => LowPart(x, q, 0x800_0000, Low(w, x));
  }

  lemma Low5(y: nat)
    ensures y % 32 % 16 == y % 16 && (Bit4(y) <==> y % 32 >= 16)
  {
    assert y == 32 * (y / 32) + y % 32;
  }

  lemma LowLow(w: Width, x: nat)
    ensures Low(w, x) % 32 == x % 32 && Low(w, x) % 16 == x % 16
    ensures Bit4(Low(w, x)) == Bit4(x)
  {
    LowMod(w, x);
    Low5(x);
    Low5(Low(w, x));
  }

  /** The six conditions, read lazily. */
  function Conditions(l: Lazy): (bool, bool, bool, bool, bool, bool)
    requires Ok(l)
  {
    (GetCF(l), GetPF(l), GetAF(l), GetZF(l), GetSF(l), GetOF(l))
  }

  /** The six conditions in the register. */
  function InRegister(f: Flags): (bool, bool, bool, bool, bool, bool) {
    (f.cf, f.pf, f.af, f.zf, f.sf, f.ov)
  }

  /** The one case in which get_OF and FillFlags disagree. */
  predicate ShrOfSignBit(l: Lazy) {
    l.kind == SHR && Count(l) % 32 == 1 && V1(l) == Half(l.w)
  }

  /** Reading a flag and filling the register give the same, except for OF behind a
      right shift by one of exactly the sign bit. */
  lemma FillAgrees(l: Lazy)
    requires Ok(l)
    ensures var (c, f) := (Conditions(l), Fill(l).flags);
      && (c.0, c.1, c.2, c.3, c.4) == (f.cf, f.pf, f.af, f.zf, f.sf)
      && (c.5 == f.ov <==> !ShrOfSignBit(l))
  {
    hide GetAF, FilledAF, GetOF, FilledOF, GetCF, Low, Half;
    if l.kind == UNKNOWN {
      CarryUnknown(l);
    } else {
      AdjustAgrees(l);
      OverflowAgrees(l);
    }
  }

  lemma CarryUnknown(l: Lazy)
    requires Ok(l) && l.kind == UNKNOWN
    ensures GetCF(l) == l.flags.cf && GetAF(l) == l.flags.af && GetOF(l) == l.flags.ov
  {
  }

  lemma AdjustAgrees(l: Lazy)
    requires Ok(l) && l.kind != UNKNOWN
    ensures GetAF(l) == FilledAF(l)
  {
    hide Low, Half;
    LowLow(l.w, l.var1);
    LowLow(l.w, l.var2);
    LowLow(l.w, l.res);
    LowLow(Byte, l.var1);
    LowLow(Byte, l.var2);
    LowLow(Byte, l.res);
    if l.kind == NEG {
      NegNibble(l.w, V1(l));
    }
  }

  lemma OverflowAgrees(l: Lazy)
    requires l.kind != UNKNOWN
    ensures GetOF(l) == FilledOF(l) <==> !ShrOfSignBit(l)
  {
    hide Low, Half;
    LowLow(l.w, l.var2);
    LowLow(Byte, l.var2);
  }

  lemma NegNibble(w: Width, v: nat)
    requires v < Full(w)
    ensures Low(w, 0 - v) % 16 == 0 <==> v % 16 == 0
  {
    if v != 0 {
      NegLow(w, v);
      Nibble(Full(w) / 16, v);
    }
  }

  lemma NegLow(w: Width, v: nat)
    requires 0 < v < Full(w)
    ensures Low(w, 0 - v) == Full(w) - v
  {
  }

  lemma Nibble(k: nat, v: nat)
    requires v <= 16 * k
    ensures (16 * k - v) % 16 == 0 <==> v % 16 == 0
  {
    var q, m := v / 16, v % 16;
    assert 16 * k - v == 16 * (k - q) - m;
  }

  // ----- the instructions

  function AsBits(x: nat): bv32 { (x % 0x1_0000_0000) as bv32 }

  function Or(a: nat, b: nat): nat { (AsBits(a) | AsBits(b)) as nat }

  function ShlBy(a: nat, n: nat): nat { a * Pow2(n) }

  function ShrBy(a: nat, n: nat): nat { Quotient(a, Pow2(n)) }

  function Quotient(a: nat, d: nat): nat
    requires d > 0
  {
    a / d
  }

  /** The value an arithmetic or logic macro stores, before it is cut to its width. */
  function Combined(kind: Kind, a: nat, b: nat, c: nat): int {
    match kind
    case ADD => a + b
    case ADC => a + b + c
    case SUB => a - b
    case CMP => a - b
    case SBB => a - (b + c)
    case OR => Or(a, b)
    case XOR => (AsBits(a) ^ AsBits(b)) as nat
    case _ => (AsBits(a) & AsBits(b)) as nat
  }

  predicate UsesCarry(kind: Kind) { kind == ADC || kind == SBB }

  predicate IsBinary(kind: Kind) {
    kind in {ADD, OR, ADC, SBB, AND, SUB, XOR, CMP, TEST}
  }

  /** ADDB ... TESTD: the state, and the value saved to the first operand if any. */
  function Binary(l: Lazy, kind: Kind, w: Width, a: nat, b: nat): (Lazy, Option<nat>)
    requires Ok(l) && IsBinary(kind)
  {
    var oldcf := if UsesCarry(kind) then GetCF(l) else l.oldcf;
    var l1 := l.(kind := kind, w := w, oldcf := oldcf, var1 := Put(w, l.var1, a), var2 := Put(w, l.var2, b));
    var l2 := l1.(res := Put(w, l.res, Combined(kind, V1(l1), V2(l1), if oldcf then 1 else 0)));
    (l2, if kind == CMP || kind == TEST then None else Some(Res(l2)))
  }

  /** INCB ... DECD, which load CF first, and NEG. */
  function Unary(l: Lazy, kind: Kind, w: Width, a: nat): (Lazy, Option<nat>)
    requires Ok(l) && kind in {INC, DEC, NEG}
  {
    var flags := if kind == NEG then l.flags else l.flags.(cf := GetCF(l));
    var l1 := l.(kind := kind, w := w, flags := flags, var1 := Put(w, l.var1, a));
    var v := if kind == INC then V1(l1) + 1 else if kind == DEC then V1(l1) - 1 else 0 - V1(l1);
    var l2 := l1.(res := Put(w, l.res, v));
    (l2, Some(Res(l2)))
  }

  /** SAR of bytes and words caps its count. */
  function ShiftCount(kind: Kind, w: Width, count: nat): nat {
    if kind == SAR && w != Dword && count > Bits(w) then Bits(w) else count
  }

  function Shifted(kind: Kind, w: Width, a: nat, count: nat): nat
    requires kind == SAR ==> count <= Bits(w)
  {
    if kind == SHL then ShlBy(a, count)
    else if kind == SAR && a >= Half(w) then Or(ShrBy(a, count), ShlBy(Full(w) - 1, Bits(w) - count))
    else ShrBy(a, count)
  }

  /** SHLB ... SARD */
  function Shift(l: Lazy, kind: Kind, w: Width, a: nat, count: nat): (Lazy, Option<nat>)
    requires kind in {SHL, SHR, SAR} && count < 32
  {
    if count == 0 then (l, None)
    else
      var n := ShiftCount(kind, w, count);
      var l1 := l.(kind := kind, w := w, var1 := Put(w, l.var1, a), var2 := Put(Byte, l.var2, n));
      var l2 := l1.(res := Put(w, l.res, Shifted(kind, w, V1(l1), n)));
      (l2, Some(Res(l2)))
  }

  predicate BitAt(x: nat, k: nat) { x / Pow2(k) % 2 == 1 }

  function Rotated(left: bool, w: Width, a: nat, m: nat): nat
    requires m <= Bits(w)
  {
    if left then Or(ShlBy(a, m), ShrBy(a, Bits(w) - m)) else Or(ShrBy(a, m), ShlBy(a, Bits(w) - m))
  }

  /** CF and OF of a rotate from the rotated value. */
  function RotateFlags(f: Flags, left: bool, w: Width, r: nat): Flags {
    var top := BitAt(r, Bits(w) - 1);
    if left then f.(cf := BitAt(r, 0), ov := BitAt(r, 0) != top)
    else f.(cf := top, ov := top != BitAt(r, Bits(w) - 2))
  }

  function RotateCount(w: Width, count: nat): nat {
    if w == Dword then count else count % Bits(w)
  }

  /** ROLB ... RORD. A count that is a multiple of the width moves nothing but sets
      CF and OF; a count of zero does nothing. */
  function Rotate(l: Lazy, left: bool, w: Width, a: nat, count: nat): (Lazy, Option<nat>)
    requires count < 32
  {
    var m := RotateCount(w, count);
    if count == 0 then (l, None)
    else if m == 0 then
      var f := FillNoCFOF(l);
      (f.(flags := RotateFlags(f.flags, left, w, Low(w, a))), None)
    else
      var f := FillNoCFOF(l);
      var l1 := f.(var1 := Put(w, l.var1, a), var2 := Put(Byte, l.var2, m));
      var r := Low(w, Rotated(left, w, Low(w, a), m));
      (l1.(res := Put(w, l.res, r), flags := RotateFlags(f.flags, left, w, r)), Some(r))
  }

  function CarryRotated(left: bool, w: Width, a: nat, m: nat, cf: bool): nat
    requires 1 <= m <= Bits(w)
  {
    var c := if cf then 1 else 0;
    if left then Or(Or(ShlBy(a, m), ShlBy(c, m - 1)), ShrBy(a, Bits(w) + 1 - m))
    else Or(Or(ShrBy(a, m), ShlBy(c, Bits(w) - m)), ShlBy(a, Bits(w) + 1 - m))
  }

  /** CF is the last bit that fell out of a; OF compares it or the new top bits. */
  function CarryRotateFlags(f: Flags, left: bool, w: Width, a: nat, m: nat, r: nat): Flags
    requires 1 <= m <= Bits(w)
  {
    var cf := BitAt(a, if left then Bits(w) - m else m - 1);
    var top := BitAt(r, Bits(w) - 1);
    f.(cf := cf, ov := if left then cf != top else top != BitAt(r, Bits(w) - 2))
  }

  function CarryRotateCount(w: Width, count: nat): nat {
    if w == Dword then count else count % (Bits(w) + 1)
  }

  /** RCLB ... RCRD */
  function RotateCarry(l: Lazy, left: bool, w: Width, a: nat, count: nat): (Lazy, Option<nat>)
    requires Ok(l) && count < 32
  {
    var m := CarryRotateCount(w, count);
    if m == 0 then (l, None)
    else
      var f := Fill(l);
      var l1 := f.(var1 := Put(w, l.var1, a), var2 := Put(Byte, l.var2, m));
      var r := Low(w, CarryRotated(left, w, Low(w, a), m, f.flags.cf));
      (l1.(res := Put(w, l.res, r), flags := CarryRotateFlags(f.flags, left, w, Low(w, a), m, r)), Some(r))
  }

  /** CLC and STC */
  function SetCarry(l: Lazy, on: bool): Lazy
    requires Ok(l)
  {
    var f := Fill(l);
    f.(flags := f.flags.(cf := on))
  }

  // ----- runs of instructions over the registers

  /** A register, or for bytes its second byte. */
  datatype Loc = Loc(reg: nat, high: bool)

  datatype Source = FromReg(loc: Loc) | Immediate(value: nat)

  datatype Instr =
    | BinaryI(kind: Kind, w: Width, dst: Loc, src: Source)
    | UnaryI(kind: Kind, w: Width, dst: Loc)
    | ShiftI(kind: Kind, w: Width, dst: Loc, count: Source)
    | RotateI(left: bool, w: Width, dst: Loc, count: Source)
    | RotateCarryI(left: bool, w: Width, dst: Loc, count: Source)
    | CarryI(on: bool)

  datatype Cpu = Cpu(l: Lazy, regs: seq<nat>)

  predicate LocOk(loc: Loc) { loc.reg < 8 }

  predicate SourceOk(s: Source) { s.FromReg? ==> LocOk(s.loc) }

  predicate InstrOk(i: Instr) {
    match i
    case BinaryI(kind, _, dst, src) => IsBinary(kind) && LocOk(dst) && SourceOk(src)
    case UnaryI(kind, _, dst) => kind in {INC, DEC, NEG} && LocOk(dst)
    case ShiftI(kind, _, dst, count) => kind in {SHL, SHR, SAR} && LocOk(dst) && SourceOk(count)
    case RotateI(_, _, dst, count) => LocOk(dst) && SourceOk(count)
    case RotateCarryI(_, _, dst, count) => LocOk(dst) && SourceOk(count)
    case CarryI(_) => true
  }

  function Read(regs: seq<nat>, w: Width, loc: Loc): nat
    requires |regs| == 8 && LocOk(loc)
  {
    if w == Byte && loc.high then regs[loc.reg] / 256 % 256 else Low(w, regs[loc.reg])
  }

  function Write(regs: seq<nat>, w: Width, loc: Loc, v: nat): seq<nat>
    requires |regs| == 8 && LocOk(loc)
  {
    var x := regs[loc.reg];
    if w == Byte && loc.high then regs[loc.reg := x % 256 + 256 * Put(Byte, x / 256, v)]
    else regs[loc.reg := Put(w, x, v)]
  }

  function Value(regs: seq<nat>, w: Width, s: Source): nat
    requires |regs| == 8 && SourceOk(s)
  {
    match s
    case FromReg(loc) => Read(regs, w, loc)
    case Immediate(v) => Low(w, v)
  }

  /** What an instruction does to the flags' state, and the value it saves. */
  function Effect(l: Lazy, regs: seq<nat>, i: Instr): (Lazy, Option<nat>)
    requires Ok(l) && |regs| == 8 && InstrOk(i)
  {
    match i
    case BinaryI(kind, w, dst, src) => Binary(l, kind, w, Read(regs, w, dst), Value(regs, w, src))
    case UnaryI(kind, w, dst) => Unary(l, kind, w, Read(regs, w, dst))
    case ShiftI(kind, w, dst, count) => Shift(l, kind, w, Read(regs, w, dst), Value(regs, Byte, count) % 32)
    case RotateI(left, w, dst, count) => Rotate(l, left, w, Read(regs, w, dst), Value(regs, Byte, count) % 32)
    case RotateCarryI(left, w, dst, count) =>
      RotateCarry(l, left, w, Read(regs, w, dst), Value(regs, Byte, count) % 32)
    case CarryI(on) => (SetCarry(l, on), None)
  }

  function Exec(c: Cpu, i: Instr): Cpu
    requires Ok(c.l) && |c.regs| == 8 && InstrOk(i)
  {
    var (l, saved) := Effect(c.l, c.regs, i);
    Cpu(l, if saved.Some? && !i.CarryI? then Write(c.regs, i.w, i.dst, saved.value) else c.regs)
  }

  // ----- filling early changes nothing

  lemma PutCount(x: nat, n: nat)
    requires n < 256
    ensures Low(Byte, Put(Byte, x, n)) == n
  {
  }

  lemma EffectOk(l: Lazy, regs: seq<nat>, i: Instr)
    requires Ok(l) && |regs| == 8 && InstrOk(i)
    ensures Ok(Effect(l, regs, i).0)
  {
    hide Or, Pow2, Put, Low;
    match i
    case ShiftI(kind, w, dst, count) =>
      PutCount(l.var2, ShiftCount(kind, w, Value(regs, Byte, count) % 32));
    case _ =>
  }

  /** Filling the register before an instruction makes no difference to the register
      after it, nor to the value the instruction saves. */
  lemma FillTransparent(l: Lazy, regs: seq<nat>, i: Instr)
    requires Ok(l) && |regs| == 8 && InstrOk(i)
    ensures Ok(Effect(l, regs, i).0) && Ok(Effect(Fill(l), regs, i).0)
    ensures Fill(Effect(l, regs, i).0) == Fill(Effect(Fill(l), regs, i).0)
    ensures Effect(l, regs, i).1 == Effect(Fill(l), regs, i).1
  {
    EffectOk(l, regs, i);
    FilledIsOk(l);
    EffectOk(Fill(l), regs, i);
    match i
    case BinaryI(kind, w, dst, src) => BinaryTransparent(l, kind, w, Read(regs, w, dst), Value(regs, w, src));
    case UnaryI(kind, w, dst) => UnaryTransparent(l, kind, w, Read(regs, w, dst));
    case ShiftI(kind, w, dst, count) => ShiftTransparent(l, kind, w, Read(regs, w, dst), Value(regs, Byte, count) % 32);
    case RotateI(left, w, dst, count) => RotateTransparent(l, left, w, Read(regs, w, dst), Value(regs, Byte, count) % 32);
    case _ =>
  }

  lemma FilledIsOk(l: Lazy)
    requires Ok(l)
    ensures Ok(Fill(l)) && Fill(l).kind == UNKNOWN && Fill(Fill(l)) == Fill(l) && GetCF(Fill(l)) == GetCF(l)
  {
    FillAgrees(l);
  }

  /** Two states that differ in condition flags about to be overwritten. */
  lemma SameFill(a: Lazy, b: Lazy)
    requires Ok(a) && Ok(b) && a.kind != UNKNOWN && b == a.(flags := b.flags)
    requires b.flags.other == a.flags.other
    requires a.kind == INC || a.kind == DEC ==> b.flags.cf == a.flags.cf
    ensures Fill(a) == Fill(b)
  {
    hide Low, Pow2, Half, EvenParity, FilledAF, FilledOF;
    assert FilledAF(a) == FilledAF(b) by {
      SameFilled(a, b);
    }
    assert FilledOF(a) == FilledOF(b) by {
      SameFilled(a, b);
    }
  }

  lemma SameFilled(a: Lazy, b: Lazy)
    requires b == a.(flags := b.flags)
    ensures FilledAF(a) == FilledAF(b) && FilledOF(a) == FilledOF(b)
  {
    hide Low, Half;
  }

  lemma BinaryTransparent(l: Lazy, kind: Kind, w: Width, a: nat, b: nat)
    requires Ok(l) && IsBinary(kind)
    ensures var ((x, s), (y, s')) := (Binary(l, kind, w, a, b), Binary(Fill(l), kind, w, a, b));
      s == s' && Ok(x) && Ok(y) && Fill(x) == Fill(y)
  {
    hide Low, Pow2, Half, EvenParity, FilledAF, FilledOF, GetCF, Combined, Put;
    FilledIsOk(l);
    SameFill(Binary(l, kind, w, a, b).0, Binary(Fill(l), kind, w, a, b).0);
  }

  lemma UnaryTransparent(l: Lazy, kind: Kind, w: Width, a: nat)
    requires Ok(l) && kind in {INC, DEC, NEG}
    requires Ok(Unary(l, kind, w, a).0) && Ok(Unary(Fill(l), kind, w, a).0)
    ensures var ((x, s), (y, s')) := (Unary(l, kind, w, a), Unary(Fill(l), kind, w, a));
      s == s' && Fill(x) == Fill(y)
  {
    hide Low, Pow2, Half, EvenParity, FilledAF, FilledOF, GetCF, Put;
    FilledIsOk(l);
    SameFill(Unary(l, kind, w, a).0, Unary(Fill(l), kind, w, a).0);
  }

  lemma ShiftTransparent(l: Lazy, kind: Kind, w: Width, a: nat, count: nat)
    requires Ok(l) && kind in {SHL, SHR, SAR} && count < 32
    requires Ok(Shift(l, kind, w, a, count).0) && Ok(Shift(Fill(l), kind, w, a, count).0)
    ensures var ((x, s), (y, s')) := (Shift(l, kind, w, a, count), Shift(Fill(l), kind, w, a, count));
      s == s' && Fill(x) == Fill(y)
  {
    hide Low, Pow2, Half, EvenParity, FilledAF, FilledOF, GetCF, Put, Shifted;
    FilledIsOk(l);
    if count != 0 {
      SameFill(Shift(l, kind, w, a, count).0, Shift(Fill(l), kind, w, a, count).0);
    }
  }

  lemma RotateTransparent(l: Lazy, left: bool, w: Width, a: nat, count: nat)
    requires Ok(l) && count < 32
    ensures var ((x, s), (y, s')) := (Rotate(l, left, w, a, count), Rotate(Fill(l), left, w, a, count));
      s == s' && Ok(x) && Ok(y) && Fill(x) == Fill(y)
  {
    hide Low, Pow2, Half, EvenParity, FilledAF, FilledOF, GetCF, Put, Rotated, BitAt;
    FilledIsOk(l);
  }

  // ----- lazy runs equal eager runs

  predicate AllOk(code: seq<Instr>) {
    forall i | 0 <= i < |code| :: InstrOk(code[i])
  }

  /** The decoder: flags are filled only by the instructions that need it. */
  function LazyRun(c: Cpu, code: seq<Instr>): (r: Cpu)
    requires Ok(c.l) && |c.regs| == 8 && AllOk(code)
    ensures Ok(r.l) && |r.regs| == 8
    decreases |code|
  {
    if code == [] then c
    else
      EffectOk(c.l, c.regs, code[0]);
      LazyRun(Exec(c, code[0]), code[1..])
  }

  /** The plain processor: the register is filled behind every instruction. */
  function EagerRun(c: Cpu, code: seq<Instr>): (r: Cpu)
    requires Ok(c.l) && |c.regs| == 8 && AllOk(code)
    decreases |code|
  {
    if code == [] then c
    else
      EffectOk(c.l, c.regs, code[0]);
      var d := Exec(c, code[0]);
      FilledIsOk(d.l);
      EagerRun(d.(l := Fill(d.l)), code[1..])
  }

  /** Over any list of instructions the lazy machine has the registers of the eager
      one, all six conditions it reads are those in the eager machine's register, and
      OF differs only where the last flag-writing instruction shifted exactly the sign
      bit right by one. */
  lemma {:induction false} LazyIsEager(c: Cpu, code: seq<Instr>)
    requires Ok(c.l) && |c.regs| == 8 && AllOk(code)
    ensures var (x, e) := (LazyRun(c, code), EagerRun(c.(l := Fill(c.l)), code));
      && x.regs == e.regs && e.l == Fill(x.l)
      && var (lazy, eager) := (Conditions(x.l), InRegister(e.l.flags));
      && (lazy.0, lazy.1, lazy.2, lazy.3, lazy.4) == (eager.0, eager.1, eager.2, eager.3, eager.4)
      && (lazy.5 == eager.5 <==> !ShrOfSignBit(x.l))
    decreases |code|
  {
    if code == [] {
      FillAgrees(c.l);
    } else {
      FillTransparent(c.l, c.regs, code[0]);
      var d := Exec(c, code[0]);
      FilledIsOk(d.l);
      LazyIsEager(d, code[1..]);
    }
  }

  // ----- the formulas are arithmetic, at every width

  /** The value lies outside the signed numbers of a width. */
  predicate OutOfRange(h: nat, v: int) { v < 0 - h || v >= h }

  /** A remainder by a full width. */
  predicate Wrapped(h: nat, v: int, r: nat) {
    r < 2 * h && (r == v || r == v - 2 * h || r == v + 2 * h)
  }

  lemma WrapIs(w: Width, v: int)
    requires 0 - Full(w) <= v < 2 * Full(w)
    ensures Wrapped(Half(w), v, Low(w, v))
  {
  }

  /** ADD (c = 0) and ADC: carry out of the top, and overflow of the signed sum. */
  lemma SumMeaning(h: nat, a: nat, b: nat, c: nat, r: nat)
    requires h > 0 && a < 2 * h && b < 2 * h && c <= 1 && Wrapped(h, a + b + c, r)
    ensures AdcCarries(a, r, c == 1) <==> a + b + c >= 2 * h
    ensures c == 0 ==> (AddCarries(a, r) <==> a + b >= 2 * h)
    ensures SumOverflows(h, a, b, r, b) <==> OutOfRange(h, Signed(h, a) + Signed(h, b) + c)
  {
  }

  /** SUB and CMP (c = 0) and SBB: borrow into the top, and signed overflow. */
  lemma DifferenceMeaning(h: nat, a: nat, b: nat, c: nat, r: nat)
    requires h > 0 && a < 2 * h && b < 2 * h && c <= 1 && Wrapped(h, a - (b + c), r)
    ensures SbbBorrows(h, a, b, r, c == 1) <==> a < b + c
    ensures DifferenceOverflows(h, a, b, r) <==> OutOfRange(h, Signed(h, a) - Signed(h, b) - c)
    ensures r == 0 <==> a == b + c || a + 2 * h == b + c
    ensures (r >= h) != DifferenceOverflows(h, a, b, r) <==> Signed(h, a) - Signed(h, b) - c < 0
  {
  }

  /** What carry and overflow mean after ADC, whatever the flags were before, at
      every width. */
  lemma AdcMeans(l: Lazy, w: Width, a: nat, b: nat)
    requires Ok(l) && a < Full(w) && b < Full(w)
    ensures var (c, h, x) := (if GetCF(l) then 1 else 0, Half(w), Binary(l, ADC, w, a, b).0);
      && (GetCF(x) <==> a + b + c >= Full(w))
      && (GetOF(x) <==> OutOfRange(h, Signed(h, a) + Signed(h, b) + c))
  {
    hide Put, Low, Half, SumOverflows, AdcCarries, OutOfRange, Signed, Wrapped, Binary, ShlCarries, Pow2;
    var c := if GetCF(l) then 1 else 0;
    BinaryIs(l, ADC, w, a, b);
    WrapIs(w, a + b + c);
    SumMeaning(Half(w), a, b, c, Low(w, a + b + c));
  }

  lemma SbbMeans(l: Lazy, w: Width, a: nat, b: nat)
    requires Ok(l) && a < Full(w) && b < Full(w)
    ensures var (c, h, x) := (if GetCF(l) then 1 else 0, Half(w), Binary(l, SBB, w, a, b).0);
      && (GetCF(x) <==> a < b + c)
      && (GetOF(x) <==> OutOfRange(h, Signed(h, a) - Signed(h, b) - c))
  {
    hide Put, Low, Half, DifferenceOverflows, SbbBorrows, OutOfRange, Signed, Wrapped, Binary, ShlCarries, Pow2;
    var c := if GetCF(l) then 1 else 0;
    BinaryIs(l, SBB, w, a, b);
    WrapIs(w, a - (b + c));
    DifferenceMeaning(Half(w), a, b, c, Low(w, a - (b + c)));
  }

  lemma BinaryIs(l: Lazy, kind: Kind, w: Width, a: nat, b: nat)
    requires Ok(l) && IsBinary(kind) && a < Full(w) && b < Full(w)
    ensures var x := Binary(l, kind, w, a, b).0;
      && Ok(x) && V1(x) == a && V2(x) == b && x.kind == kind && x.w == w && Half(w) > 0
      && x.oldcf == (if UsesCarry(kind) then GetCF(l) else l.oldcf)
      && Res(x) == Low(w, Combined(kind, a, b, if x.oldcf then 1 else 0))
  {
    hide Put, Combined, GetCF, Low, Half;
    LowIs(w, a);
    LowIs(w, b);
  }

  /** Behind CMP the conditional jumps decide the unsigned and the signed order. */
  lemma JumpsDecideOrder(l: Lazy, w: Width, a: nat, b: nat)
    requires Ok(l) && a < Full(w) && b < Full(w)
    ensures var (x, s, t) := (Binary(l, CMP, w, a, b).0, Signed(Half(w), a), Signed(Half(w), b));
      && (GetCF(x) <==> a < b)
      && (GetCF(x) || GetZF(x) <==> a <= b)
      && (GetZF(x) <==> a == b)
      && (GetSF(x) != GetOF(x) <==> s < t)
      && (GetZF(x) || GetSF(x) != GetOF(x) <==> s <= t)
  {
    hide Put, Low, Half, DifferenceOverflows, SbbBorrows, OutOfRange, Binary, Wrapped, Signed, ShlCarries, Pow2;
    BinaryIs(l, CMP, w, a, b);
    WrapIs(w, a - b);
    DifferenceMeaning(Half(w), a, b, 0, Low(w, a - b));
    SignedOrder(Half(w), a, b);
  }

  lemma SignedOrder(h: nat, a: nat, b: nat)
    requires a < 2 * h && b < 2 * h
    ensures Signed(h, a) == Signed(h, b) <==> a == b
  {
  }

  /** ADD and SUB carry and overflow exactly when the result does not fit. */
  lemma PlainOpsMean(l: Lazy, w: Width, a: nat, b: nat)
    requires Ok(l) && a < Full(w) && b < Full(w)
    ensures var h := Half(w);
      var (add, sub) := (Binary(l, ADD, w, a, b).0, Binary(l, SUB, w, a, b).0);
      && (GetCF(add) <==> a + b >= Full(w)) && (GetCF(sub) <==> a < b)
      && (GetOF(add) <==> OutOfRange(h, Signed(h, a) + Signed(h, b)))
      && (GetOF(sub) <==> OutOfRange(h, Signed(h, a) - Signed(h, b)))
  {
    hide Put, Low, Half, SumOverflows, DifferenceOverflows, AdcCarries, SbbBorrows, AddCarries, OutOfRange, Signed, Wrapped, Binary, ShlCarries, Pow2;
    BinaryIs(l, ADD, w, a, b);
    BinaryIs(l, SUB, w, a, b);
    WrapIs(w, a + b);
    WrapIs(w, a - b);
    SumMeaning(Half(w), a, b, 0, Low(w, a + b));
    DifferenceMeaning(Half(w), a, b, 0, Low(w, a - b));
  }

  /** INC and DEC overflow exactly when the signed result does not fit, and leave the
      carry as it could be read before. */
  lemma StepsMean(l: Lazy, w: Width, a: nat)
    requires Ok(l) && a < Full(w)
    ensures var h := Half(w);
      var (inc, dec) := (Unary(l, INC, w, a).0, Unary(l, DEC, w, a).0);
      && GetCF(inc) == GetCF(dec) == GetCF(l)
      && (GetOF(inc) <==> OutOfRange(h, Signed(h, a) + 1))
      && (GetOF(dec) <==> OutOfRange(h, Signed(h, a) - 1))
  {
    hide Put, Low, Half, OutOfRange, Signed, Unary, ShlCarries, Pow2, Wrapped, GetCF, GetOF, V1, Res;
    UnaryIs(l, INC, w, a, a + 1);
    UnaryIs(l, DEC, w, a, a - 1);
    StepReads(Unary(l, INC, w, a).0);
    StepReads(Unary(l, DEC, w, a).0);
    WrapIs(w, a + 1);
    WrapIs(w, a - 1);
    StepMeaning(Half(w), a, Low(w, a + 1), Low(w, a - 1));
  }

  lemma StepReads(x: Lazy)
    requires Ok(x) && (x.kind == INC || x.kind == DEC)
    ensures GetCF(x) == x.flags.cf
    ensures GetOF(x) <==> Res(x) == if x.kind == INC then Half(x.w) else Half(x.w) - 1
  {
    hide Half, Low, Pow2;
  }

  lemma NegMeans(l: Lazy, w: Width, a: nat)
    requires Ok(l) && a < Full(w)
    ensures var (h, neg) := (Half(w), Unary(l, NEG, w, a).0);
      && Ok(neg) && (GetOF(neg) <==> OutOfRange(h, 0 - Signed(h, a))) && (GetCF(neg) <==> a != 0)
  {
    hide Put, Low, Half, Unary, ShlCarries, Pow2;
    UnaryIs(l, NEG, w, a, 0 - a);
    NegMeaning(Half(w), a);
  }

  lemma NegMeaning(h: nat, a: nat)
    requires h > 0 && a < 2 * h
    ensures a == h <==> OutOfRange(h, 0 - Signed(h, a))
  {
  }

  lemma UnaryIs(l: Lazy, kind: Kind, w: Width, a: nat, v: int)
    requires Ok(l) && kind in {INC, DEC, NEG} && a < Full(w)
    requires v == if kind == INC then a + 1 else if kind == DEC then a - 1 else 0 - a
    ensures var x := Unary(l, kind, w, a).0;
      && Ok(x) && V1(x) == a && x.kind == kind && x.w == w && Half(w) > 0 && Res(x) == Low(w, v)
      && (kind != NEG ==> x.flags.cf == GetCF(l))
  {
    hide Put, GetCF, Low, Half;
    LowIs(w, a);
  }

  lemma LowIs(w: Width, a: nat)
    requires a < Full(w)
    ensures Low(w, a) == a && Half(w) > 0
  {
  }

  lemma StepMeaning(h: nat, a: nat, inc: nat, dec: nat)
    requires h > 0 && a < 2 * h && Wrapped(h, a + 1, inc) && Wrapped(h, a - 1, dec)
    ensures inc == h <==> OutOfRange(h, Signed(h, a) + 1)
    ensures dec == h - 1 <==> OutOfRange(h, Signed(h, a) - 1)
  {
  }

  /** The case LazyIsEager excludes does occur: shifting exactly the sign bit right by
      one, at any width. */
  lemma SignBitShiftDiffers(l: Lazy, w: Width)
    requires Ok(l)
    ensures var x := Shift(l, SHR, w, Half(w), 1).0;
      Ok(x) && ShrOfSignBit(x) && !GetOF(x) && Fill(x).flags.ov
  {
    hide Put, Low, Shifted;
    PutCount(l.var2, 1);
    HalfFits(w);
    FillAgrees(Shift(l, SHR, w, Half(w), 1).0);
  }

  lemma HalfFits(w: Width)
    ensures Low(w, Half(w)) == Half(w)
  {
  }

  // ----- the decoder

  class Decoder {
    var kind: Kind
    var w: Width
    var var1: nat
    var var2: nat
    var res: nat
    var oldcf: bool
    var flags: Flags

    ghost function View(): Lazy
      reads this
    {
      Lazy(kind, w, var1, var2, res, oldcf, flags)
    }

    constructor (flags: Flags)
      ensures View() == Lazy(UNKNOWN, Byte, 0, 0, 0, false, flags) && Ok(View())
    {
      kind, w, var1, var2, res, oldcf := UNKNOWN, Byte, 0, 0, 0, false;
      this.flags := flags;
    }

    /** get_CF */
    function CarryNow(): bool
      reads this
      requires Ok(View())
      ensures CarryNow() == GetCF(View())
    {
      GetCF(Lazy(kind, w, var1, var2, res, oldcf, flags))
    }

    /** FillFlagsNoCFOF */
    method FillFlagsNoCFOF()
      modifies this
      ensures View() == FillNoCFOF(old(View()))
    {
      hide Low, Half, FilledAF, EvenParity;
      if kind == UNKNOWN {
        return;
      }
      FillAdjust();
      var r := Low(w, res);
      flags := flags.(zf := r == 0);
      flags := flags.(sf := r >= Half(w));
      flags := flags.(pf := EvenParity(Low(Byte, res)));
      kind := UNKNOWN;
    }

    method FillAdjust()
      requires kind != UNKNOWN
      modifies this`flags
      ensures flags == old(flags).(af := FilledAF(old(View())))
    {
      hide Low, HalfCarry;
      match kind {
        case UNKNOWN =>
        case INC => flags := flags.(af := Low(w, res) % 16 == 0);
        case DEC => flags := flags.(af := Low(w, res) % 16 == 15);
        case NEG => flags := flags.(af := Low(w, res) % 16 != 0);
        case SHL => flags := flags.(af := Low(w, var2) % 32 != 0);
        case SHR => flags := flags.(af := Low(w, var2) % 32 != 0);
        case SAR => flags := flags.(af := Low(w, var2) % 32 != 0);
        case OR => flags := flags.(af := false);
        case AND => flags := flags.(af := false);
        case XOR => flags := flags.(af := false);
        case TEST => flags := flags.(af := false);
        case _ => flags := flags.(af := HalfCarry(Low(Byte, var1), Low(Byte, var2), Low(Byte, res)));
      }
    }

    /** FillFlags */
    method FillFlags()
      requires Ok(View())
      modifies this
      ensures View() == Fill(old(View()))
    {
      hide Low, Half, Ones, Pow2;
      if kind == UNKNOWN {
        return;
      }
      var carry := CarryNow();
      FillOverflow();
      FillFlagsNoCFOF();
      flags := flags.(cf := carry);
    }

    method FillOverflow()
      requires kind != UNKNOWN
      modifies this`flags
      ensures flags == old(flags).(ov := FilledOF(old(View())))
    {
      var h, a, b, r := Half(w), Low(w, var1), Low(w, var2), Low(w, res);
      match kind {
        case UNKNOWN =>
        case ADD => flags := flags.(ov := SumOverflows(h, a, b, r, a));
        case ADC => flags := flags.(ov := SumOverflows(h, a, b, r, a));
        case SBB => flags := flags.(ov := DifferenceOverflows(h, a, b, r));
        case SUB => flags := flags.(ov := DifferenceOverflows(h, a, b, r));
        case CMP => flags := flags.(ov := DifferenceOverflows(h, a, b, r));
        case INC => flags := flags.(ov := r == h);
        case DEC => flags := flags.(ov := r == h - 1);
        case NEG => flags := flags.(ov := a == h);
        case SHL => flags := flags.(ov := (r >= h) != (a >= h));
        case SHR => flags := flags.(ov := b % 32 == 1 && a >= h);
        case _ => flags := flags.(ov := false);
      }
    }

    /** ADDB ... TESTD */
    method Arithmetic(kind: Kind, w: Width, a: nat, b: nat) returns (saved: Option<nat>)
      requires Ok(View()) && IsBinary(kind)
      modifies this
      ensures (View(), saved) == Binary(old(View()), kind, w, a, b)
    {
      hide Put, Low, Half, GetCF, Combined;
      if kind == ADC || kind == SBB {
        oldcf := CarryNow();
      }
      var1 := Put(w, var1, a);
      var2 := Put(w, var2, b);
      res := Put(w, res, Combined(kind, Low(w, var1), Low(w, var2), if oldcf then 1 else 0));
      saved := if kind == CMP || kind == TEST then None else Some(Low(w, res));
      this.kind, this.w := kind, w;
    }

    /** INCB ... DECD and NEG */
    method Single(kind: Kind, w: Width, a: nat) returns (saved: Option<nat>)
      requires Ok(View()) && kind in {INC, DEC, NEG}
      modifies this
      ensures (View(), saved) == Unary(old(View()), kind, w, a)
    {
      hide Put, Low, Half, GetCF;
      if kind != NEG {
        flags := flags.(cf := CarryNow());
      }
      var1 := Put(w, var1, a);
      var v: int := Low(w, var1);
      res := Put(w, res, if kind == INC then v + 1 else if kind == DEC then v - 1 else 0 - v);
      saved := Some(Low(w, res));
      this.kind, this.w := kind, w;
    }

    /** SHLB ... SARD */
    method ShiftBy(kind: Kind, w: Width, a: nat, count: nat) returns (saved: Option<nat>)
      requires kind in {SHL, SHR, SAR} && count < 32
      modifies this
      ensures (View(), saved) == Shift(old(View()), kind, w, a, count)
    {
      hide Put, Low, Half, Shifted;
      if count == 0 {
        return None;
      }
      var n := ShiftCount(kind, w, count);
      var1, var2 := Put(w, var1, a), Put(Byte, var2, n);
      res := Put(w, res, Shifted(kind, w, Low(w, var1), n));
      saved := Some(Low(w, res));
      this.kind, this.w := kind, w;
    }

    /** ROLB ... RORD */
    method RotateBy(left: bool, w: Width, a: nat, count: nat) returns (saved: Option<nat>)
      requires count < 32
      modifies this
      ensures (View(), saved) == Rotate(old(View()), left, w, a, count)
    {
      hide Put, Low, Half, Rotated, FillNoCFOF, BitAt;
      if count == 0 {
        return None;
      }
      var m := RotateCount(w, count);
      SameOperands(View());
      FillFlagsNoCFOF();
      if m == 0 {
        flags := RotateFlags(flags, left, w, Low(w, a));
        return None;
      }
      var1, var2 := Put(w, var1, a), Put(Byte, var2, m);
      var r := Low(w, Rotated(left, w, Low(w, a), m));
      res := Put(w, res, r);
      flags := RotateFlags(flags, left, w, r);
      saved := Some(r);
    }

    /** RCLB ... RCRD */
    method RotateThroughCarry(left: bool, w: Width, a: nat, count: nat) returns (saved: Option<nat>)
      requires Ok(View()) && count < 32
      modifies this
      ensures (View(), saved) == RotateCarry(old(View()), left, w, a, count)
    {
      hide Put, Low, Half, CarryRotated, CarryRotateFlags, Fill, GetCF, BitAt;
      var m := CarryRotateCount(w, count);
      if m == 0 {
        return None;
      }
      SameOperands(View());
      FillFlags();
      var1, var2 := Put(w, var1, a), Put(Byte, var2, m);
      var r := Low(w, CarryRotated(left, w, Low(w, a), m, flags.cf));
      res := Put(w, res, r);
      flags := CarryRotateFlags(flags, left, w, Low(w, a), m, r);
      saved := Some(r);
    }
  }

  lemma SameOperands(l: Lazy)
    ensures var f := FillNoCFOF(l); f.var1 == l.var1 && f.var2 == l.var2 && f.res == l.res
    ensures Ok(l) ==> var f := Fill(l); f.var1 == l.var1 && f.var2 == l.var2 && f.res == l.res
  {
  }
}
