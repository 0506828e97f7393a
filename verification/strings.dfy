/** DoString of core/cpu_decode.c: string instructions, alone and repeated. */
module StringOps {
  import opened Basics

  import LazyFlags

  type Width = LazyFlags.Width

  datatype Op = MOVS | STOS | LODS | SCAS | CMPS

  /** Memory maps physical addresses to bytes. `wide` is the address-size prefix, siBase
      and diBase the segment bases, direction 1 or -1. */
  datatype Cpu = Cpu(
    mem: map<nat, u8>, eax: nat, ecx: nat, esi: nat, edi: nat, l: LazyFlags.Lazy,
    siBase: nat, diBase: nat, direction: int, wide: bool)

  predicate Sound(c: Cpu) {
    && c.eax < TWO32 && c.ecx < TWO32 && c.esi < TWO32 && c.edi < TWO32
    && (c.direction == 1 || c.direction == -1) && LazyFlags.Ok(c.l)
  }

  /** One more than add_mask. */
  function Modulus(wide: bool): nat { if wide then TWO32 else 0x1_0000 }

  function Bytes(w: Width): nat { match w case Byte => 1 case Word => 2 case Dword => 4 }

  // ----- memory

  function ByteAt(m: map<nat, u8>, a: nat): u8 { if a in m then m[a] else 0 }

  function Load(m: map<nat, u8>, a: nat, w: Width): (v: nat)
    ensures v < LazyFlags.Full(w)
  {
    match w
    case Byte => ByteAt(m, a)
    case Word => ByteAt(m, a) + 0x100 * ByteAt(m, a + 1)
    case Dword => ByteAt(m, a) + 0x100 * ByteAt(m, a + 1) + 0x1_0000 * ByteAt(m, a + 2) + 0x100_0000 * ByteAt(m, a + 3)
  }

  function Save(m: map<nat, u8>, a: nat, w: Width, v: nat): map<nat, u8> {
    var m0 := m[a := v % 0x100];
    if w == LazyFlags.Byte then m0
    else
      var m1 := m0[a + 1 := v / 0x100 % 0x100];
      if w == LazyFlags.Word then m1
      else m1[a + 2 := v / 0x1_0000 % 0x100][a + 3 := v / 0x100_0000 % 0x100]
  }

  /** A physical address; the sum is a u32. */
  function Phys(base: nat, index: nat): nat { (base + index) % TWO32 }

  // ----- index registers

  /** The part of a register that addresses use. */
  function Index(wide: bool, reg: nat): (r: nat)
    ensures r < Modulus(wide)
  {
    reg % Modulus(wide)
  }

  /** The register with that part replaced: 16-bit addressing keeps the high half. */
  function SetIndex(wide: bool, reg: nat, index: nat): nat
    requires index < Modulus(wide)
  {
    reg - reg % Modulus(wide) + index
  }

  function Advance(c: Cpu, index: nat, w: Width): (r: nat)
    ensures r < Modulus(c.wide)
  {
    (index + c.direction * Bytes(w)) % Modulus(c.wide)
  }

  lemma SetIndexLaws(wide: bool, reg: nat, a: nat, b: nat)
    requires a < Modulus(wide) && b < Modulus(wide) && reg < TWO32
    ensures SetIndex(wide, reg, a) < TWO32
    ensures Index(wide, SetIndex(wide, reg, a)) == a
    ensures SetIndex(wide, SetIndex(wide, reg, a), b) == SetIndex(wide, reg, b)
    ensures SetIndex(wide, reg, Index(wide, reg)) == reg
  {
    var q := reg / Modulus(wide);
    assert SetIndex(wide, reg, a) == Modulus(wide) * q + a;
  }

  // ----- one string instruction

  function Acc(c: Cpu, w: Width): nat { LazyFlags.Low(w, c.eax) }

  function SiValue(c: Cpu, w: Width): nat { Load(c.mem, Phys(c.siBase, Index(c.wide, c.esi)), w) }

  function DiValue(c: Cpu, w: Width): nat { Load(c.mem, Phys(c.diBase, Index(c.wide, c.edi)), w) }

  function NextSi(c: Cpu, w: Width): Cpu {
    c.(esi := SetIndex(c.wide, c.esi, Advance(c, Index(c.wide, c.esi), w)))
  }

  function NextDi(c: Cpu, w: Width): Cpu {
    c.(edi := SetIndex(c.wide, c.edi, Advance(c, Index(c.wide, c.edi), w)))
  }

  function Stored(c: Cpu, w: Width, v: nat): map<nat, u8> {
    Save(c.mem, Phys(c.diBase, Index(c.wide, c.edi)), w, v)
  }

  function Compared(l: LazyFlags.Lazy, w: Width, a: nat, b: nat): LazyFlags.Lazy
    requires LazyFlags.Ok(l)
  {
    LazyFlags.Binary(l, LazyFlags.CMP, w, a, b).0
  }

  /** A string instruction without a repeat prefix. */
  function Single(c: Cpu, op: Op, w: Width): Cpu
    requires LazyFlags.Ok(c.l)
  {
    match op
    case MOVS => NextDi(NextSi(c.(mem := Stored(c, w, SiValue(c, w))), w), w)
    case STOS => NextDi(c.(mem := Stored(c, w, Acc(c, w))), w)
    case LODS => NextSi(c.(eax := LazyFlags.Put(w, c.eax, SiValue(c, w))), w)
    case SCAS => NextDi(c.(l := Compared(c.l, w, Acc(c, w), DiValue(c, w))), w)
    case CMPS => NextDi(NextSi(c.(l := Compared(c.l, w, SiValue(c, w), DiValue(c, w))), w), w)
  }

  predicate Compares(op: Op) { op == SCAS || op == CMPS }

  function Count(c: Cpu): nat { Index(c.wide, c.ecx) }

  /** The instruction once, and one off the count. */
  function Counted(c: Cpu, op: Op, w: Width): Cpu
    requires LazyFlags.Ok(c.l) && Count(c) > 0
  {
    Single(c, op, w).(ecx := SetIndex(c.wide, c.ecx, Count(c) - 1))
  }

  /** The comparison that was just made ends a repeated SCAS or CMPS. */
  predicate Stops(c: Cpu, op: Op, repZero: bool) {
    Compares(op) && LazyFlags.GetZF(c.l) != repZero
  }

  lemma NextSound(c: Cpu, w: Width)
    requires Sound(c)
    ensures Sound(NextSi(c, w)) && Sound(NextDi(c, w))
  {
    SetIndexLaws(c.wide, c.esi, Advance(c, Index(c.wide, c.esi), w), 0);
    SetIndexLaws(c.wide, c.edi, Advance(c, Index(c.wide, c.edi), w), 0);
  }

  lemma PutRange(w: Width, x: nat, v: nat)
    requires x < TWO32
    ensures LazyFlags.Put(w, x, v) < TWO32
  {
    var q := x / LazyFlags.Full(w);
    match w
    case Byte => assert x - x % 0x100 == 0x100 * q;
    case Word => assert x - x % 0x1_0000 == 0x1_0000 * q;
    case Dword => assert x - x % TWO32 == 0;
  }

  lemma ComparedOk(l: LazyFlags.Lazy, w: Width, a: nat, b: nat)
    requires LazyFlags.Ok(l) && a < LazyFlags.Full(w) && b < LazyFlags.Full(w)
    ensures LazyFlags.Ok(Compared(l, w, a, b))
    ensures LazyFlags.GetZF(Compared(l, w, a, b)) <==> a == b
  {
    LazyFlags.BinaryIs(l, LazyFlags.CMP, w, a, b);
    LazyFlags.JumpsDecideOrder(l, w, a, b);
  }

  lemma SingleOk(c: Cpu, op: Op, w: Width)
    requires Sound(c)
    ensures var r := Single(c, op, w); Sound(r) && r.wide == c.wide && r.ecx == c.ecx
  {
    hide Save, Load, LazyFlags.Put, SetIndex, Compared, Advance, LazyFlags.Ok;
    ComparedOk(c.l, w, Acc(c, w), DiValue(c, w));
    ComparedOk(c.l, w, SiValue(c, w), DiValue(c, w));
    PutRange(w, c.eax, SiValue(c, w));
    var d :=
      match op
      case MOVS => c.(mem := Stored(c, w, SiValue(c, w)))
      case STOS => c.(mem := Stored(c, w, Acc(c, w)))
      case LODS => c.(eax := LazyFlags.Put(w, c.eax, SiValue(c, w)))
      case SCAS => c.(l := Compared(c.l, w, Acc(c, w), DiValue(c, w)))
      case CMPS => c.(l := Compared(c.l, w, SiValue(c, w), DiValue(c, w)));
    NextSound(d, w);
    NextSound(NextSi(d, w), w);
  }

  lemma CountedOk(c: Cpu, op: Op, w: Width)
    requires Sound(c) && Count(c) > 0
    ensures Sound(Counted(c, op, w)) && Count(Counted(c, op, w)) == Count(c) - 1
    ensures Counted(c, op, w).wide == c.wide
  {
    hide Single, SetIndex, Index, LazyFlags.Ok;
    SingleOk(c, op, w);
    SetIndexLaws(c.wide, c.ecx, Count(c) - 1, 0);
  }

  /** What a repeated instruction stands for: the plain one again and again, counting
      down, until the count is used up or a comparison ends it. */
  function Repeated(c: Cpu, op: Op, w: Width, repZero: bool): Cpu
    requires Sound(c)
    decreases Count(c)
  {
    if Count(c) == 0 then c
    else
      CountedOk(c, op, w);
      var d := Counted(c, op, w);
      if Stops(d, op, repZero) then d else Repeated(d, op, w, repZero)
  }

  lemma SetIndexHigh(reg: nat, index: nat)
    requires index < 0x1_0000
    ensures SetIndex(false, reg, index) / 0x1_0000 == reg / 0x1_0000
  {
    var q := reg / 0x1_0000;
    assert SetIndex(false, reg, index) == 0x1_0000 * q + index;
  }

  /** With 16-bit addressing the high halves of the counter and of both indexes survive
      any repeated instruction, and so do the segment bases and the direction. */
  lemma {:induction false} HighHalvesKept(c: Cpu, op: Op, w: Width, repZero: bool)
    requires Sound(c) && !c.wide
    ensures var r := Repeated(c, op, w, repZero);
      && r.esi / 0x1_0000 == c.esi / 0x1_0000 && r.edi / 0x1_0000 == c.edi / 0x1_0000
      && r.ecx / 0x1_0000 == c.ecx / 0x1_0000
      && r.siBase == c.siBase && r.diBase == c.diBase && r.direction == c.direction
    decreases Count(c)
  {
    if Count(c) > 0 {
      CountedOk(c, op, w);
      CountedHigh(c, op, w);
      var d := Counted(c, op, w);
      if !Stops(d, op, repZero) {
        HighHalvesKept(d, op, w, repZero);
      }
    }
  }

  lemma CountedHigh(c: Cpu, op: Op, w: Width)
    requires Sound(c) && !c.wide && Count(c) > 0
    ensures var r := Counted(c, op, w);
      && r.esi / 0x1_0000 == c.esi / 0x1_0000 && r.edi / 0x1_0000 == c.edi / 0x1_0000
      && r.ecx / 0x1_0000 == c.ecx / 0x1_0000
      && r.siBase == c.siBase && r.diBase == c.diBase && r.direction == c.direction
  {
    hide Load, Save, LazyFlags.Put, LazyFlags.Low, LazyFlags.Ok, SetIndex, Compared, Phys, Index, NextSi, NextDi;
    var d :=
      match op
      case MOVS => c.(mem := Stored(c, w, SiValue(c, w)))
      case STOS => c.(mem := Stored(c, w, Acc(c, w)))
      case LODS => c.(eax := LazyFlags.Put(w, c.eax, SiValue(c, w)))
      case SCAS => c.(l := Compared(c.l, w, Acc(c, w), DiValue(c, w)))
      case CMPS => c.(l := Compared(c.l, w, SiValue(c, w), DiValue(c, w)));
    NextHigh(d, w);
    NextHigh(NextSi(d, w), w);
    SetIndexHigh(c.ecx, Count(c) - 1);
  }

  lemma NextHigh(c: Cpu, w: Width)
    requires !c.wide
    ensures NextSi(c, w) == c.(esi := NextSi(c, w).esi) && NextSi(c, w).esi / 0x1_0000 == c.esi / 0x1_0000
    ensures NextDi(c, w) == c.(edi := NextDi(c, w).edi) && NextDi(c, w).edi / 0x1_0000 == c.edi / 0x1_0000
  {
    hide SetIndex, Advance, Index;
    SetIndexHigh(c.esi, Advance(c, Index(c.wide, c.esi), w));
    SetIndexHigh(c.edi, Advance(c, Index(c.wide, c.edi), w));
  }

  // ----- the loop's registers

  predicate UsesSi(op: Op) { op == MOVS || op == LODS || op == CMPS }

  predicate UsesDi(op: Op) { op != LODS }

  /** The processor with the loop's index and count variables written back. */
  function Placed(c: Cpu, si: nat, di: nat, count: nat, rep: bool): Cpu
    requires si < Modulus(c.wide) && di < Modulus(c.wide) && (rep ==> count < Modulus(c.wide))
  {
    c.(esi := SetIndex(c.wide, c.esi, si), edi := SetIndex(c.wide, c.edi, di),
       ecx := if rep then SetIndex(c.wide, c.ecx, count) else c.ecx)
  }

  /** What a turn of the loop does to memory, accumulator and flags. */
  function Turn(c: Cpu, op: Op, w: Width, si: nat, di: nat): Cpu
    requires LazyFlags.Ok(c.l)
  {
    var s, d := Load(c.mem, Phys(c.siBase, si), w), Load(c.mem, Phys(c.diBase, di), w);
    match op
    case MOVS => c.(mem := Save(c.mem, Phys(c.diBase, di), w, s))
    case STOS => c.(mem := Save(c.mem, Phys(c.diBase, di), w, Acc(c, w)))
    case LODS => c.(eax := LazyFlags.Put(w, c.eax, s))
    case SCAS => c.(l := Compared(c.l, w, Acc(c, w), d))
    case CMPS => c.(l := Compared(c.l, w, s, d))
  }

  lemma PlacedLaws(c: Cpu, si: nat, di: nat, count: nat, rep: bool)
    requires Sound(c) && si < Modulus(c.wide) && di < Modulus(c.wide) && (rep ==> count < Modulus(c.wide))
    ensures var p := Placed(c, si, di, count, rep);
      && Sound(p) && Index(p.wide, p.esi) == si && Index(p.wide, p.edi) == di
      && (rep ==> Count(p) == count)
  {
    SetIndexLaws(c.wide, c.esi, si, 0);
    SetIndexLaws(c.wide, c.edi, di, 0);
    if rep {
      SetIndexLaws(c.wide, c.ecx, count, 0);
    }
  }

  /** A turn of the loop is one plain instruction, counted if repeated. */
  lemma TurnIsSingle(c: Cpu, op: Op, w: Width, si: nat, di: nat, count: nat, rep: bool)
    requires Sound(c) && si < Modulus(c.wide) && di < Modulus(c.wide) && (rep ==> 0 < count < Modulus(c.wide))
    ensures var p := Placed(c, si, di, count, rep);
      var si' := if UsesSi(op) then Advance(c, si, w) else si;
      var di' := if UsesDi(op) then Advance(c, di, w) else di;
      && Sound(p) && (rep ==> Count(p) == count)
      && Placed(Turn(c, op, w, si, di), si', di', if rep then count - 1 else count, rep)
        == if rep then Counted(p, op, w) else Single(p, op, w)
  {
    hide Load, Save, LazyFlags.Put, Compared, LazyFlags.Low, SetIndex, Index, Sound, LazyFlags.Ok, Phys, Bytes;
    PlacedLaws(c, si, di, count, rep);
    TurnIndexes(c, si, di, count, rep, Advance(c, si, w), Advance(c, di, w));
  }

  lemma TurnIndexes(c: Cpu, si: nat, di: nat, count: nat, rep: bool, x: nat, y: nat)
    requires Sound(c) && si < Modulus(c.wide) && di < Modulus(c.wide) && (rep ==> 0 < count < Modulus(c.wide))
    requires x < Modulus(c.wide) && y < Modulus(c.wide)
    ensures LazyFlags.Ok(c.l)
    ensures SetIndex(c.wide, SetIndex(c.wide, c.esi, si), x) == SetIndex(c.wide, c.esi, x)
    ensures SetIndex(c.wide, SetIndex(c.wide, c.edi, di), y) == SetIndex(c.wide, c.edi, y)
    ensures rep ==> SetIndex(c.wide, SetIndex(c.wide, c.ecx, count), count - 1) == SetIndex(c.wide, c.ecx, count - 1)
  {
    SetIndexLaws(c.wide, c.esi, si, x);
    SetIndexLaws(c.wide, c.edi, di, y);
    if rep {
      SetIndexLaws(c.wide, c.ecx, count, count - 1);
    }
  }

  /** The registers as they are found. */
  lemma PlacedSame(c: Cpu, rep: bool)
    requires Sound(c)
    ensures Placed(c, Index(c.wide, c.esi), Index(c.wide, c.edi), Count(c), rep) == c
  {
    SetIndexLaws(c.wide, c.esi, 0, 0);
    SetIndexLaws(c.wide, c.edi, 0, 0);
    SetIndexLaws(c.wide, c.ecx, 0, 0);
  }

  lemma PlacedUncounted(c: Cpu, si: nat, di: nat, count: nat)
    requires si < Modulus(c.wide) && di < Modulus(c.wide) && count < Modulus(c.wide)
    ensures Placed(c, si, di, count, false) == Placed(c, si, di, 0, false)
  {
  }

  /** A comparison overwrites what the one before it left. */
  lemma ComparedTwice(l: LazyFlags.Lazy, w: Width, a: nat, b: nat, a': nat, b': nat)
    requires LazyFlags.Ok(l) && LazyFlags.Ok(Compared(l, w, a, b))
    ensures Compared(Compared(l, w, a, b), w, a', b') == Compared(l, w, a', b')
  {
    hide LazyFlags.Low;
    LazyFlags.PutTwice(w, l.var1, a, a');
    LazyFlags.PutTwice(w, l.var2, b, b');
    var r := LazyFlags.Low(w, a) - LazyFlags.Low(w, b);
    var r' := LazyFlags.Low(w, a') - LazyFlags.Low(w, b');
    LazyFlags.PutTwice(w, l.res, r, r');
  }

  /** The processor as the plain instructions would have left it by now: the loop of a
      comparing instruction sets the flags only behind its last turn. */
  function Behind(c: Cpu, w: Width, started: bool, a: nat, b: nat): (r: Cpu)
    requires LazyFlags.Ok(c.l)
    ensures r.wide == c.wide
  {
    if started then c.(l := Compared(c.l, w, a, b)) else c
  }

  predicate Operands(w: Width, started: bool, a: nat, b: nat) {
    started ==> a < LazyFlags.Full(w) && b < LazyFlags.Full(w)
  }

  /** The values a turn of SCAS or CMPS compares. */
  function Left(c: Cpu, op: Op, w: Width, si: nat): nat {
    if op == SCAS then Acc(c, w) else Load(c.mem, Phys(c.siBase, si), w)
  }

  function Right(c: Cpu, w: Width, di: nat): nat { Load(c.mem, Phys(c.diBase, di), w) }

  lemma CompareTurn(c: Cpu, op: Op, w: Width, started: bool, a: nat, b: nat, si: nat, di: nat)
    requires Sound(c) && Compares(op) && Operands(w, started, a, b)
    ensures Sound(Behind(c, w, started, a, b))
    ensures Turn(Behind(c, w, started, a, b), op, w, si, di)
         == Behind(c, w, true, Left(c, op, w, si), Right(c, w, di))
  {
    hide Load, Compared, LazyFlags.Low, Phys, LazyFlags.Ok;
    if started {
      ComparedOk(c.l, w, a, b);
      ComparedTwice(c.l, w, a, b, Left(c, op, w, si), Right(c, w, di));
    }
  }

  /** A turn of a repeated comparison: it is the counted instruction, and the loop's
      test is the stop condition on the flags. */
  lemma CompareStep(c: Cpu, op: Op, w: Width, started: bool, a: nat, b: nat, si: nat, di: nat, count: nat, repZero: bool)
    requires Sound(c) && Compares(op) && Operands(w, started, a, b)
    requires si < Modulus(c.wide) && di < Modulus(c.wide) && 0 < count < Modulus(c.wide)
    ensures var p := Placed(Behind(c, w, started, a, b), si, di, count, true);
      var (a', b') := (Left(c, op, w, si), Right(c, w, di));
      var d := Placed(Behind(c, w, true, a', b'), if op == CMPS then Advance(c, si, w) else si,
                      Advance(c, di, w), count - 1, true);
      && Sound(p) && Sound(d) && Count(d) == count - 1
      && Repeated(p, op, w, repZero) == if (a' == b') != repZero then d else Repeated(d, op, w, repZero)
  {
    hide Load, Compared, LazyFlags.Low, Phys, LazyFlags.Ok, SetIndex, Turn, Single, LazyFlags.GetZF, Sound;
    SoundOk(c);
    var q := Behind(c, w, started, a, b);
    CompareTurn(c, op, w, started, a, b, si, di);
    TurnIsSingle(q, op, w, si, di, count, true);
    CountedOk(Placed(q, si, di, count, true), op, w);
    ComparedOk(c.l, w, Left(c, op, w, si), Right(c, w, di));
  }

  lemma SoundOk(c: Cpu)
    requires Sound(c)
    ensures LazyFlags.Ok(c.l)
  {
  }

  /** The state of the loops of MOVS, STOS and LODS: what is left to do from here gives
      what the whole instruction gives from c0. */
  ghost predicate MovesMade(c0: Cpu, c: Cpu, op: Op, w: Width, rep: bool, repZero: bool, si: nat, di: nat, count: nat)
    requires Sound(c0)
  {
    && Sound(c) && si < Modulus(c.wide) && di < Modulus(c.wide) && count < Modulus(c.wide)
    && (if rep then
          var p := Placed(c, si, di, count, true);
          Sound(p) && Count(p) == count && Repeated(p, op, w, repZero) == Repeated(c0, op, w, repZero)
        else
          count <= 1 && Placed(c, si, di, 0, false) == if count == 1 then c0 else Single(c0, op, w))
  }

  lemma MovesBegin(c: Cpu, op: Op, w: Width, rep: bool, repZero: bool)
    requires Sound(c)
    ensures MovesMade(c, c, op, w, rep, repZero, Index(c.wide, c.esi), Index(c.wide, c.edi), if rep then Count(c) else 1)
  {
    PlacedSame(c, rep);
    PlacedUncounted(c, Index(c.wide, c.esi), Index(c.wide, c.edi), Count(c));
  }

  lemma MovesGoOn(c0: Cpu, c: Cpu, op: Op, w: Width, rep: bool, repZero: bool, si: nat, di: nat, count: nat)
    requires Sound(c0) && MovesMade(c0, c, op, w, rep, repZero, si, di, count) && count > 0 && !Compares(op)
    ensures Sound(c)
    ensures Sound(Turn(c, op, w, si, di)) ==>
      MovesMade(c0, Turn(c, op, w, si, di), op, w, rep, repZero, if UsesSi(op) then Advance(c, si, w) else si,
                if UsesDi(op) then Advance(c, di, w) else di, count - 1)
  {
    hide Load, Save, Placed, SetIndex, Single, LazyFlags.Put, LazyFlags.Ok, Phys;
    TurnIsSingle(c, op, w, si, di, if rep then count else 0, rep);
    if rep {
      CountedOk(Placed(c, si, di, count, true), op, w);
    }
  }

  lemma MovesEnd(c0: Cpu, c: Cpu, op: Op, w: Width, rep: bool, repZero: bool, si: nat, di: nat)
    requires Sound(c0) && MovesMade(c0, c, op, w, rep, repZero, si, di, 0)
    ensures si < Modulus(c.wide) && di < Modulus(c.wide)
    ensures Placed(c, si, di, 0, rep) == if rep then Repeated(c0, op, w, repZero) else Single(c0, op, w)
  {
  }

  /** The state of the loops of SCAS and CMPS. */
  ghost predicate ComparesMade(c: Cpu, op: Op, w: Width, rep: bool, repZero: bool, started: bool, a: nat, b: nat,
                               si: nat, di: nat, count: nat)
    requires Sound(c)
  {
    && Operands(w, started, a, b) && si < Modulus(c.wide) && di < Modulus(c.wide) && count < Modulus(c.wide)
    && (if rep then
          var p := Placed(Behind(c, w, started, a, b), si, di, count, true);
          Sound(p) && Count(p) == count && Repeated(p, op, w, repZero) == Repeated(c, op, w, repZero)
        else
          && (count == 0 <==> started)
          && Placed(Behind(c, w, started, a, b), si, di, 0, false) == if started then Single(c, op, w) else c)
  }

  lemma ComparesBegin(c: Cpu, op: Op, w: Width, rep: bool, repZero: bool)
    requires Sound(c)
    ensures ComparesMade(c, op, w, rep, repZero, false, 0, 0, Index(c.wide, c.esi), Index(c.wide, c.edi),
                         if rep then Count(c) else 1)
  {
    CompareStarts(c, w, rep, Index(c.wide, c.esi), Index(c.wide, c.edi), Count(c));
  }

  lemma ComparesGoOn(c: Cpu, op: Op, w: Width, rep: bool, repZero: bool, started: bool, a: nat, b: nat,
                     si: nat, di: nat, count: nat)
    requires Sound(c) && Compares(op) && ComparesMade(c, op, w, rep, repZero, started, a, b, si, di, count)
    requires count > 0 && (rep || count == 1)
    ensures var (a', b') := (Left(c, op, w, si), Right(c, w, di));
      var (si', di') := (if op == CMPS then Advance(c, si, w) else si, Advance(c, di, w));
      && ComparesDone(c, op, w, rep, repZero, a', b', si', di', count - 1)
      && ((a' == b') == repZero || !rep ==> ComparesMade(c, op, w, rep, repZero, true, a', b', si', di', count - 1))
  {
    hide Load, Placed, SetIndex, Single, Behind, Phys, LazyFlags.Low, LazyFlags.GetZF, Left, Right;
    OperandsFit(c, op, w, si, di);
    if rep {
      CompareStep(c, op, w, started, a, b, si, di, count, repZero);
    } else {
      CompareOnce(c, op, w, started, a, b, si, di);
    }
  }

  /** Where a stopping comparison leaves the loop. */
  ghost predicate ComparesDone(c: Cpu, op: Op, w: Width, rep: bool, repZero: bool, a: nat, b: nat,
                               si: nat, di: nat, count: nat)
    requires Sound(c)
  {
    && Operands(w, true, a, b) && si < Modulus(c.wide) && di < Modulus(c.wide) && count < Modulus(c.wide)
    && ((a == b) != repZero || (rep ==> count == 0) ==>
          Placed(Behind(c, w, true, a, b), si, di, if rep then count else 0, rep)
            == if rep then Repeated(c, op, w, repZero) else Single(c, op, w))
  }

  lemma OperandsFit(c: Cpu, op: Op, w: Width, si: nat, di: nat)
    ensures Left(c, op, w, si) < LazyFlags.Full(w) && Right(c, w, di) < LazyFlags.Full(w)
  {
  }

  lemma ComparesEnd(c: Cpu, op: Op, w: Width, rep: bool, repZero: bool, started: bool, a: nat, b: nat, si: nat, di: nat)
    requires Sound(c) && started && ComparesMade(c, op, w, rep, repZero, started, a, b, si, di, 0)
    ensures ComparesDone(c, op, w, rep, repZero, a, b, si, di, 0)
  {
  }

  lemma ComparesResult(c: Cpu, op: Op, w: Width, rep: bool, repZero: bool, a: nat, b: nat, si: nat, di: nat, count: nat)
    requires Sound(c) && ComparesDone(c, op, w, rep, repZero, a, b, si, di, count)
    requires (a == b) != repZero || count == 0
    ensures si < Modulus(c.wide) && di < Modulus(c.wide) && count < Modulus(c.wide)
    ensures a < LazyFlags.Full(w) && b < LazyFlags.Full(w)
    ensures Placed(Behind(c, w, true, a, b), si, di, if rep then count else 0, rep)
         == if rep then Repeated(c, op, w, repZero) else Single(c, op, w)
  {
  }

  class StringUnit {
    var memory: map<nat, u8>
    var eax: nat
    var ecx: nat
    var esi: nat
    var edi: nat
    var lflags: LazyFlags.Lazy
    var siBase: nat
    var diBase: nat
    var direction: int
    var wide: bool

    function View(): Cpu
      reads this
    {
      Cpu(memory, eax, ecx, esi, edi, lflags, siBase, diBase, direction, wide)
    }

    /** The body of one of those loops. */
    method MoveTurn(op: Op, w: Width, si: nat, di: nat) returns (si': nat, di': nat)
      requires Sound(View()) && !Compares(op)
      modifies this`memory, this`eax
      ensures View() == Turn(old(View()), op, w, si, di) && Sound(View())
      ensures si' == if UsesSi(op) then Advance(old(View()), si, w) else si
      ensures di' == if UsesDi(op) then Advance(old(View()), di, w) else di
    {
      hide Load, Save, LazyFlags.Put, LazyFlags.Low, Phys, LazyFlags.Ok;
      var delta := direction * Bytes(w);
      si', di' := si, di;
      match op
      case MOVS =>
        memory := Save(memory, Phys(diBase, di), w, Load(memory, Phys(siBase, si), w));
        di' := (di + delta) % Modulus(wide);
        si' := (si + delta) % Modulus(wide);
      case STOS =>
        memory := Save(memory, Phys(diBase, di), w, LazyFlags.Low(w, eax));
        di' := (di + delta) % Modulus(wide);
      case LODS =>
        PutRange(w, eax, Load(memory, Phys(siBase, si), w));
        eax := LazyFlags.Put(w, eax, Load(memory, Phys(siBase, si), w));
        si' := (si + delta) % Modulus(wide);
      case _ =>
    }

    /** The loops of MOVS, STOS and LODS. */
    method MoveLoop(op: Op, w: Width, rep: bool, repZero: bool, si0: nat, di0: nat, count0: nat) returns (si: nat, di: nat)
      requires Sound(View()) && !Compares(op) && count0 > 0
      requires si0 == Index(wide, esi) && di0 == Index(wide, edi) && count0 == if rep then Count(View()) else 1
      modifies this`memory, this`eax
      ensures si < Modulus(wide) && di < Modulus(wide) && wide == old(wide)
      ensures Placed(View(), si, di, 0, rep)
        == if rep then Repeated(old(View()), op, w, repZero) else Single(old(View()), op, w)
    {
      hide MovesMade, Turn, Repeated, Single, Placed, Sound;
      var count := count0;
      si, di := si0, di0;
      ghost var c0 := View();
      MovesBegin(c0, op, w, rep, repZero);
      while count > 0
        invariant wide == c0.wide
        invariant MovesMade(c0, View(), op, w, rep, repZero, si, di, count)
      {
        MovesGoOn(c0, View(), op, w, rep, repZero, si, di, count);
        si, di := MoveTurn(op, w, si, di);
        count := count - 1;
      }
      MovesEnd(c0, View(), op, w, rep, repZero, si, di);
    }

    /** The values a turn of SCAS or CMPS compares, and the indexes behind it. */
    method CompareTurnAt(op: Op, w: Width, si: nat, di: nat) returns (a: nat, b: nat, si': nat, di': nat)
      requires Compares(op)
      ensures a == Left(View(), op, w, si) < LazyFlags.Full(w) && b == Right(View(), w, di) < LazyFlags.Full(w)
      ensures si' == if op == CMPS then Advance(View(), si, w) else si
      ensures di' == Advance(View(), di, w)
    {
      var delta := direction * Bytes(w);
      si' := si;
      if op == SCAS {
        a := LazyFlags.Low(w, eax);
      } else {
        a := Load(memory, Phys(siBase, si), w);
        si' := (si + delta) % Modulus(wide);
      }
      b := Load(memory, Phys(diBase, di), w);
      di' := (di + delta) % Modulus(wide);
    }

    /** The loops of SCAS and CMPS, up to the values the last turn compared. */
    method CompareLoop(op: Op, w: Width, rep: bool, repZero: bool, si0: nat, di0: nat, count0: nat)
      returns (si: nat, di: nat, count: nat, a: nat, b: nat)
      requires Sound(View()) && Compares(op) && count0 > 0
      requires si0 == Index(wide, esi) && di0 == Index(wide, edi) && count0 == if rep then Count(View()) else 1
      ensures si < Modulus(wide) && di < Modulus(wide) && count < count0
      ensures a < LazyFlags.Full(w) && b < LazyFlags.Full(w) && LazyFlags.Ok(lflags)
      ensures Placed(Behind(View(), w, true, a, b), si, di, if rep then count else 0, rep)
        == if rep then Repeated(View(), op, w, repZero) else Single(View(), op, w)
    {
      hide ComparesMade, ComparesDone, Repeated, Single, Behind, Placed, Sound, Left, Right, Advance;
      ghost var c := View();
      si, di, count, a, b := si0, di0, count0, 0, 0;
      ghost var started := false;
      SoundOk(c);
      ComparesBegin(c, op, w, rep, repZero);
      while count > 0
        invariant count <= count0 && (started <==> count < count0)
        invariant ComparesMade(c, op, w, rep, repZero, started, a, b, si, di, count)
      {
        ComparesGoOn(c, op, w, rep, repZero, started, a, b, si, di, count);
        count := count - 1;
        a, b, si, di := CompareTurnAt(op, w, si, di);
        started := true;
        if (a == b) != repZero {
          ComparesResult(c, op, w, rep, repZero, a, b, si, di, count);
          return;
        }
      }
      ComparesEnd(c, op, w, rep, repZero, started, a, b, si, di);
      ComparesResult(c, op, w, rep, repZero, a, b, si, di, 0);
    }

    /** DoString up to its loop. */
    method RunLoop(op: Op, w: Width, rep: bool, repZero: bool) returns (si: nat, di: nat, count: nat)
      requires Sound(View())
      modifies this`memory, this`eax, this`lflags
      ensures si < Modulus(wide) && di < Modulus(wide) && wide == old(wide) && (rep ==> count < Modulus(wide))
      ensures Placed(View(), si, di, if rep then count else 0, rep)
        == if rep then Repeated(old(View()), op, w, repZero) else Single(old(View()), op, w)
    {
      hide Single, Repeated, SetIndex, LazyFlags.Binary;
      ghost var c := View();
      si, di, count := esi % Modulus(wide), edi % Modulus(wide), if rep then ecx % Modulus(wide) else 1;
      PlacedSame(c, rep);
      RepeatedNever(c, op, w, repZero);
      if count != 0 {
        if Compares(op) {
          var a, b;
          si, di, count, a, b := CompareLoop(op, w, rep, repZero, si, di, count);
          lflags := LazyFlags.Binary(lflags, LazyFlags.CMP, w, a, b).0;
        } else {
          si, di := MoveLoop(op, w, rep, repZero, si, di, count);
          count := 0;
        }
      }
    }

    /** DoString: the plain instruction, or with a repeat prefix what repeating it step
        by step gives. */
    method DoString(op: Op, w: Width, rep: bool, repZero: bool)
      requires Sound(View())
      modifies this
      ensures View() == if rep then Repeated(old(View()), op, w, repZero) else Single(old(View()), op, w)
    {
      hide Single, Repeated, SetIndex, Sound;
      var si, di, count := RunLoop(op, w, rep, repZero);
      esi := SetIndex(wide, esi, si);
      edi := SetIndex(wide, edi, di);
      if rep {
        ecx := SetIndex(wide, ecx, count);
      }
    }
  }

  lemma RepeatedNever(c: Cpu, op: Op, w: Width, repZero: bool)
    requires Sound(c)
    ensures Count(c) == 0 ==> Repeated(c, op, w, repZero) == c
  {
  }

  lemma CompareStarts(c: Cpu, w: Width, rep: bool, si: nat, di: nat, count: nat)
    requires Sound(c) && si == Index(c.wide, c.esi) && di == Index(c.wide, c.edi) && (rep ==> count == Count(c))
    ensures Placed(Behind(c, w, false, 0, 0), si, di, if rep then count else 0, rep) == c
  {
    PlacedSame(c, rep);
    PlacedUncounted(c, si, di, Count(c));
  }

  lemma CompareOnce(c: Cpu, op: Op, w: Width, started: bool, a: nat, b: nat, si: nat, di: nat)
    requires Sound(c) && Compares(op) && Operands(w, started, a, b) && si < Modulus(c.wide) && di < Modulus(c.wide)
    ensures Sound(Behind(c, w, started, a, b))
    ensures Placed(Behind(c, w, true, Left(c, op, w, si), Right(c, w, di)), if op == CMPS then Advance(c, si, w) else si,
                   Advance(c, di, w), 0, false)
         == Single(Placed(Behind(c, w, started, a, b), si, di, 0, false), op, w)
  {
    hide Load, Compared, LazyFlags.Low, Phys, LazyFlags.Ok, SetIndex, Turn, Single, LazyFlags.GetZF, Sound;
    SoundOk(c);
    CompareTurn(c, op, w, started, a, b, si, di);
    TurnIsSingle(Behind(c, w, started, a, b), op, w, si, di, 0, false);
  }
}
