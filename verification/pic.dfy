/** core/pic.c: the two cascaded interrupt controllers. The word `irq_check` is
    modelled by the set of its one bits. */
module PicModel {
  import opened Basics

  const IRQS := 16
  const NO_IRQ := 0xff

  /** IRQ_priority_order and IRQ_priority_lookup. */
  const ORDER: PriorityOrder := [0, 1, 2, 8, 9, 10, 11, 12, 13, 14, 15, 3, 4, 5, 6, 7]
  const LOOKUP: PriorityLookup := [0, 1, 2, 11, 12, 13, 14, 15, 3, 4, 5, 6, 7, 8, 9, 10, 16]

  /** An order of the IRQs, and a table of priorities with one place more for "none". */
  type PriorityOrder = o: seq<nat> | |o| == IRQS && forall j | 0 <= j < |o| :: o[j] < IRQS
    witness seq(IRQS, _ => 0)
  type PriorityLookup = l: seq<nat> | |l| == IRQS + 1 && forall i | 0 <= i < |l| :: l[i] <= IRQS
    witness seq(IRQS + 1, _ => 0)

  datatype Irq = Irq(masked: bool, active: bool, inservice: bool, vector: nat)

  datatype Controller = Controller(
    icwWords: nat, icwIndex: nat, special: bool, autoEoi: bool,
    rotateOnAutoEoi: bool, single: bool, requestIssr: bool)

  /** The controllers without the cached mask `irq_check`, which `Agrees` fixes. */
  datatype Pic = Pic(irqs: seq<Irq>, active: nat, ctl: seq<Controller>, specialMode: bool)

  predicate WellFormed(p: Pic) {
    && |p.irqs| == IRQS && |p.ctl| == 2
    && (p.active < IRQS || p.active == NO_IRQ)
  }

  // ----- the priority tables

  /** The two tables are permutations of the IRQs and inverse to each other. */
  ghost predicate Tables(order: PriorityOrder, lookup: PriorityLookup) {
    && |lookup| == IRQS + 1 && lookup[IRQS] == IRQS
    && (forall j | 0 <= j < IRQS :: lookup[order[j]] == j)
    && (forall i | 0 <= i < IRQS :: lookup[i] < IRQS && order[lookup[i]] == i)
  }

  lemma TablesAreInverse()
    ensures Tables(ORDER, LOOKUP)
  {
    forall j: nat | j < IRQS ensures ORDER[j] < IRQS && LOOKUP[ORDER[j]] == j {
      assert j == 0 || j == 1 || j == 2 || j == 3 || j == 4 || j == 5 || j == 6 || j == 7
          || j == 8 || j == 9 || j == 10 || j == 11 || j == 12 || j == 13 || j == 14 || j == 15;
    }
    forall i: nat | i < IRQS ensures LOOKUP[i] < IRQS && ORDER[LOOKUP[i]] == i {
      assert i == 0 || i == 1 || i == 2 || i == 3 || i == 4 || i == 5 || i == 6 || i == 7
          || i == 8 || i == 9 || i == 10 || i == 11 || i == 12 || i == 13 || i == 14 || i == 15;
    }
  }

  // ----- the cached mask

  /** An IRQ the cached mask must show: raised, unmasked and, on the second
      controller, not held back by the mask of the cascade line. */
  predicate Wanted(irqs: seq<Irq>, i: nat)
    requires |irqs| == IRQS && i < IRQS
  {
    irqs[i].active && !irqs[i].masked && (i > 7 ==> !irqs[2].masked)
  }

  ghost predicate Agrees(check: set<nat>, irqs: seq<Irq>)
    requires |irqs| == IRQS
  {
    forall i: nat :: i in check <==> i < IRQS && Wanted(irqs, i)
  }

  /** The decode loop's cheap test `irq_check != 0` skips no deliverable IRQ. */
  lemma CheapTestIsExact(check: set<nat>, irqs: seq<Irq>)
    requires |irqs| == IRQS && Agrees(check, irqs)
    ensures check != {} <==> exists i: nat :: i < IRQS && Wanted(irqs, i)
  {
    if check != {} {
      var i :| i in check;
      assert Wanted(irqs, i);
    }
  }

  // ----- operations on values

  function Activate(p: Pic, irq: nat): Pic
    requires |p.irqs| == IRQS && irq < IRQS
  {
    p.(irqs := p.irqs[irq := p.irqs[irq].(active := true)])
  }

  function Deactivate(p: Pic, irq: nat): Pic
    requires |p.irqs| == IRQS
  {
    if irq < IRQS then p.(irqs := p.irqs[irq := p.irqs[irq].(active := false)]) else p
  }

  function SetMask(p: Pic, irq: nat, masked: bool): Pic
    requires |p.irqs| == IRQS && irq < IRQS
  {
    p.(irqs := p.irqs[irq := p.irqs[irq].(masked := masked)])
  }

  function Prio(irq: nat): (r: nat)
    ensures r <= IRQS
  {
    if irq < IRQS then LOOKUP[irq] else LOOKUP[IRQS]
  }

  /** The eight mask bits of an OCW1 byte. */
  function WithMasks(irqs: seq<Irq>, base: nat, val: bv8, n: nat): (r: seq<Irq>)
    requires |irqs| == IRQS && base + 8 <= IRQS && n <= 8
    ensures |r| == IRQS
  {
    seq(IRQS, i requires 0 <= i < IRQS =>
      if base <= i < base + n then irqs[i].(masked := HasBit(val, i - base)) else irqs[i])
  }

  function WithVectors(irqs: seq<Irq>, base: nat, val: bv8, n: nat): (r: seq<Irq>)
    requires |irqs| == IRQS && base + 8 <= IRQS && n <= 8
    ensures |r| == IRQS
  {
    seq(IRQS, i requires 0 <= i < IRQS =>
      if base <= i < base + n then irqs[i].(vector := (val & 0xf8) as nat + (i - base)) else irqs[i])
  }

  /** The first IRQ of a priority order, from position j, that is in service. */
  function FirstInService(irqs: seq<Irq>, order: PriorityOrder, j: nat): (r: nat)
    requires |irqs| == IRQS && j <= IRQS
    ensures r < IRQS || r == NO_IRQ
    decreases IRQS - j
  {
    if j == IRQS then NO_IRQ
    else if irqs[order[j]].inservice then order[j]
    else FirstInService(irqs, order, j + 1)
  }

  /** An end-of-interrupt that takes effect: the active IRQ leaves service and the
      next one in service becomes the active one. */
  function EndActive(p: Pic): Pic
    requires |p.irqs| == IRQS && p.active < IRQS
  {
    var irqs := p.irqs[p.active := p.irqs[p.active].(inservice := false)];
    p.(irqs := irqs, active := FirstInService(irqs, ORDER, 0))
  }

  predicate HasBit(x: bv8, i: nat)
    requires i < 8
  {
    x & (1 << i) != 0
  }

  function Base(slave: bool): nat { if slave then 8 else 0 }

  /** The guards of the two end-of-interrupt commands (OCW2). */
  predicate SpecificEoiHits(p: Pic, slave: bool, val: bv8) {
    p.active == Base(slave) + val as nat - 0x60
  }

  lemma SpecificInRange(val: bv8)
    requires CommandHandled(val) && val & 0x18 == 0 && val & 0x60 == 0x60
    ensures 0x60 <= val as nat < 0x68
  {
    assert 0x60 <= val < 0x68;
  }

  predicate NonspecificEoiHits(p: Pic, slave: bool) {
    p.active < Base(slave) + 8
  }

  /** The IRQ dp_pic_run_irqs starts in normal mode, searching priorities j.. */
  function Pick(irqs: seq<Irq>, order: PriorityOrder, j: nat, limit: nat): (r: Option<nat>)
    requires |irqs| == IRQS && j <= limit <= IRQS
    ensures r.Some? ==> r.value < IRQS
    decreases limit - j
  {
    if j == limit then None
    else if Wanted(irqs, order[j]) then Some(order[j])
    else Pick(irqs, order, j + 1, limit)
  }

  /** dp_pic_start_irq for an IRQ that may start. */
  function Start(p: Pic, i: nat): Pic
    requires |p.irqs| == IRQS && |p.ctl| == 2 && i < IRQS
  {
    var autoEoi := p.ctl[if i > 7 then 1 else 0].autoEoi;
    var irq := p.irqs[i].(active := false);
    if autoEoi then p.(irqs := p.irqs[i := irq])
    else p.(irqs := p.irqs[i := irq.(inservice := true)], active := i)
  }

  function RunIrqs(p: Pic): Pic
    requires WellFormed(p)
  {
    match Pick(p.irqs, ORDER, 0, Prio(p.active))
    case Some(i) => Start(p, i)
    case None => p
  }

  function Side(slave: bool): nat { if slave then 1 else 0 }

  function NextIcw(c: Controller, skipIcw3: bool): Controller {
    c.(icwIndex := if c.icwIndex >= c.icwWords then 0
                   else if skipIcw3 && c.single then 3
                   else c.icwIndex + 1)
  }

  /** write_data: a mask byte, or the next initialization word. */
  function WriteData(p: Pic, slave: bool, val: bv8): Pic
    requires WellFormed(p)
  {
    var k, c := Side(slave), p.ctl[Side(slave)];
    match c.icwIndex
    case 0 => p.(irqs := WithMasks(p.irqs, Base(slave), val, 8))
    case 1 => p.(irqs := WithVectors(p.irqs, Base(slave), val, 8), ctl := p.ctl[k := NextIcw(c, true)])
    case 2 => p.(ctl := p.ctl[k := NextIcw(c, false)])
    case 3 => p.(ctl := p.ctl[k := NextIcw(c.(autoEoi := val & 0x02 != 0), false)])
    case _ => p
  }

  /** The command bytes write_command does not abort on. */
  predicate CommandHandled(val: bv8) {
    if val & 0x10 != 0 then val & 0xec == 0
    else if val & 0x08 != 0 then val & 0x04 == 0
    else val & 0x20 != 0 ==> val & 0x80 == 0
  }

  predicate DataHandled(p: Pic, slave: bool, val: bv8)
    requires |p.ctl| == 2
  {
    p.ctl[Side(slave)].icwIndex == 3 ==> val & 0x01 != 0
  }

  predicate EoiHits(p: Pic, slave: bool, val: bv8)
    requires WellFormed(p)
  {
    && val & 0x18 == 0 && val & 0x20 != 0
    && if val & 0x40 != 0 then SpecificEoiHits(p, slave, val) else NonspecificEoiHits(p, slave)
  }

  /** write_command */
  function WriteCommand(p: Pic, slave: bool, val: bv8): Pic
    requires WellFormed(p) && CommandHandled(val)
  {
    var k, c := Side(slave), p.ctl[Side(slave)];
    if val & 0x10 != 0 then
      p.(ctl := p.ctl[k := c.(single := val & 0x02 != 0, icwIndex := 1, icwWords := if val & 0x01 != 0 then 3 else 2)])
    else if val & 0x08 != 0 then
      var c1 := if val & 0x02 != 0 then c.(requestIssr := val & 0x01 != 0) else c;
      if val & 0x40 != 0 then
        var ctl := p.ctl[k := c1.(special := val & 0x20 != 0)];
        p.(ctl := ctl, specialMode := ctl[0].special || ctl[1].special)
      else p.(ctl := p.ctl[k := c1])
    else if val & 0x20 != 0 then
      if EoiHits(p, slave, val) && p.active < IRQS then EndActive(p) else p
    else if val & 0x40 == 0 then
      p.(ctl := p.ctl[k := c.(rotateOnAutoEoi := val & 0x80 != 0)])
    else p
  }

  // ----- nesting is a stack

  /** The IRQs in service from priority j on, best first. */
  function InService(irqs: seq<Irq>, order: PriorityOrder, j: nat): (r: seq<nat>)
    requires |irqs| == IRQS && j <= IRQS
    decreases IRQS - j
  {
    if j == IRQS then []
    else if irqs[order[j]].inservice then [order[j]] + InService(irqs, order, j + 1)
    else InService(irqs, order, j + 1)
  }

  /** The head of the list is what FirstInService finds, and the list holds the
      IRQs in service and no other. */
  lemma {:induction false} TopOfStack(irqs: seq<Irq>, order: PriorityOrder, lookup: PriorityLookup, j: nat)
    requires |irqs| == IRQS && Tables(order, lookup) && j <= IRQS
    ensures var s := InService(irqs, order, j);
      FirstInService(irqs, order, j) == if s == [] then NO_IRQ else s[0]
    ensures forall i: nat | i < IRQS && lookup[i] >= j :: irqs[i].inservice <==> i in InService(irqs, order, j)
    ensures forall i | i in InService(irqs, order, j) :: i < IRQS && lookup[i] >= j
    decreases IRQS - j
  {
    if j < IRQS {
      TopOfStack(irqs, order, lookup, j + 1);
    }
  }

  /** Only the in-service bits from position j matter. */
  lemma {:induction false} InServiceFrame(irqs: seq<Irq>, irqs': seq<Irq>, order: PriorityOrder, j: nat)
    requires |irqs| == |irqs'| == IRQS && j <= IRQS
    requires forall k | j <= k < IRQS :: irqs'[order[k]].inservice == irqs[order[k]].inservice
    ensures InService(irqs', order, j) == InService(irqs, order, j)
    ensures FirstInService(irqs', order, j) == FirstInService(irqs, order, j)
    decreases IRQS - j
  {
    if j < IRQS {
      InServiceFrame(irqs, irqs', order, j + 1);
    }
  }

  /** Taking the first IRQ in service out of service drops the head of the list. */
  lemma {:induction false} ServiceEnds(irqs: seq<Irq>, order: PriorityOrder, lookup: PriorityLookup, j: nat, i: nat)
    requires |irqs| == IRQS && Tables(order, lookup) && j <= IRQS
    requires i < IRQS && FirstInService(irqs, order, j) == i
    ensures InService(irqs, order, j) == [i] + InService(irqs[i := irqs[i].(inservice := false)], order, j)
    decreases IRQS - j
  {
    var irqs' := irqs[i := irqs[i].(inservice := false)];
    if irqs[order[j]].inservice {
      forall k | j + 1 <= k < IRQS ensures order[k] != i {
        assert lookup[order[k]] == k;
      }
      InServiceFrame(irqs, irqs', order, j + 1);
    } else {
      ServiceEnds(irqs, order, lookup, j + 1, i);
      assert !irqs'[order[j]].inservice;
    }
  }

  /** Putting an IRQ in service that outranks all others adds it at the head. */
  lemma {:induction false} ServiceStarts(irqs: seq<Irq>, order: PriorityOrder, lookup: PriorityLookup, j: nat, i: nat, irq: Irq)
    requires |irqs| == IRQS && Tables(order, lookup)
    requires i < IRQS && j <= lookup[i] && irq.inservice
    requires FirstInService(irqs, order, j) == NO_IRQ || lookup[i] < lookup[FirstInService(irqs, order, j)]
    ensures InService(irqs[i := irq], order, j) == [i] + InService(irqs, order, j)
    ensures FirstInService(irqs[i := irq], order, j) == i
    decreases IRQS - j
  {
    assert lookup[order[j]] == j && order[lookup[i]] == i;
    assert !irqs[order[j]].inservice;
    if order[j] == i {
      forall k | j + 1 <= k < IRQS ensures order[k] != i {
        assert lookup[order[k]] == k;
      }
      InServiceFrame(irqs, irqs[i := irq], order, j + 1);
    } else {
      ServiceStarts(irqs, order, lookup, j + 1, i, irq);
    }
  }

  /** dp_pic_run_irqs finds the best-priority wanted IRQ within the limit. */
  lemma {:induction false} PickIsBest(irqs: seq<Irq>, order: PriorityOrder, lookup: PriorityLookup, j: nat, limit: nat)
    requires |irqs| == IRQS && Tables(order, lookup) && j <= limit <= IRQS
    ensures var r := Pick(irqs, order, j, limit);
      && (r.Some? ==> Wanted(irqs, r.value) && j <= lookup[r.value] < limit)
      && (forall i: nat | i < IRQS && j <= lookup[i] < limit && Wanted(irqs, i) ::
            r.Some? && lookup[r.value] <= lookup[i])
    decreases limit - j
  {
    if j < limit && !Wanted(irqs, order[j]) {
      PickIsBest(irqs, order, lookup, j + 1, limit);
      forall i: nat | i < IRQS && j <= lookup[i] < limit && Wanted(irqs, i) ensures lookup[i] >= j + 1 {
        assert order[lookup[i]] == i;
      }
    }
  }

  function Stack(p: Pic): seq<nat>
    requires |p.irqs| == IRQS
  {
    InService(p.irqs, ORDER, 0)
  }

  /** `active` is the best IRQ in service, or none. */
  ghost predicate Nested(p: Pic) {
    && WellFormed(p) && !p.specialMode && !p.ctl[0].special && !p.ctl[1].special
    && p.active == FirstInService(p.irqs, ORDER, 0)
  }

  /** Everything that can happen to the controllers. */
  datatype PicOp =
    | Raise(irq: nat)
    | Lower(irq: nat)
    | MaskIrq(irq: nat, masked: bool)
    | DataByte(slave: bool, val: bv8)
    | CommandByte(slave: bool, val: bv8)
    | Dispatch

  /** Calls the program can make without aborting and without special mask mode. */
  predicate Allowed(p: Pic, op: PicOp)
    requires WellFormed(p)
  {
    match op
    case Raise(irq) => irq < IRQS
    case Lower(irq) => true
    case MaskIrq(irq, _) => irq < IRQS
    case DataByte(slave, val) => DataHandled(p, slave, val)
    case CommandByte(_, val) => CommandHandled(val) && (val & 0x18 == 0x08 ==> val & 0x60 != 0x60)
    case Dispatch => RotationOff(p)
  }

  predicate RotationOff(p: Pic)
    requires |p.ctl| == 2
  {
    forall k | 0 <= k < 2 :: !(p.ctl[k].autoEoi && p.ctl[k].rotateOnAutoEoi)
  }

  function Step(p: Pic, op: PicOp): Pic
    requires WellFormed(p) && Allowed(p, op)
  {
    match op
    case Raise(irq) => Activate(p, irq)
    case Lower(irq) => Deactivate(p, irq)
    case MaskIrq(irq, masked) => SetMask(p, irq, masked)
    case DataByte(slave, val) => WriteData(p, slave, val)
    case CommandByte(slave, val) => WriteCommand(p, slave, val)
    case Dispatch => RunIrqs(p)
  }

  datatype Effect = Push(irq: nat) | Pop | Keep

  /** What a call does to the interrupts in service. */
  function EffectOf(p: Pic, op: PicOp): Effect
    requires WellFormed(p)
  {
    match op
    case CommandByte(slave, val) =>
      if EoiHits(p, slave, val) && p.active < IRQS then Pop else Keep
    case Dispatch =>
      (match Pick(p.irqs, ORDER, 0, Prio(p.active))
       case Some(i) => if p.ctl[if i > 7 then 1 else 0].autoEoi then Keep else Push(i)
       case None => Keep)
    case _ => Keep
  }

  function ApplyEffect(s: seq<nat>, e: Effect): seq<nat> {
    match e
    case Push(i) => [i] + s
    case Pop => if s == [] then [] else s[1..]
    case Keep => s
  }

  lemma SameService(irqs: seq<Irq>, irqs': seq<Irq>, order: PriorityOrder)
    requires |irqs| == |irqs'| == IRQS
    requires forall i | 0 <= i < IRQS :: irqs'[i].inservice == irqs[i].inservice
    ensures InService(irqs', order, 0) == InService(irqs, order, 0)
    ensures FirstInService(irqs', order, 0) == FirstInService(irqs, order, 0)
  {
    InServiceFrame(irqs, irqs', order, 0);
  }

  lemma KeepsService(p: Pic, p': Pic)
    requires Nested(p) && WellFormed(p') && p'.active == p.active
    requires !p'.specialMode && !p'.ctl[0].special && !p'.ctl[1].special
    requires forall i | 0 <= i < IRQS :: p'.irqs[i].inservice == p.irqs[i].inservice
    ensures Nested(p') && Stack(p') == Stack(p)
  {
    SameService(p.irqs, p'.irqs, ORDER);
  }

  lemma EoiPops(p: Pic)
    requires Nested(p) && p.active < IRQS
    ensures Nested(EndActive(p))
    ensures Stack(p) == [p.active] + Stack(EndActive(p))
  {
    TablesAreInverse();
    ServiceEnds(p.irqs, ORDER, LOOKUP, 0, p.active);
  }

  /** A started IRQ outranks everything in service ... */
  lemma PickOutranks(irqs: seq<Irq>, order: PriorityOrder, lookup: PriorityLookup, i: nat)
    requires |irqs| == IRQS && Tables(order, lookup)
    requires var top := FirstInService(irqs, order, 0);
      Pick(irqs, order, 0, if top < IRQS then lookup[top] else IRQS) == Some(i)
    ensures i < IRQS && Wanted(irqs, i)
    ensures forall k | k in InService(irqs, order, 0) :: k < IRQS && lookup[i] < lookup[k]
    ensures FirstInService(irqs, order, 0) == NO_IRQ || lookup[i] < lookup[FirstInService(irqs, order, 0)]
  {
    var top := FirstInService(irqs, order, 0);
    PickIsBest(irqs, order, lookup, 0, if top < IRQS then lookup[top] else IRQS);
    TopIsBest(irqs, order, lookup, 0);
  }

  /** ... and becomes the top, unless its controller ends interrupts by itself. */
  lemma DispatchPushes(p: Pic, i: nat)
    requires Nested(p) && Pick(p.irqs, ORDER, 0, Prio(p.active)) == Some(i)
    ensures i < IRQS && Wanted(p.irqs, i)
    ensures forall k | k in Stack(p) :: Prio(i) < Prio(k)
    ensures Nested(Start(p, i))
    ensures Stack(Start(p, i)) == if p.ctl[if i > 7 then 1 else 0].autoEoi then Stack(p) else [i] + Stack(p)
  {
    TablesAreInverse();
    PickOutranks(p.irqs, ORDER, LOOKUP, i);
    if p.ctl[if i > 7 then 1 else 0].autoEoi {
      KeepsService(p, Start(p, i));
    } else {
      ServiceStarts(p.irqs, ORDER, LOOKUP, 0, i, p.irqs[i].(active := false, inservice := true));
    }
  }

  /** dp_pic_run_irqs starts the best-priority IRQ shown by the mask above the
      active one, and changes nothing exactly when the mask shows none there. */
  lemma RunIrqsStartsBest(p: Pic, check: set<nat>)
    requires WellFormed(p) && Agrees(check, p.irqs)
    ensures forall i | i in check && Prio(i) < Prio(p.active) :: RunIrqs(p) != p
    ensures RunIrqs(p) != p ==> exists i :: StartedBest(p, check, i)
  {
    TablesAreInverse();
    PickIsBest(p.irqs, ORDER, LOOKUP, 0, Prio(p.active));
    var r := Pick(p.irqs, ORDER, 0, Prio(p.active));
    if r.Some? {
      assert p.irqs[r.value].active && !Start(p, r.value).irqs[r.value].active;
      assert StartedBest(p, check, r.value);
    }
  }

  /** An empty mask means there is nothing to run, so the test may skip the call. */
  lemma EmptyMaskSkips(p: Pic)
    requires WellFormed(p) && Agrees({}, p.irqs)
    ensures RunIrqs(p) == p
  {
    RunIrqsStartsBest(p, {});
  }

  ghost predicate StartedBest(p: Pic, check: set<nat>, i: nat)
    requires WellFormed(p)
  {
    && i in check && i < IRQS && Prio(i) < Prio(p.active) && RunIrqs(p) == Start(p, i)
    && (forall k | k in check && k < IRQS :: Prio(i) <= Prio(k))
  }

  lemma {:induction false} TopIsBest(irqs: seq<Irq>, order: PriorityOrder, lookup: PriorityLookup, j: nat)
    requires |irqs| == IRQS && Tables(order, lookup) && j <= IRQS
    ensures forall k | k in InService(irqs, order, j) ::
      k < IRQS && FirstInService(irqs, order, j) < IRQS
      && j <= lookup[FirstInService(irqs, order, j)] <= lookup[k]
    decreases IRQS - j
  {
    if j < IRQS {
      TopIsBest(irqs, order, lookup, j + 1);
    }
  }

  /** A command byte that ends no interrupt leaves the IRQs alone. */
  lemma CommandKeeps(p: Pic, slave: bool, val: bv8)
    requires Nested(p) && Allowed(p, CommandByte(slave, val))
    requires !(EoiHits(p, slave, val) && p.active < IRQS)
    ensures var p' := WriteCommand(p, slave, val);
      && p'.irqs == p.irqs && p'.active == p.active && |p'.ctl| == 2
      && !p'.specialMode && !p'.ctl[0].special && !p'.ctl[1].special
  {
  }

  /** A data byte changes masks, vectors or the initialization state. */
  lemma DataKeeps(p: Pic, slave: bool, val: bv8)
    requires Nested(p)
    ensures var p' := WriteData(p, slave, val);
      && |p'.irqs| == IRQS && p'.active == p.active && |p'.ctl| == 2
      && (forall i | 0 <= i < IRQS :: p'.irqs[i].inservice == p.irqs[i].inservice)
      && !p'.specialMode && !p'.ctl[0].special && !p'.ctl[1].special
  {
    hide FirstInService;
  }

  /** One call keeps the nesting and changes the stack as its effect says. */
  lemma StepNesting(p: Pic, op: PicOp)
    requires Nested(p) && Allowed(p, op)
    ensures Nested(Step(p, op))
    ensures Stack(Step(p, op)) == ApplyEffect(Stack(p), EffectOf(p, op))
  {
    match op {
      case CommandByte(slave, val) =>
        if EoiHits(p, slave, val) && p.active < IRQS {
          EoiPops(p);
        } else {
          CommandKeeps(p, slave, val);
          KeepsService(p, Step(p, op));
        }
      case DataByte(slave, val) =>
        DataKeeps(p, slave, val);
        KeepsService(p, Step(p, op));
      case Dispatch =>
        if Pick(p.irqs, ORDER, 0, Prio(p.active)).Some? {
          DispatchPushes(p, Pick(p.irqs, ORDER, 0, Prio(p.active)).value);
        }
      case _ =>
        LineKeeps(p, op);
    }
  }

  /** Raising, lowering and masking a line leaves the service bits alone. */
  lemma LineKeeps(p: Pic, op: PicOp)
    requires Nested(p) && Allowed(p, op) && (op.Raise? || op.Lower? || op.MaskIrq?)
    ensures Nested(Step(p, op)) && Stack(Step(p, op)) == Stack(p)
  {
    KeepsService(p, Step(p, op));
  }

  /** Every newly started IRQ outranks all others in service; an end-of-interrupt
      takes effect on the top one only. */
  lemma EffectsRespectPriority(p: Pic, op: PicOp)
    requires Nested(p) && Allowed(p, op)
    ensures EffectOf(p, op).Push? ==> forall k | k in Stack(p) :: Prio(EffectOf(p, op).irq) < Prio(k)
    ensures EffectOf(p, op).Pop? ==> Stack(p) != [] && Stack(p)[0] == p.active
  {
    if EffectOf(p, op).Push? {
      DispatchPushes(p, EffectOf(p, op).irq);
    } else if EffectOf(p, op).Pop? {
      EoiPops(p);
    }
  }

  function Run(p: Pic, ops: seq<PicOp>): Pic
    requires WellFormed(p) && AllAllowed(p, ops)
    decreases |ops|
  {
    if ops == [] then p else Run(Step(p, ops[0]), ops[1..])
  }

  predicate AllAllowed(p: Pic, ops: seq<PicOp>)
    requires WellFormed(p)
    decreases |ops|
  {
    ops != [] ==> Allowed(p, ops[0]) && WellFormed(Step(p, ops[0])) && AllAllowed(Step(p, ops[0]), ops[1..])
  }

  /** The stack a plain list of pushes and pops gives for the same calls. */
  function StackRun(p: Pic, ops: seq<PicOp>, s: seq<nat>): seq<nat>
    requires WellFormed(p) && AllAllowed(p, ops)
    decreases |ops|
  {
    if ops == [] then s
    else StackRun(Step(p, ops[0]), ops[1..], ApplyEffect(s, EffectOf(p, ops[0])))
  }

  /** Over any run without special mask mode the IRQs in service behave as a
      stack, and `active` is its top. */
  lemma {:induction false} NestingIsAStack(p: Pic, ops: seq<PicOp>)
    requires Nested(p) && AllAllowed(p, ops)
    ensures var q := Run(p, ops);
      && Nested(q)
      && Stack(q) == StackRun(p, ops, Stack(p))
      && q.active == (if Stack(q) == [] then NO_IRQ else Stack(q)[0])
      && (forall i: nat | i < IRQS :: q.irqs[i].inservice <==> i in Stack(q))
    decreases |ops|
  {
    if ops == [] {
      TablesAreInverse();
      TopOfStack(p.irqs, ORDER, LOOKUP, 0);
    } else {
      StepNesting(p, ops[0]);
      NestingIsAStack(Step(p, ops[0]), ops[1..]);
    }
  }

  class PicDevice {
    const irqs: array<Irq>
    const pics: array<Controller>
    var irqCheck: set<nat>
    var active: nat
    var specialMode: bool

    ghost predicate Valid()
      reads this, irqs, pics
    {
      && irqs.Length == IRQS && pics.Length == 2
      && WellFormed(View())
      && Agrees(irqCheck, irqs[..])
    }

    ghost function View(): Pic
      reads this, irqs, pics
    {
      Pic(irqs[..], active, pics[..], specialMode)
    }

    /** dp_pic_init */
    constructor ()
      ensures Valid() && fresh(irqs) && fresh(pics)
      ensures Nested(View()) && Stack(View()) == []
    {
      irqCheck, active, specialMode := {}, NO_IRQ, false;
      irqs := new Irq[IRQS](i requires 0 <= i < IRQS =>
        Irq(i != 0 && i != 1 && i != 2 && i != 8, false, false, if i < 8 then 8 + i else 0x70 + (i - 8)));
      pics := new Controller[2](_ => Controller(0, 0, false, false, false, false, false));
      new;
      NothingInService(irqs[..], ORDER, 0);
    }

    /** Sets or clears bit i of the mask. */
    method UpdateCheck(i: nat, wanted: bool)
      modifies this`irqCheck
      ensures irqCheck == if wanted then old(irqCheck) + {i} else old(irqCheck) - {i}
    {
      irqCheck := if wanted then irqCheck + {i} else irqCheck - {i};
    }

    /** The second controller's bits after the mask of the cascade line changed. */
    method RecheckSecond()
      requires irqs.Length == IRQS
      requires forall i | i in irqCheck :: i < IRQS
      requires forall i: nat | i < 8 :: i in irqCheck <==> Wanted(irqs[..], i)
      modifies this`irqCheck
      ensures Agrees(irqCheck, irqs[..])
    {
      for i := 8 to IRQS
        invariant forall k | k in irqCheck :: k < IRQS
        invariant forall k: nat | k < i :: k in irqCheck <==> Wanted(irqs[..], k)
      {
        UpdateCheck(i, irqs[i].active && !irqs[i].masked && !irqs[2].masked);
      }
    }

    /** dp_pic_activate_irq */
    method ActivateIrq(irq: nat)
      requires Valid() && irq < IRQS
      modifies this`irqCheck, irqs
      ensures Valid() && View() == Activate(old(View()), irq)
    {
      irqs[irq] := irqs[irq].(active := true);
      if irq < 8 {
        if !irqs[irq].masked {
          UpdateCheck(irq, true);
        }
      } else if !irqs[irq].masked && !irqs[2].masked {
        UpdateCheck(irq, true);
      }
    }

    /** dp_pic_deactivate_irq */
    method DeactivateIrq(irq: nat)
      requires Valid()
      modifies this`irqCheck, irqs
      ensures Valid() && View() == Deactivate(old(View()), irq)
    {
      if irq < IRQS {
        irqs[irq] := irqs[irq].(active := false);
        UpdateCheck(irq, false);
      }
    }

    /** dp_pic_set_irq_mask */
    method SetIrqMask(irq: nat, masked: bool)
      requires Valid() && irq < IRQS
      modifies this`irqCheck, irqs
      ensures Valid() && View() == SetMask(old(View()), irq, masked)
    {
      if irqs[irq].masked == masked {
        assert irqs[..] == old(irqs[..])[irq := old(irqs[irq]).(masked := masked)];
        return;
      }
      var oldIrq2Mask := irqs[2].masked;
      irqs[irq] := irqs[irq].(masked := masked);
      UpdateCheck(irq, irqs[irq].active && !irqs[irq].masked && (irq < 8 || !irqs[2].masked));
      if irqs[2].masked != oldIrq2Mask {
        RecheckSecond();
      }
    }

    /** The mask register write of write_data. */
    method WriteMask(slave: bool, val: bv8)
      requires Valid()
      modifies this`irqCheck, irqs
      ensures Valid()
      ensures irqs[..] == WithMasks(old(irqs[..]), Base(slave), val, 8)
    {
      var base, oldIrq2Mask := Base(slave), irqs[2].masked;
      ghost var was := irqs[..];
      for i := 0 to 8
        invariant irqs[..] == WithMasks(was, base, val, i)
        invariant forall k | k in irqCheck :: k < IRQS
        invariant forall k: nat | base <= k < base + i :: k in irqCheck <==> Wanted(WithMasks(was, base, val, i), k)
        invariant forall k: nat | k < IRQS && !(base <= k < base + i) :: k in irqCheck <==> Wanted(was, k)
      {
        irqs[i + base] := irqs[i + base].(masked := HasBit(val, i));
        UpdateCheck(i + base, irqs[i + base].active && !irqs[i + base].masked && (!slave || !irqs[2].masked));
        assert irqs[..] == WithMasks(was, base, val, i + 1);
      }
      if irqs[2].masked != oldIrq2Mask {
        RecheckSecond();
      }
    }

    /** write_data */
    method WriteDataPort(slave: bool, val: bv8)
      requires Valid() && DataHandled(View(), slave, val)
      modifies this`irqCheck, irqs, pics
      ensures Valid() && View() == WriteData(old(View()), slave, val)
    {
      var k := Side(slave);
      match pics[k].icwIndex
      case 0 =>
        WriteMask(slave, val);
      case 1 =>
        WriteVectors(slave, val);
        pics[k] := NextIcw(pics[k], true);
      case 2 =>
        pics[k] := NextIcw(pics[k], false);
      case 3 =>
        pics[k] := NextIcw(pics[k].(autoEoi := val & 0x02 != 0), false);
      case _ =>
    }

    method WriteVectors(slave: bool, val: bv8)
      requires Valid()
      modifies irqs
      ensures Valid()
      ensures irqs[..] == WithVectors(old(irqs[..]), Base(slave), val, 8)
    {
      var base := Base(slave);
      ghost var was := irqs[..];
      for i := 0 to 8
        invariant irqs[..] == WithVectors(was, base, val, i)
      {
        irqs[i + base] := irqs[i + base].(vector := (val & 0xf8) as nat + i);
      }
      assert forall k: nat | k < IRQS :: Wanted(irqs[..], k) == Wanted(was, k);
    }

    /** The loop of both end-of-interrupt commands. */
    method EndActiveIrq()
      requires Valid() && active < IRQS
      modifies this`active, irqs
      ensures Valid() && View() == EndActive(old(View()))
    {
      ghost var irqs' := irqs[..][active := irqs[active].(inservice := false)];
      irqs[active] := irqs[active].(inservice := false);
      assert irqs[..] == irqs';
      active := NO_IRQ;
      var i := 0;
      while i < IRQS
        invariant 0 <= i <= IRQS && active == NO_IRQ
        invariant FirstInService(irqs', ORDER, 0) == FirstInService(irqs', ORDER, i)
      {
        if irqs[ORDER[i]].inservice {
          active := ORDER[i];
          break;
        }
        i := i + 1;
      }
      assert forall k: nat | k < IRQS :: Wanted(irqs', k) == Wanted(old(irqs[..]), k);
    }

    /** write_command */
    method WriteCommandPort(slave: bool, val: bv8)
      requires Valid() && CommandHandled(val)
      modifies this`active, this`specialMode, irqs, pics
      ensures Valid() && View() == WriteCommand(old(View()), slave, val)
    {
      var k := Side(slave);
      if val & 0x10 != 0 {
        pics[k] := pics[k].(single := val & 0x02 != 0, icwIndex := 1,
                            icwWords := if val & 0x01 != 0 then 3 else 2);
      } else if val & 0x08 != 0 {
        if val & 0x02 != 0 {
          pics[k] := pics[k].(requestIssr := val & 0x01 != 0);
        }
        if val & 0x40 != 0 {
          pics[k] := pics[k].(special := val & 0x20 != 0);
          specialMode := pics[0].special || pics[1].special;
        }
      } else if val & 0x20 != 0 {
        if val & 0x40 != 0 {
          EndSpecific(slave, val);
        } else if active < Base(slave) + 8 {
          EndActiveIrq();
        }
      } else if val & 0x40 == 0 {
        pics[k] := pics[k].(rotateOnAutoEoi := val & 0x80 != 0);
      }
    }

    method EndSpecific(slave: bool, val: bv8)
      requires Valid() && CommandHandled(val) && val & 0x18 == 0 && val & 0x60 == 0x60
      modifies this`active, irqs
      ensures Valid() && View() == WriteCommand(old(View()), slave, val)
    {
      SpecificInRange(val);
      if active == Base(slave) + val as nat - 0x60 {
        EndActiveIrq();
      }
    }

    /** dp_pic_start_irq; the vector goes to the CPU's interrupt callback. */
    method StartIrq(i: nat) returns (vector: Option<nat>)
      requires Valid() && i < IRQS && irqs[i].active && !irqs[i].masked && RotationOff(View())
      modifies this`irqCheck, this`active, irqs
      ensures Valid()
      ensures vector.Some? <==> old(Wanted(irqs[..], i))
      ensures vector.None? ==> View() == old(View())
      ensures vector.Some? ==> View() == Start(old(View()), i) && vector.value == old(irqs[i].vector)
    {
      if i > 7 && irqs[2].masked {
        return None;
      }
      ghost var was := irqs[..];
      irqs[i] := irqs[i].(active := false);
      UpdateCheck(i, false);
      vector := Some(irqs[i].vector);
      if !pics[if i > 7 then 1 else 0].autoEoi {
        active := i;
        irqs[i] := irqs[i].(inservice := true);
      }
      assert forall k: nat | k < IRQS :: Wanted(irqs[..], k) == (k != i && Wanted(was, k));
    }

    /** dp_pic_run_irqs in normal mode */
    method RunIrqsNow() returns (vector: Option<nat>)
      requires Valid() && !specialMode && RotationOff(View())
      modifies this`irqCheck, this`active, irqs
      ensures Valid() && View() == RunIrqs(old(View()))
      ensures var r := Pick(old(irqs[..]), ORDER, 0, Prio(old(active)));
        vector == if r.Some? then Some(old(irqs[..])[r.value].vector) else None
    {
      var limit := Prio(active);
      vector := None;
      for j := 0 to limit
        invariant Valid() && View() == old(View()) && vector == None
        invariant Pick(irqs[..], ORDER, 0, limit) == Pick(irqs[..], ORDER, j, limit)
      {
        var i := ORDER[j];
        if !irqs[i].masked && irqs[i].active {
          vector := StartIrq(i);
          if vector.Some? {
            return;
          }
        }
      }
    }
  }

  lemma {:induction false} NothingInService(irqs: seq<Irq>, order: PriorityOrder, j: nat)
    requires |irqs| == IRQS && j <= IRQS
    requires forall i | 0 <= i < IRQS :: !irqs[i].inservice
    ensures InService(irqs, order, j) == [] && FirstInService(irqs, order, j) == NO_IRQ
    decreases IRQS - j
  {
    if j < IRQS {
      NothingInService(irqs, order, j + 1);
    }
  }
}
