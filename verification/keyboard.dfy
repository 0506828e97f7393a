/** core/keyboard.c: the keyboard controller, its byte ring and the transfer event
    that moves one byte at a time to port 0x60. */
module KeyboardModel {
  import opened Scheduler

  import TimetrackPool
  import PicModel

  const KEYBUFSIZE := 32
  const KEYDELAY := TICKS_PER_SECOND / 10000 * 3
  const MSEC := TICKS_PER_SECOND / 1000
  const KEYBOARD_PTR := 1
  const ACK := 0xfa

  const PAUSES: seq<nat> := [250, 500, 750, 1000]
  const RATES: seq<nat> := [
    33, 37, 42, 46, 50, 54, 58, 63, 67, 75, 83, 92, 100,
    109, 118, 125, 133, 149, 167, 182, 200, 217, 233,
    250, 270, 303, 333, 370, 400, 435, 476, 500]

  /** A key, by the scan code dp_keyboard_add_key looks up for it. */
  datatype Key = NoKey | Plain(code: nat) | Extended(code: nat) | Pause | PrintScreen

  datatype Command = CmdNone | CmdSetLeds | CmdSetTypeRate | CmdSetOutPort

  datatype Repeat = Repeat(key: Key, wait: nat, pause: nat, rate: nat)

  datatype Kbd = Kbd(
    ring: seq<nat>, repeat: Repeat, command: Command, p60data: nat,
    p60changed: bool, active: bool, scanning: bool, scheduled: bool)

  /** The controller as dp_keyboard_init sets it. */
  const BOOT := Kbd([], Repeat(NoKey, 0, 500, 33), CmdNone, 0, false, true, true, false)

  // ----- the controller's routines on values

  /** A byte put into the ring now would start a transfer event. */
  predicate NeedsEvent(k: Kbd) {
    |k.ring| < KEYBUFSIZE && !k.scheduled && !k.p60changed
  }

  function Schedule(k: Kbd, s: Sched): (Kbd, Sched) {
    (k.(scheduled := true), AddEvent(s, KeyboardTransfer, KEYBOARD_PTR, KEYDELAY))
  }

  /** dp_keyboard_TransferBuffer */
  function TransferBuffer(k: Kbd, p: PicModel.Pic): (Kbd, PicModel.Pic)
    requires |p.irqs| == PicModel.IRQS
  {
    if k.ring == [] then (k.(scheduled := false), p)
    else (k.(scheduled := false, p60changed := true, p60data := k.ring[0], ring := k.ring[1..]),
          PicModel.Activate(p, 1))
  }

  /** dp_keyboard_clear_buffer */
  function ClearBuffer(k: Kbd, s: Sched): (Kbd, Sched) {
    (k.(ring := [], scheduled := false), RemoveEvent(s, KeyboardTransfer))
  }

  /** dp_keyboard_add_buffer */
  function AddBuffer(k: Kbd, s: Sched, data: nat): (Kbd, Sched) {
    if |k.ring| >= KEYBUFSIZE then (k, s)
    else
      var k1 := k.(ring := k.ring + [data]);
      if !k1.scheduled && !k1.p60changed then Schedule(k1, s) else (k1, s)
  }

  /** read_p60; the byte read is p60data. */
  function ReadP60(k: Kbd, s: Sched): (Kbd, Sched) {
    var k1 := k.(p60changed := false);
    if !k1.scheduled && k1.ring != [] then Schedule(k1, s) else (k1, s)
  }

  function ClearThenAck(k: Kbd, s: Sched): (Kbd, Sched) {
    var (k1, s1) := ClearBuffer(k, s);
    AddBuffer(k1, s1, ACK)
  }

  /** The typematic setting a byte stands for. */
  function TypeRate(r: Repeat, val: nat): Repeat
    requires val < 256
  {
    r.(pause := PAUSES[val / 32 % 4], rate := RATES[val % 32])
  }

  /** write_p60 */
  function WriteP60(k: Kbd, s: Sched, val: nat): (Kbd, Sched)
    requires val < 256
  {
    match k.command
    case CmdNone =>
      var command := if val == 0xed then CmdSetLeds else if val == 0xf3 then CmdSetTypeRate else CmdNone;
      var scanning := if val == 0xf4 then true else if val == 0xf5 || val == 0xf6 then false else k.scanning;
      ClearThenAck(k.(command := command, scanning := scanning), s)
    case CmdSetOutPort =>
      (k.(command := CmdNone), s)
    case CmdSetTypeRate =>
      ClearThenAck(k.(repeat := TypeRate(k.repeat, val), command := CmdNone), s)
    case CmdSetLeds =>
      ClearThenAck(k.(command := CmdNone), s)
  }

  /** write_p64 */
  function WriteP64(k: Kbd, s: Sched, val: nat): (Kbd, Sched) {
    if val == 0xae then
      var k1 := k.(active := true);
      if k1.ring != [] && !k1.scheduled && !k1.p60changed then Schedule(k1, s) else (k1, s)
    else if val == 0xad then (k.(active := false), s)
    else if val == 0xd1 then (k.(command := CmdSetOutPort), s)
    else (k, s)
  }

  /** The keys dp_keyboard_add_key does not abort on. */
  predicate Supported(key: Key) {
    key != NoKey
  }

  /** dp_keyboard_add_key */
  function AddKey(k: Kbd, s: Sched, key: Key, pressed: bool): (Kbd, Sched) {
    var up := if pressed then 0 else 0x80;
    match key
    case Pause =>
      var (k1, s1) := AddBuffer(k, s, 0xe1);
      var (k2, s2) := AddBuffer(k1, s1, 29 + up);
      AddBuffer(k2, s2, 69 + up)
    case Plain(code) =>
      AddBuffer(k.(repeat := KeyRepeat(k.repeat, key, pressed)), s, (code + up) % 256)
    case Extended(code) =>
      var (k1, s1) := AddBuffer(k.(repeat := KeyRepeat(k.repeat, key, pressed)), s, 0xe0);
      AddBuffer(k1, s1, (code + up) % 256)
    case _ => (k, s)
  }

  function KeyRepeat(r: Repeat, key: Key, pressed: bool): Repeat {
    if pressed then r.(wait := if r.key == key then r.rate else r.pause, key := key)
    else r.(key := NoKey, wait := 0)
  }

  /** The typematic countdown of dp_keyboard_every_msec. */
  function RepeatKey(k: Kbd, s: Sched): (Kbd, Sched) {
    if k.repeat.wait == 0 then (k, s)
    else
      var k0 := k.(repeat := k.repeat.(wait := k.repeat.wait - 1));
      if k0.repeat.wait == 0 then AddKey(k0, s, k0.repeat.key, true) else (k0, s)
  }

  /** dp_keyboard_every_msec */
  function EveryMsec(k: Kbd, s: Sched): (Kbd, Sched) {
    var (k1, s1) := RepeatKey(k, s);
    (k1, AddEvent(s1, KeyboardEveryMsec, KEYBOARD_PTR, MSEC))
  }

  // ----- what every routine keeps

  /** One transfer event is queued exactly while `scheduled` is set; it is never
      set while a byte on the port is unread; a waiting byte always has one or the
      other to bring it forward. */
  ghost predicate Inv(k: Kbd, s: Sched) {
    && |k.ring| <= KEYBUFSIZE
    && Count(s.queue, KeyboardTransfer) == (if k.scheduled then 1 else 0)
    && !(k.scheduled && k.p60changed)
    && (k.ring != [] ==> k.scheduled || k.p60changed)
    && (k.scheduled ==> k.ring != [])
    && (k.repeat.wait > 0 ==> k.repeat.key.Plain? || k.repeat.key.Extended?)
    && k.repeat.pause >= 2 && k.repeat.rate >= 2
  }

  /** The entries of other callbacks are untouched. */
  ghost predicate OnlyTransfers(s: Sched, s': Sched) {
    OnlyChanges(s, s', KeyboardTransfer)
  }

  lemma AddBufferKeeps(k: Kbd, s: Sched, data: nat)
    requires Inv(k, s)
    ensures var (k', s') := AddBuffer(k, s, data); Inv(k', s') && OnlyTransfers(s, s')
    ensures !NeedsEvent(AddBuffer(k, s, data).0)
  {
    AddChanges(s, KeyboardTransfer, KEYBOARD_PTR, KEYDELAY);
  }

  lemma ReadP60Keeps(k: Kbd, s: Sched)
    requires Inv(k, s)
    ensures var (k', s') := ReadP60(k, s); Inv(k', s') && OnlyTransfers(s, s')
  {
    AddChanges(s, KeyboardTransfer, KEYBOARD_PTR, KEYDELAY);
  }

  lemma WriteP64Keeps(k: Kbd, s: Sched, val: nat)
    requires Inv(k, s)
    ensures var (k', s') := WriteP64(k, s, val); Inv(k', s') && OnlyTransfers(s, s')
  {
    hide AddEvent, Count, Without, DueCount, Calm;
    AddChanges(s, KeyboardTransfer, KEYBOARD_PTR, KEYDELAY);
  }

  lemma ClearBufferKeeps(k: Kbd, s: Sched)
    requires Inv(k, s)
    ensures var (k', s') := ClearBuffer(k, s); Inv(k', s') && OnlyTransfers(s, s')
  {
    RemoveChanges(s, KeyboardTransfer);
  }

  lemma ClearThenAckKeeps(k: Kbd, s: Sched)
    requires Inv(k, s)
    ensures var (k', s') := ClearThenAck(k, s); Inv(k', s') && OnlyTransfers(s, s')
  {
    ClearBufferKeeps(k, s);
    var (k1, s1) := ClearBuffer(k, s);
    AddBufferKeeps(k1, s1, ACK);
  }

  lemma WriteP60Keeps(k: Kbd, s: Sched, val: nat)
    requires Inv(k, s) && val < 256
    ensures var (k', s') := WriteP60(k, s, val); Inv(k', s') && OnlyTransfers(s, s')
  {
    hide ClearThenAck, Count, Without, DueCount, Calm;
    match k.command
    case CmdNone =>
      var command := if val == 0xed then CmdSetLeds else if val == 0xf3 then CmdSetTypeRate else CmdNone;
      var scanning := if val == 0xf4 then true else if val == 0xf5 || val == 0xf6 then false else k.scanning;
      ClearThenAckKeeps(k.(command := command, scanning := scanning), s);
    case CmdSetOutPort =>
    case CmdSetTypeRate =>
      ClearThenAckKeeps(k.(repeat := TypeRate(k.repeat, val), command := CmdNone), s);
    case CmdSetLeds =>
      ClearThenAckKeeps(k.(command := CmdNone), s);
  }

  lemma AddKeyKeeps(k: Kbd, s: Sched, key: Key, pressed: bool)
    requires Inv(k, s)
    ensures var (k', s') := AddKey(k, s, key, pressed); Inv(k', s') && OnlyTransfers(s, s')
  {
    hide AddBuffer, Count, Without, DueCount, Calm;
    var up := if pressed then 0 else 0x80;
    match key
    case Pause =>
      AddBufferKeeps(k, s, 0xe1);
      var (k1, s1) := AddBuffer(k, s, 0xe1);
      AddBufferKeeps(k1, s1, 29 + up);
      var (k2, s2) := AddBuffer(k1, s1, 29 + up);
      AddBufferKeeps(k2, s2, 69 + up);
    case Plain(code) =>
      AddBufferKeeps(k.(repeat := KeyRepeat(k.repeat, key, pressed)), s, (code + up) % 256);
    case Extended(code) =>
      var k0 := k.(repeat := KeyRepeat(k.repeat, key, pressed));
      AddBufferKeeps(k0, s, 0xe0);
      var (k1, s1) := AddBuffer(k0, s, 0xe0);
      AddBufferKeeps(k1, s1, (code + up) % 256);
    case _ =>
  }

  lemma RepeatKeyKeeps(k: Kbd, s: Sched)
    requires Inv(k, s)
    ensures var (k', s') := RepeatKey(k, s); Inv(k', s') && OnlyTransfers(s, s')
  {
    if k.repeat.wait > 0 {
      var k0 := k.(repeat := k.repeat.(wait := k.repeat.wait - 1));
      AddKeyKeeps(k0, s, k0.repeat.key, true);
    }
  }

  /** The periodic event puts itself back. */
  lemma EveryMsecKeeps(k: Kbd, s: Sched)
    requires Inv(k, s)
    ensures Inv(EveryMsec(k, s).0, EveryMsec(k, s).1)
  {
    RepeatKeyKeeps(k, s);
    var s1 := RepeatKey(k, s).1;
    AddChanges(s1, KeyboardEveryMsec, KEYBOARD_PTR, MSEC);
    OthersCounted(s1, EveryMsec(k, s).1, KeyboardEveryMsec, KeyboardTransfer);
  }

  /** The transfer event runs with its entry taken off the queue. There is a byte
      to move, and the port holds no unread byte it could overwrite. */
  lemma TransferKeeps(k: Kbd, s: Sched, p: PicModel.Pic)
    requires Inv(k, s) && Count(s.queue, KeyboardTransfer) > 0 && |p.irqs| == PicModel.IRQS
    ensures k.ring != [] && !k.p60changed
    ensures Inv(TransferBuffer(k, p).0, RemoveEvent(s, KeyboardTransfer))
  {
    RemoveChanges(s, KeyboardTransfer);
  }

  // ----- delivery

  /** The byte on port 0x60 that has not been read. */
  function Unread(k: Kbd): seq<nat> {
    if k.p60changed then [k.p60data] else []
  }

  /** Anything that can happen to the controller without clearing it: keys pressed
      and released, the periodic event, port accesses, its transfer event, and
      whatever the rest of the machine does to the queue and the PIC. */
  datatype KbdOp =
    | KeyEvent(key: Key, pressed: bool)
    | Msec
    | Read
    | Port64(val: nat)
    | Fire
    | Elsewhere(s: Sched, p: PicModel.Pic)

  /** The controller in its surroundings, with the bytes it has accepted and the
      fresh bytes that were read from the port. */
  datatype Delivery = Delivery(k: Kbd, s: Sched, p: PicModel.Pic, accepted: seq<nat>, read: seq<nat>)

  predicate Enabled(d: Delivery, op: KbdOp) {
    match op
    case Fire => Count(d.s.queue, KeyboardTransfer) > 0
    case Elsewhere(s, p) =>
      Count(s.queue, KeyboardTransfer) == Count(d.s.queue, KeyboardTransfer) && |p.irqs| == PicModel.IRQS
    case _ => true
  }

  /** The bytes a routine appended to the ring. */
  function Added(k: Kbd, k': Kbd): seq<nat> {
    if |k.ring| <= |k'.ring| then k'.ring[|k.ring|..] else []
  }

  function Step(d: Delivery, op: KbdOp): Delivery
    requires |d.p.irqs| == PicModel.IRQS
  {
    match op
    case KeyEvent(key, pressed) =>
      var (k, s) := AddKey(d.k, d.s, key, pressed);
      d.(k := k, s := s, accepted := d.accepted + Added(d.k, k))
    case Msec =>
      var (k, s) := EveryMsec(d.k, d.s);
      d.(k := k, s := s, accepted := d.accepted + Added(d.k, k))
    case Read =>
      var (k, s) := ReadP60(d.k, d.s);
      d.(k := k, s := s, read := d.read + Unread(d.k))
    case Port64(val) =>
      var (k, s) := WriteP64(d.k, d.s, val);
      d.(k := k, s := s)
    case Fire =>
      var (k, p) := TransferBuffer(d.k, d.p);
      d.(k := k, s := RemoveEvent(d.s, KeyboardTransfer), p := p)
    case Elsewhere(s, p) => d.(s := s, p := p)
  }

  ghost predicate Ledger(d: Delivery) {
    && |d.p.irqs| == PicModel.IRQS
    && Inv(d.k, d.s)
    && d.accepted == d.read + Unread(d.k) + d.k.ring
  }

  lemma AddBufferAppends(k: Kbd, s: Sched, data: nat)
    ensures k.ring <= AddBuffer(k, s, data).0.ring
    ensures Unread(AddBuffer(k, s, data).0) == Unread(k)
  {
  }

  lemma AddKeyAppends(k: Kbd, s: Sched, key: Key, pressed: bool)
    ensures k.ring <= AddKey(k, s, key, pressed).0.ring
    ensures Unread(AddKey(k, s, key, pressed).0) == Unread(k)
  {
    hide AddBuffer;
    var up := if pressed then 0 else 0x80;
    match key
    case Pause =>
      AddBufferAppends(k, s, 0xe1);
      var (k1, s1) := AddBuffer(k, s, 0xe1);
      AddBufferAppends(k1, s1, 29 + up);
      var (k2, s2) := AddBuffer(k1, s1, 29 + up);
      AddBufferAppends(k2, s2, 69 + up);
    case Plain(code) =>
      AddBufferAppends(k.(repeat := KeyRepeat(k.repeat, key, pressed)), s, (code + up) % 256);
    case Extended(code) =>
      var k0 := k.(repeat := KeyRepeat(k.repeat, key, pressed));
      AddBufferAppends(k0, s, 0xe0);
      var (k1, s1) := AddBuffer(k0, s, 0xe0);
      AddBufferAppends(k1, s1, (code + up) % 256);
    case _ =>
  }

  /** A routine that only appends to the ring keeps the ledger. */
  lemma AppendKeepsLedger(d: Delivery, k: Kbd, s: Sched)
    requires Ledger(d) && Inv(k, s)
    requires d.k.ring <= k.ring && Unread(k) == Unread(d.k)
    ensures Ledger(d.(k := k, s := s, accepted := d.accepted + Added(d.k, k)))
  {
    assert k.ring == d.k.ring + Added(d.k, k);
  }

  lemma StepKeepsLedger(d: Delivery, op: KbdOp)
    requires Ledger(d) && Enabled(d, op)
    ensures Ledger(Step(d, op))
  {
    match op
    case KeyEvent(key, pressed) =>
      var (k, s) := AddKey(d.k, d.s, key, pressed);
      AddKeyKeeps(d.k, d.s, key, pressed);
      AddKeyAppends(d.k, d.s, key, pressed);
      AppendKeepsLedger(d, k, s);
    case Msec =>
      var (k, s) := EveryMsec(d.k, d.s);
      EveryMsecKeeps(d.k, d.s);
      EveryMsecAppends(d.k, d.s);
      AppendKeepsLedger(d, k, s);
    case Read =>
      ReadP60Keeps(d.k, d.s);
    case Port64(val) =>
      WriteP64Keeps(d.k, d.s, val);
      WriteP64Appends(d.k, d.s, val);
    case Fire =>
      TransferKeeps(d.k, d.s, d.p);
    case Elsewhere(_, _) =>
  }

  lemma EveryMsecAppends(k: Kbd, s: Sched)
    ensures k.ring <= EveryMsec(k, s).0.ring
    ensures Unread(EveryMsec(k, s).0) == Unread(k)
  {
    var k0 := k.(repeat := k.repeat.(wait := if k.repeat.wait > 0 then k.repeat.wait - 1 else 0));
    AddKeyAppends(k0, s, k0.repeat.key, true);
  }

  lemma WriteP64Appends(k: Kbd, s: Sched, val: nat)
    ensures WriteP64(k, s, val).0.ring == k.ring
    ensures Unread(WriteP64(k, s, val).0) == Unread(k)
  {
  }

  function Run(d: Delivery, ops: seq<KbdOp>): Delivery
    requires |d.p.irqs| == PicModel.IRQS && AllEnabled(d, ops)
    decreases |ops|
  {
    if ops == [] then d else Run(Step(d, ops[0]), ops[1..])
  }

  predicate AllEnabled(d: Delivery, ops: seq<KbdOp>)
    requires |d.p.irqs| == PicModel.IRQS
    decreases |ops|
  {
    ops != [] ==> Enabled(d, ops[0]) && AllEnabled(Step(d, ops[0]), ops[1..])
  }

  /** Every accepted byte is read exactly once and in order: at any point of any
      run the accepted bytes are those read, then the one waiting on the port,
      then those in the ring; and a waiting ring is never forgotten. */
  lemma {:induction false} DeliveredOnceInOrder(d: Delivery, ops: seq<KbdOp>)
    requires Ledger(d) && AllEnabled(d, ops)
    ensures var e := Run(d, ops);
      && e.accepted == e.read + Unread(e.k) + e.k.ring
      && (e.k.ring != [] && Unread(e.k) == [] ==> Count(e.s.queue, KeyboardTransfer) == 1)
      && (Count(e.s.queue, KeyboardTransfer) > 0 ==> Unread(e.k) == [])
    ensures d.accepted <= Run(d, ops).accepted && d.read <= Run(d, ops).read
    decreases |ops|
  {
    if ops != [] {
      StepKeepsLedger(d, ops[0]);
      DeliveredOnceInOrder(Step(d, ops[0]), ops[1..]);
    }
  }

  // ----- the controller

  function Slot(pos: nat, i: nat): nat {
    if pos + i >= KEYBUFSIZE then pos + i - KEYBUFSIZE else pos + i
  }

  /** The waiting bytes: `used` of them from `pos` on, around the end of the array. */
  ghost function Ring(buffer: seq<nat>, pos: nat, used: nat): (r: seq<nat>)
    requires |buffer| == KEYBUFSIZE && pos < KEYBUFSIZE && used <= KEYBUFSIZE
    ensures |r| == used
    ensures forall i | 0 <= i < used :: r[i] == buffer[Slot(pos, i)]
  {
    seq(used, i requires 0 <= i < used => buffer[Slot(pos, i)])
  }

  lemma RingPush(buffer: seq<nat>, pos: nat, used: nat, data: nat)
    requires |buffer| == KEYBUFSIZE && pos < KEYBUFSIZE && used < KEYBUFSIZE
    ensures Ring(buffer[Slot(pos, used) := data], pos, used + 1) == Ring(buffer, pos, used) + [data]
  {
  }

  lemma RingPop(buffer: seq<nat>, pos: nat, used: nat)
    requires |buffer| == KEYBUFSIZE && pos < KEYBUFSIZE && 0 < used <= KEYBUFSIZE
    ensures buffer[pos] == Ring(buffer, pos, used)[0]
    ensures Ring(buffer, Slot(pos, 1), used - 1) == Ring(buffer, pos, used)[1..]
  {
    var r := Ring(buffer, Slot(pos, 1), used - 1);
    forall i | 0 <= i < used - 1 ensures r[i] == Ring(buffer, pos, used)[i + 1] {
      assert Slot(Slot(pos, 1), i) == Slot(pos, i + 1);
    }
  }

  class Keyboard {
    const buffer: array<nat>
    var used: nat
    var pos: nat
    var repeat: Repeat
    var command: Command
    var p60data: nat
    var p60changed: bool
    var active: bool
    var scanning: bool
    var scheduled: bool
    const timetrack: TimetrackPool.Timetrack
    const pic: PicModel.PicDevice

    ghost predicate Valid()
      reads this, buffer
    {
      buffer.Length == KEYBUFSIZE && used <= KEYBUFSIZE && pos < KEYBUFSIZE
    }

    ghost function View(): Kbd
      requires Valid()
      reads this, buffer
    {
      Kbd(Ring(buffer[..], pos, used), repeat, command, p60data, p60changed, active, scanning, scheduled)
    }

    /** The fields dp_keyboard_init sets; the periodic event is queued by the machine. */
    constructor (timetrack: TimetrackPool.Timetrack, pic: PicModel.PicDevice)
      ensures Valid() && fresh(buffer) && this.timetrack == timetrack && this.pic == pic
      ensures View() == BOOT
    {
      buffer := new nat[KEYBUFSIZE](_ => 0);
      used, pos, repeat, command := 0, 0, Repeat(NoKey, 0, 500, 33), CmdNone;
      p60data, p60changed, active, scanning, scheduled := 0, false, true, true, false;
      this.timetrack, this.pic := timetrack, pic;
    }

    method ScheduleTransfer()
      requires Valid() && timetrack.Valid() && timetrack.freeEvent != TimetrackPool.NULL_EVENT
      modifies this`scheduled, timetrack, timetrack.events
      ensures Valid() && timetrack.Valid() && timetrack.inFlight == old(timetrack.inFlight)
      ensures (View(), timetrack.View()) == Schedule(old(View()), old(timetrack.View()))
    {
      scheduled := true;
      timetrack.AddEvent(KeyboardTransfer, KEYBOARD_PTR, KEYDELAY);
    }

    /** dp_keyboard_TransferBuffer with dp_keyboard_SetPort60 */
    method TransferByte()
      requires Valid() && pic.Valid()
      modifies this, pic`irqCheck, pic.irqs
      ensures Valid() && pic.Valid()
      ensures (View(), pic.View()) == TransferBuffer(old(View()), old(pic.View()))
    {
      scheduled := false;
      if used == 0 {
        return;
      }
      RingPop(buffer[..], pos, used);
      p60changed, p60data := true, buffer[pos];
      pic.ActivateIrq(1);
      pos := pos + 1;
      if pos >= KEYBUFSIZE {
        pos := pos - KEYBUFSIZE;
      }
      used := used - 1;
    }

    /** dp_keyboard_clear_buffer */
    method Clear()
      requires Valid() && timetrack.Valid()
      modifies this, timetrack, timetrack.events
      ensures Valid() && timetrack.Valid() && timetrack.inFlight == old(timetrack.inFlight)
      ensures (View(), timetrack.View()) == ClearBuffer(old(View()), old(timetrack.View()))
    {
      used, pos := 0, 0;
      timetrack.RemoveEvent(KeyboardTransfer);
      scheduled := false;
    }

    /** dp_keyboard_add_buffer */
    method AddByte(data: nat)
      requires Valid() && timetrack.Valid()
      requires NeedsEvent(View()) ==> timetrack.freeEvent != TimetrackPool.NULL_EVENT
      modifies this, buffer, timetrack, timetrack.events
      ensures Valid() && timetrack.Valid() && timetrack.inFlight == old(timetrack.inFlight)
      ensures (View(), timetrack.View()) == AddBuffer(old(View()), old(timetrack.View()), data)
    {
      if used >= KEYBUFSIZE {
        return;
      }
      RingPush(buffer[..], pos, used, data);
      var start := pos + used;
      if start >= KEYBUFSIZE {
        start := start - KEYBUFSIZE;
      }
      buffer[start] := data;
      used := used + 1;
      if !scheduled && !p60changed {
        ScheduleTransfer();
      }
    }

    /** read_p60 */
    method ReadPort60() returns (val: nat)
      requires Valid() && timetrack.Valid() && timetrack.freeEvent != TimetrackPool.NULL_EVENT
      modifies this, timetrack, timetrack.events
      ensures Valid() && timetrack.Valid() && timetrack.inFlight == old(timetrack.inFlight)
      ensures (View(), timetrack.View()) == ReadP60(old(View()), old(timetrack.View()))
      ensures val == old(p60data)
    {
      p60changed := false;
      if !scheduled && used != 0 {
        ScheduleTransfer();
      }
      val := p60data;
    }

    method ClearAndAcknowledge()
      requires Valid() && timetrack.Valid() && |timetrack.View().queue| + 1 < TimetrackPool.MAX_EVENTS
      modifies this, buffer, timetrack, timetrack.events
      ensures Valid() && timetrack.Valid() && timetrack.inFlight == old(timetrack.inFlight)
      ensures (View(), timetrack.View()) == ClearThenAck(old(View()), old(timetrack.View()))
    {
      Clear();
      timetrack.HasRoom();
      AddByte(ACK);
    }

    /** write_p60 */
    method WritePort60(val: nat)
      requires Valid() && timetrack.Valid() && |timetrack.View().queue| + 1 < TimetrackPool.MAX_EVENTS
      requires val < 256 && !command.CmdSetOutPort?
      modifies this, buffer, timetrack, timetrack.events
      ensures Valid() && timetrack.Valid() && timetrack.inFlight == old(timetrack.inFlight)
      ensures (View(), timetrack.View()) == WriteP60(old(View()), old(timetrack.View()), val)
    {
      hide ClearThenAck, Ring, TimetrackPool.PoolOk;
      match command
      case CmdNone =>
        if val == 0xed {
          command := CmdSetLeds;
        } else if val == 0xf3 {
          command := CmdSetTypeRate;
        } else if val == 0xf4 {
          scanning := true;
        } else if val == 0xf5 || val == 0xf6 {
          scanning := false;
        }
        ClearAndAcknowledge();
      case CmdSetTypeRate =>
        repeat := TypeRate(repeat, val);
        command := CmdNone;
        ClearAndAcknowledge();
      case CmdSetLeds =>
        command := CmdNone;
        ClearAndAcknowledge();
    }

    /** write_p64 */
    method WritePort64(val: nat)
      requires Valid() && timetrack.Valid() && timetrack.freeEvent != TimetrackPool.NULL_EVENT
      requires val != 0xd0
      modifies this, timetrack, timetrack.events
      ensures Valid() && timetrack.Valid() && timetrack.inFlight == old(timetrack.inFlight)
      ensures (View(), timetrack.View()) == WriteP64(old(View()), old(timetrack.View()), val)
    {
      if val == 0xae {
        active := true;
        if used != 0 && !scheduled && !p60changed {
          ScheduleTransfer();
        }
      } else if val == 0xad {
        active := false;
      } else if val == 0xd1 {
        command := CmdSetOutPort;
      }
    }

    method AddTwo(first: nat, second: nat)
      requires Valid() && timetrack.Valid()
      requires NeedsEvent(View()) ==> timetrack.freeEvent != TimetrackPool.NULL_EVENT
      modifies this, buffer, timetrack, timetrack.events
      ensures Valid() && timetrack.Valid() && timetrack.inFlight == old(timetrack.inFlight)
      ensures (View(), timetrack.View()) ==
        var (k1, s1) := AddBuffer(old(View()), old(timetrack.View()), first);
        AddBuffer(k1, s1, second)
    {
      AddByte(first);
      AddByte(second);
    }

    /** The three bytes of the pause key. */
    method AddPause(up: nat)
      requires Valid() && timetrack.Valid()
      requires NeedsEvent(View()) ==> timetrack.freeEvent != TimetrackPool.NULL_EVENT
      modifies this, buffer, timetrack, timetrack.events
      ensures Valid() && timetrack.Valid() && timetrack.inFlight == old(timetrack.inFlight)
      ensures (View(), timetrack.View()) ==
        var (k1, s1) := AddBuffer(old(View()), old(timetrack.View()), 0xe1);
        var (k2, s2) := AddBuffer(k1, s1, 29 + up);
        AddBuffer(k2, s2, 69 + up)
    {
      AddTwo(0xe1, 29 + up);
      AddByte(69 + up);
    }

    /** dp_keyboard_add_key */
    method AddKeyCode(key: Key, pressed: bool)
      requires Valid() && timetrack.Valid() && Supported(key)
      requires NeedsEvent(View()) ==> timetrack.freeEvent != TimetrackPool.NULL_EVENT
      modifies this, buffer, timetrack, timetrack.events
      ensures Valid() && timetrack.Valid() && timetrack.inFlight == old(timetrack.inFlight)
      ensures (View(), timetrack.View()) == AddKey(old(View()), old(timetrack.View()), key, pressed)
    {
      hide AddBuffer, Ring, TimetrackPool.PoolOk;
      var up := if pressed then 0 else 0x80;
      match key
      case Pause =>
        AddPause(up);
      case PrintScreen =>
      case Plain(code) =>
        repeat := KeyRepeat(repeat, key, pressed);
        AddByte((code + up) % 256);
      case Extended(code) =>
        repeat := KeyRepeat(repeat, key, pressed);
        AddTwo(0xe0, (code + up) % 256);
    }

    /** dp_keyboard_every_msec; it can queue a transfer event and queues itself. */
    method EveryMillisecond()
      requires Valid() && timetrack.Valid()
      requires |timetrack.View().queue| + 3 < TimetrackPool.MAX_EVENTS
      requires repeat.wait > 0 ==> Supported(repeat.key)
      modifies this, buffer, timetrack, timetrack.events
      ensures Valid() && timetrack.Valid() && timetrack.inFlight == old(timetrack.inFlight)
      ensures (View(), timetrack.View()) == EveryMsec(old(View()), old(timetrack.View()))
    {
      ghost var room := |timetrack.View().queue|;
      timetrack.HasRoom();
      if repeat.wait != 0 {
        repeat := repeat.(wait := repeat.wait - 1);
        if repeat.wait == 0 {
          AddKeyGrows(View(), timetrack.View(), repeat.key, true);
          AddKeyCode(repeat.key, true);
        }
      }
      timetrack.HasRoom();
      timetrack.AddEvent(KeyboardEveryMsec, KEYBOARD_PTR, MSEC);
    }
  }

  /** However many bytes a key sends, at most one transfer event is started. */
  lemma AddKeyGrows(k: Kbd, s: Sched, key: Key, pressed: bool)
    ensures |AddKey(k, s, key, pressed).1.queue| <= |s.queue| + 1
  {
    var up := if pressed then 0 else 0x80;
    match key
    case Pause =>
      var (k1, s1) := AddBuffer(k, s, 0xe1);
      assert !NeedsEvent(k1);
      var (k2, s2) := AddBuffer(k1, s1, 29 + up);
      assert !NeedsEvent(k2);
    case _ =>
  }
}
