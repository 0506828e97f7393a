/** core/dosblock.c: the DOS memory control blocks, a chain of one-paragraph headers
    inside guest memory. */
module McbModel {
  import opened Basics

  const PARAGRAPHS := 0x1_0000
  const DOS_MEM_START := 0x016f
  const DOS_MEM_END := 0x9ffe
  const TYPE_END: u8 := 0x5a
  const TYPE_CONT: u8 := 0x4d
  const PSP_FREE: u16 := 0x0000
  const PSP_DOS: u16 := 0x0008

  /** Sixteen bytes of guest memory, seen as a struct dos_mcb. */
  datatype Paragraph = Paragraph(kind: u8, psp: u16, size: u16, rest: seq<u8>)

  /** What memset leaves. */
  const ZEROED := Paragraph(0, 0, 0, [0, 0, 0, 0, 0, 0, 0, 0, 0, 0, 0])

  /** A memory block: its owner (0 when free) and its paragraphs without the header. */
  datatype Block = Block(owner: u16, size: nat)

  predicate Free(b: Block) { b.owner == PSP_FREE }

  // ----- the chain in memory

  /** The paragraphs a list of blocks takes up, headers included. */
  function Span(bs: seq<Block>): nat {
    if bs == [] then 0 else bs[0].size + 1 + Span(bs[1..])
  }

  ghost predicate HeaderOf(m: seq<Paragraph>, seg: nat, b: Block, kind: u8)
    requires |m| == PARAGRAPHS
  {
    && seg + b.size <= DOS_MEM_END
    && m[seg].psp == b.owner && m[seg].size == b.size && m[seg].kind == kind
  }

  /** From seg on, the headers are those of bs, without gap or overlap, up to the
      last paragraph of DOS memory; only the last is an end block. */
  ghost predicate Chain(m: seq<Paragraph>, seg: nat, bs: seq<Block>)
    requires |m| == PARAGRAPHS
    decreases |bs|
  {
    && bs != []
    && if |bs| == 1 then HeaderOf(m, seg, bs[0], TYPE_END) && seg + bs[0].size == DOS_MEM_END
       else HeaderOf(m, seg, bs[0], TYPE_CONT) && Chain(m, seg + bs[0].size + 1, bs[1..])
  }

  /** The headers from seg up to the header at `to` are those of bs. */
  ghost predicate Part(m: seq<Paragraph>, seg: nat, bs: seq<Block>, to: nat)
    requires |m| == PARAGRAPHS
    decreases |bs|
  {
    if bs == [] then seg == to
    else HeaderOf(m, seg, bs[0], TYPE_CONT) && Part(m, seg + bs[0].size + 1, bs[1..], to)
  }

  lemma {:induction false} PartSpan(m: seq<Paragraph>, seg: nat, bs: seq<Block>, to: nat)
    requires |m| == PARAGRAPHS && Part(m, seg, bs, to)
    ensures to == seg + Span(bs)
    decreases |bs|
  {
    if bs != [] {
      PartSpan(m, seg + bs[0].size + 1, bs[1..], to);
    }
  }

  lemma {:induction false} ChainSpan(m: seq<Paragraph>, seg: nat, bs: seq<Block>)
    requires |m| == PARAGRAPHS && Chain(m, seg, bs)
    ensures seg + Span(bs) == DOS_MEM_END + 1
    decreases |bs|
  {
    if |bs| > 1 {
      ChainSpan(m, seg + bs[0].size + 1, bs[1..]);
    }
  }

  lemma {:induction false} PartFrame(m: seq<Paragraph>, m': seq<Paragraph>, seg: nat, bs: seq<Block>, to: nat)
    requires |m| == |m'| == PARAGRAPHS && Part(m, seg, bs, to)
    requires forall p | seg <= p < to && p < PARAGRAPHS :: m'[p] == m[p]
    ensures Part(m', seg, bs, to)
    decreases |bs|
  {
    if bs != [] {
      PartSpan(m, seg, bs, to);
      PartFrame(m, m', seg + bs[0].size + 1, bs[1..], to);
    }
  }

  lemma {:induction false} ChainFrame(m: seq<Paragraph>, m': seq<Paragraph>, seg: nat, bs: seq<Block>)
    requires |m| == |m'| == PARAGRAPHS && Chain(m, seg, bs)
    requires forall p | seg <= p < PARAGRAPHS :: m'[p] == m[p]
    ensures Chain(m', seg, bs)
    decreases |bs|
  {
    if |bs| > 1 {
      ChainFrame(m, m', seg + bs[0].size + 1, bs[1..]);
    }
  }

  lemma {:induction false} PartAppend(m: seq<Paragraph>, seg: nat, bs: seq<Block>, to: nat, b: Block)
    requires |m| == PARAGRAPHS && Part(m, seg, bs, to) && HeaderOf(m, to, b, TYPE_CONT)
    ensures Part(m, seg, bs + [b], to + b.size + 1)
    decreases |bs|
  {
    if bs == [] {
      assert ([b])[1..] == [] && [] + [b] == [b];
    } else {
      PartAppend(m, seg + bs[0].size + 1, bs[1..], to, b);
      assert (bs + [b])[1..] == bs[1..] + [b];
    }
  }

  lemma {:induction false} PartChain(m: seq<Paragraph>, seg: nat, a: seq<Block>, to: nat, b: seq<Block>)
    requires |m| == PARAGRAPHS && Part(m, seg, a, to) && Chain(m, to, b)
    ensures Chain(m, seg, a + b)
    decreases |a|
  {
    if a == [] {
      assert a + b == b;
    } else {
      PartChain(m, seg + a[0].size + 1, a[1..], to, b);
      assert (a + b)[1..] == a[1..] + b;
    }
  }

  lemma {:induction false} ChainSplit(m: seq<Paragraph>, seg: nat, a: seq<Block>, b: seq<Block>)
    requires |m| == PARAGRAPHS && Chain(m, seg, a + b) && b != []
    ensures Part(m, seg, a, seg + Span(a)) && Chain(m, seg + Span(a), b)
    decreases |a|
  {
    if a == [] {
      assert a + b == b;
    } else {
      assert (a + b)[1..] == a[1..] + b;
      ChainSplit(m, seg + a[0].size + 1, a[1..], b);
    }
  }

  // ----- what belongs to whom

  /** Paragraph p lies inside an allocated block. */
  predicate Owned(seg: nat, bs: seq<Block>, p: nat)
    decreases |bs|
  {
    bs != [] && ((!Free(bs[0]) && seg < p <= seg + bs[0].size) || Owned(seg + bs[0].size + 1, bs[1..], p))
  }

  predicate IsHeader(seg: nat, bs: seq<Block>, p: nat)
    decreases |bs|
  {
    bs != [] && (p == seg || IsHeader(seg + bs[0].size + 1, bs[1..], p))
  }

  lemma {:induction false} HeaderRange(seg: nat, bs: seq<Block>, p: nat)
    ensures Owned(seg, bs, p) ==> seg < p < seg + Span(bs)
    ensures IsHeader(seg, bs, p) ==> seg <= p < seg + Span(bs)
    decreases |bs|
  {
    if bs != [] {
      HeaderRange(seg + bs[0].size + 1, bs[1..], p);
    }
  }

  lemma {:induction false} HeadersAreNotOwned(seg: nat, bs: seq<Block>, p: nat)
    requires IsHeader(seg, bs, p)
    ensures !Owned(seg, bs, p)
    decreases |bs|
  {
    HeaderRange(seg + bs[0].size + 1, bs[1..], p);
    if p != seg {
      HeadersAreNotOwned(seg + bs[0].size + 1, bs[1..], p);
    }
  }

  lemma {:induction false} AcrossConcat(seg: nat, a: seq<Block>, b: seq<Block>, p: nat)
    ensures Span(a + b) == Span(a) + Span(b)
    ensures Owned(seg, a + b, p) <==> Owned(seg, a, p) || Owned(seg + Span(a), b, p)
    ensures IsHeader(seg, a + b, p) <==> IsHeader(seg, a, p) || IsHeader(seg + Span(a), b, p)
    decreases |a|
  {
    if a == [] {
      assert a + b == b;
    } else {
      assert (a + b)[1..] == a[1..] + b;
      AcrossConcat(seg + a[0].size + 1, a[1..], b, p);
    }
  }

  // ----- the allocator on lists of blocks

  predicate MergeFirst(bs: seq<Block>) {
    |bs| > 1 && Free(bs[0]) && Free(bs[1])
  }

  function Merged(bs: seq<Block>): seq<Block>
    requires MergeFirst(bs)
  {
    [Block(PSP_FREE, bs[0].size + bs[1].size + 1)] + bs[2..]
  }

  /** dp_dosblock_compact_mcbs */
  function Compact(bs: seq<Block>): (r: seq<Block>)
    decreases |bs|
  {
    if |bs| <= 1 then bs
    else if MergeFirst(bs) then Compact(Merged(bs))
    else [bs[0]] + Compact(bs[1..])
  }

  function Max(a: nat, b: nat): nat { if a < b then b else a }

  /** dp_dosblock_mem_get_largest_block */
  function Largest(bs: seq<Block>): nat {
    if bs == [] then 0 else Max(if Free(bs[0]) then bs[0].size else 0, Largest(bs[1..]))
  }

  /** Where the walk of dp_dosblock_mem_allocate stops; |bs| when nothing fits. */
  function FirstFit(bs: seq<Block>, segs: nat): (k: nat)
    ensures k <= |bs|
    ensures k < |bs| ==> Free(bs[k]) && segs <= bs[k].size
    ensures forall i | 0 <= i < k :: !(Free(bs[i]) && segs <= bs[i].size)
  {
    if bs == [] then 0
    else if Free(bs[0]) && segs <= bs[0].size then 0
    else 1 + FirstFit(bs[1..], segs)
  }

  /** A block cut down to its first n paragraphs; the rest becomes a free block. */
  function Cut(b: Block, owner: u16, n: nat): seq<Block>
    requires n <= b.size
  {
    if n == b.size then [Block(owner, n)]
    else [Block(owner, n), Block(PSP_FREE, b.size - 1 - n)]
  }

  lemma CutSpan(b: Block, owner: u16, n: nat)
    requires n <= b.size
    ensures Span(Cut(b, owner, n)) == b.size + 1
  {
    if n < b.size {
      var split := [Block(PSP_FREE, b.size - 1 - n)];
      assert Cut(b, owner, n)[1..] == split && split[1..] == [];
      assert Span(split) == b.size - n;
    }
  }

  /** The owner a block gets: no owner given means it owns itself. */
  function OwnerFor(psp: u16, seg: u16): u16 {
    if psp == 0 then seg else psp
  }

  /** dp_dosblock_mem_allocate after compaction: the new list and the result. */
  function Allocated(first: nat, c: seq<Block>, psp: u16, segs: nat): (seq<Block>, nat) {
    var k := FirstFit(c, segs);
    if k == |c| then (c, 0)
    else
      var seg := first + Span(c[..k]);
      (c[..k] + Cut(c[k], OwnerFor(psp, seg % 0x1_0000), segs) + c[k+1..], seg + 1)
  }

  /** The paragraphs the k-th block can grow to: its own and those of a free
      neighbour, header included. */
  function Room(c: seq<Block>, k: nat): nat
    requires k < |c|
  {
    c[k].size + if k + 1 < |c| && Free(c[k + 1]) then c[k + 1].size + 1 else 0
  }

  /** dp_dosblock_mem_resize of the k-th block of a compacted list, where it keeps
      the list: the new list, the result and the size reported. */
  function Resized(c: seq<Block>, k: nat, psp: u16, n: nat): (seq<Block>, bool, nat)
    requires k < |c| && !ExactGrow(c, k, n)
  {
    if n == c[k].size then (c, true, n)
    else if n < c[k].size then (c[..k] + Cut(c[k], psp, n) + c[k+1..], true, n)
    else if Room(c, k) < n then (c, false, Room(c, k))
    else (c[..k] + Cut(Block(psp, Room(c, k)), psp, n) + c[k+2..], true, n)
  }

  // ----- stores and the chain

  /** What the header under a walk says. */
  lemma ChainHead(m: seq<Paragraph>, seg: nat, bs: seq<Block>)
    requires |m| == PARAGRAPHS && Chain(m, seg, bs)
    ensures bs != [] && seg + bs[0].size <= DOS_MEM_END
    ensures m[seg].psp == bs[0].owner && m[seg].size == bs[0].size
    ensures m[seg].kind == TYPE_END <==> |bs| == 1
    ensures Closes(m, seg, bs[0], m[seg].kind, bs[1..])
    ensures |bs| > 1 ==> Chain(m, seg + bs[0].size + 1, bs[1..]) && m[seg + bs[0].size + 1].psp == bs[1].owner
  {
    if |bs| > 1 {
      assert Chain(m, seg + bs[0].size + 1, bs[1..]);
    }
  }

  /** Block b at seg, of this kind, is followed by the chain of rest or ends it. */
  ghost predicate Closes(m: seq<Paragraph>, seg: nat, b: Block, kind: u8, rest: seq<Block>)
    requires |m| == PARAGRAPHS
  {
    if rest == [] then kind == TYPE_END && seg + b.size == DOS_MEM_END
    else kind == TYPE_CONT && Chain(m, seg + b.size + 1, rest)
  }

  lemma ChainCons(m: seq<Paragraph>, seg: nat, b: Block, kind: u8, rest: seq<Block>)
    requires |m| == PARAGRAPHS && HeaderOf(m, seg, b, kind) && Closes(m, seg, b, kind, rest)
    ensures Chain(m, seg, [b] + rest)
  {
    assert ([b] + rest)[1..] == rest;
  }

  lemma ClosesFrame(m: seq<Paragraph>, m': seq<Paragraph>, seg: nat, b: Block, kind: u8, rest: seq<Block>)
    requires |m| == |m'| == PARAGRAPHS && Closes(m, seg, b, kind, rest)
    requires forall p | seg + b.size < p < PARAGRAPHS :: m'[p] == m[p]
    ensures Closes(m', seg, b, kind, rest)
  {
    if rest != [] {
      ChainFrame(m, m', seg + b.size + 1, rest);
    }
  }

  /** The first block of a chain with its header rewritten to end before `rest`. */
  lemma StoreCut(m: seq<Paragraph>, m': seq<Paragraph>, seg: nat, b: Block, kind: u8, owner: u16, n: nat, rest: seq<Block>)
    requires |m| == |m'| == PARAGRAPHS && n < b.size
    requires seg + b.size <= DOS_MEM_END
    requires Closes(m, seg, b, kind, rest)
    requires HeaderOf(m', seg, Block(owner, n), TYPE_CONT)
    requires HeaderOf(m', seg + 1 + n, Block(PSP_FREE, b.size - 1 - n), kind)
    requires forall p | seg + b.size < p < PARAGRAPHS :: m'[p] == m[p]
    ensures Chain(m', seg, Cut(b, owner, n) + rest)
  {
    var split := Block(PSP_FREE, b.size - 1 - n);
    ClosesFrame(m, m', seg, b, kind, rest);
    ChainCons(m', seg + 1 + n, split, kind, rest);
    ChainCons(m', seg, Block(owner, n), TYPE_CONT, [split] + rest);
    assert Cut(b, owner, n) + rest == [Block(owner, n)] + ([split] + rest);
  }

  /** Two free neighbours joined. */
  lemma StoreMerge(m: seq<Paragraph>, m': seq<Paragraph>, seg: nat, bs: seq<Block>)
    requires |m| == |m'| == PARAGRAPHS && Chain(m, seg, bs) && MergeFirst(bs)
    requires var next := m[seg + bs[0].size + 1];
      m'[seg] == m[seg].(size := (bs[0].size + bs[1].size + 1) % 0x1_0000, kind := next.kind)
    requires forall p | seg < p < PARAGRAPHS :: m'[p] == m[p]
    ensures Chain(m', seg, Merged(bs))
  {
    hide Chain, Closes;
    var next, rest := seg + bs[0].size + 1, bs[2..];
    ChainHead(m, seg, bs);
    ChainHead(m, next, bs[1..]);
    assert bs[1..][1..] == rest;
    var big := Block(PSP_FREE, bs[0].size + bs[1].size + 1);
    ClosesFrame(m, m', next, bs[1], m[next].kind, rest);
    ClosesJoin(m', seg, bs[0].size, bs[1], m[next].kind, rest);
    assert HeaderOf(m', seg, big, m[next].kind);
    ChainCons(m', seg, big, m[next].kind, rest);
  }

  lemma ClosesJoin(m: seq<Paragraph>, seg: nat, size: nat, b: Block, kind: u8, rest: seq<Block>)
    requires |m| == PARAGRAPHS && Closes(m, seg + size + 1, b, kind, rest)
    ensures Closes(m, seg, Block(PSP_FREE, size + b.size + 1), kind, rest)
  {
  }

  /** Every written paragraph is a header of one of the two lists. */
  ghost predicate OnlyHeaders(m: seq<Paragraph>, m': seq<Paragraph>, first: nat, bs: seq<Block>, bs': seq<Block>) {
    && |m| == |m'|
    && forall p: nat | p < |m| && m'[p] != m[p] :: IsHeader(first, bs, p) || IsHeader(first, bs', p)
  }

  /** Paragraphs of blocks that are allocated before and after are never written. */
  lemma ContentsKept(m: seq<Paragraph>, m': seq<Paragraph>, first: nat, bs: seq<Block>, bs': seq<Block>, p: nat)
    requires OnlyHeaders(m, m', first, bs, bs') && p < |m|
    requires Owned(first, bs, p) && Owned(first, bs', p)
    ensures m'[p] == m[p]
  {
    if m'[p] != m[p] {
      if IsHeader(first, bs, p) {
        HeadersAreNotOwned(first, bs, p);
      } else {
        HeadersAreNotOwned(first, bs', p);
      }
    }
  }

  /** The walk moves one block on. */
  lemma ChainNext(m: seq<Paragraph>, first: nat, done: seq<Block>, seg: nat, todo: seq<Block>)
    requires |m| == PARAGRAPHS && Part(m, first, done, seg) && Chain(m, seg, todo) && |todo| > 1
    ensures Part(m, first, done + [todo[0]], seg + todo[0].size + 1)
    ensures Chain(m, seg + todo[0].size + 1, todo[1..])
  {
    PartAppend(m, first, done, seg, todo[0]);
  }

  lemma CompactNext(done: seq<Block>, todo: seq<Block>)
    requires |todo| > 1 && !MergeFirst(todo)
    ensures done + Compact(todo) == (done + [todo[0]]) + Compact(todo[1..])
  {
  }

  /** Merging removes a header, moving on passes one. */
  lemma HeadersLeft(seg: nat, todo: seq<Block>, p: nat)
    requires |todo| > 1
    ensures MergeFirst(todo) && IsHeader(seg, Merged(todo), p) ==> IsHeader(seg, todo, p)
    ensures IsHeader(seg + todo[0].size + 1, todo[1..], p) ==> IsHeader(seg, todo, p)
    ensures IsHeader(seg, todo, seg)
  {
    if MergeFirst(todo) {
      assert Merged(todo)[1..] == todo[1..][1..];
    }
  }

  class Dosblock {
    const memory: array<Paragraph>
    var firstMcb: u16
    var currentPsp: u16
    ghost var blocks: seq<Block>

    ghost predicate Valid()
      reads this, memory
    {
      memory.Length == PARAGRAPHS && Chain(memory[..], firstMcb, blocks)
    }

    /** dp_dosblock_init_mem over whatever memory holds. */
    constructor (memory: array<Paragraph>)
      requires memory.Length == PARAGRAPHS
      modifies memory
      ensures Valid() && this.memory == memory && firstMcb == DOS_MEM_START && blocks == INITIAL_BLOCKS
      ensures forall p: nat | p < PARAGRAPHS && memory[p] != old(memory[p]) ::
        p in {DOS_MEM_START, DOS_MEM_START + 2, DOS_MEM_START + 7, FIRST_FREE}
    {
      this.memory, firstMcb, currentPsp, blocks := memory, DOS_MEM_START, 0, INITIAL_BLOCKS;
      new;
      var seg := SetInternalMcb(DOS_MEM_START, 1);
      seg := SetInternalMcb(seg, 4);
      var third := seg;
      seg := SetInternalMcb(seg, 16);
      memory[third] := memory[third].(psp := 0x40);
      memory[seg] := memory[seg].(psp := PSP_FREE, size := DOS_MEM_END - seg, kind := TYPE_END);
      InitialChain(memory[..]);
    }

    /** dp_dosblock_set_internal_mcb */
    method SetInternalMcb(seg: u16, size: u16) returns (next: u16)
      requires memory.Length == PARAGRAPHS && seg + size + 1 < PARAGRAPHS
      modifies memory
      ensures memory[..] == old(memory[..])[seg := old(memory[seg]).(psp := PSP_DOS, size := size, kind := TYPE_CONT)]
      ensures next == seg + size + 1
    {
      memory[seg] := memory[seg].(psp := PSP_DOS, size := size, kind := TYPE_CONT);
      next := seg + size + 1;
    }

    /** `mcb_segment + mcb->size + 1` on u16: along a chain it does not wrap. */
    function NextMcb(seg: u16, ghost todo: seq<Block>): (next: u16)
      reads memory
      requires memory.Length == PARAGRAPHS && Chain(memory[..], seg, todo)
      ensures next == seg + todo[0].size + 1
    {
      ChainHead(memory[..], seg, todo);
      (seg + memory[seg].size + 1) % 0x1_0000
    }

    /** The stores of dp_dosblock_compact_mcbs. */
    method MergeAt(seg: u16, next: u16, ghost done: seq<Block>, ghost todo: seq<Block>)
      requires memory.Length == PARAGRAPHS
      requires Part(memory[..], firstMcb, done, seg) && Chain(memory[..], seg, todo) && MergeFirst(todo)
      requires next == seg + todo[0].size + 1
      modifies memory
      ensures Part(memory[..], firstMcb, done, seg) && Chain(memory[..], seg, Merged(todo))
      ensures forall p | 0 <= p < PARAGRAPHS && p != seg :: memory[p] == old(memory[p])
    {
      ghost var m := memory[..];
      ChainHead(m, seg, todo);
      memory[seg] := memory[seg].(size := (memory[seg].size + memory[next].size + 1) % 0x1_0000, kind := memory[next].kind);
      PartSpan(m, firstMcb, done, seg);
      PartFrame(m, memory[..], firstMcb, done, seg);
      ChainHead(m, next, todo[1..]);
      StoreMerge(m, memory[..], seg, todo);
    }

    /** dp_dosblock_compact_mcbs */
    method CompactMcbs()
      requires Valid()
      modifies this`blocks, memory
      ensures Valid() && blocks == Compact(old(blocks))
      ensures OnlyHeaders(old(memory[..]), memory[..], firstMcb, old(blocks), [])
    {
      hide Part, Chain, Compact, IsHeader;
      var seg: u16 := firstMcb;
      ghost var was, done, todo := memory[..], [], blocks;
      WalkStarts(was, seg, todo);
      while memory[seg].kind != TYPE_END
        invariant Part(memory[..], firstMcb, done, seg) && Chain(memory[..], seg, todo)
        invariant blocks == old(blocks) && Compact(blocks) == done + Compact(todo)
        invariant OnlyHeaders(was, memory[..], firstMcb, blocks, [])
        invariant forall p | IsHeader(seg, todo, p) :: IsHeader(firstMcb, blocks, p)
        decreases |todo|
      {
        ChainHead(memory[..], seg, todo);
        var next := NextMcb(seg, todo);
        forall p: nat ensures MergeFirst(todo) && IsHeader(seg, Merged(todo), p) ==> IsHeader(seg, todo, p)
                      ensures IsHeader(next, todo[1..], p) ==> IsHeader(seg, todo, p)
                      ensures IsHeader(seg, todo, seg)
        {
          HeadersLeft(seg, todo, p);
        }
        if memory[seg].psp == 0 && memory[next].psp == 0 {
          CompactMerges(todo);
          MergeAt(seg, next, done, todo);
          todo := Merged(todo);
        } else {
          CompactNext(done, todo);
          ChainNext(memory[..], firstMcb, done, seg, todo);
          done, todo, seg := done + [todo[0]], todo[1..], next;
        }
      }
      WalkEnds(memory[..], firstMcb, done, seg, todo);
      blocks := done + todo;
    }

    /** dp_dosblock_mem_get_largest_block */
    method LargestBlock() returns (largest: u16)
      requires Valid()
      ensures largest == Largest(blocks)
    {
      hide Chain, Largest;
      var seg: u16 := firstMcb;
      ghost var todo := blocks;
      largest := 0;
      while true
        invariant Chain(memory[..], seg, todo)
        invariant Max(largest, Largest(todo)) == Largest(blocks)
        decreases |todo|
      {
        ChainHead(memory[..], seg, todo);
        LargestNext(largest, todo);
        if memory[seg].psp == PSP_FREE && memory[seg].size > largest {
          largest := memory[seg].size;
        }
        if memory[seg].kind == TYPE_END {
          break;
        }
        todo, seg := todo[1..], NextMcb(seg, todo);
      }
    }

    /** The stores of dp_dosblock_mem_allocate into a block that fits. */
    method TakeAt(seg: u16, psp: u16, segs: u16, ghost done: seq<Block>, ghost todo: seq<Block>)
      requires memory.Length == PARAGRAPHS
      requires Part(memory[..], firstMcb, done, seg) && Chain(memory[..], seg, todo) && segs <= todo[0].size
      modifies memory
      ensures Chain(memory[..], firstMcb, done + Cut(todo[0], psp, segs) + todo[1..])
      ensures forall p: nat | p < PARAGRAPHS && memory[p] != old(memory[p]) ::
        IsHeader(firstMcb, done + Cut(todo[0], psp, segs) + todo[1..], p)
    {
      hide Chain, Part, IsHeader, Cut;
      ghost var m := memory[..];
      ChainHead(m, seg, todo);
      var oldSize, oldType := memory[seg].size, memory[seg].kind;
      memory[seg] := memory[seg].(psp := psp);
      if segs < oldSize {
        memory[seg] := memory[seg].(size := segs, kind := TYPE_CONT);
        memory[seg + 1 + segs] := ZEROED.(kind := oldType, psp := PSP_FREE, size := oldSize - 1 - segs);
      }
      StoreTake(m, memory[..], firstMcb, done, seg, todo, psp, segs);
      PartSpan(m, firstMcb, done, seg);
      CutHeaders(firstMcb, done, todo[0], psp, segs, todo[1..]);
    }

    /** The walk of dp_dosblock_mem_allocate. */
    method FindFit(segs: u16) returns (found: bool, seg: u16, ghost done: seq<Block>, ghost todo: seq<Block>)
      requires Valid()
      ensures blocks == done + todo && Part(memory[..], firstMcb, done, seg) && Chain(memory[..], seg, todo)
      ensures todo != [] && FirstFit(blocks, segs) == if found then |done| else |blocks|
      ensures found ==> Free(todo[0]) && segs <= todo[0].size
    {
      hide Chain, Part, FirstFit;
      seg, done, todo, found := firstMcb, [], blocks, false;
      WalkStarts(memory[..], seg, todo);
      while true
        invariant blocks == done + todo
        invariant Part(memory[..], firstMcb, done, seg) && Chain(memory[..], seg, todo)
        invariant FirstFit(blocks, segs) == |done| + FirstFit(todo, segs)
        decreases |todo|
      {
        ChainHead(memory[..], seg, todo);
        if memory[seg].psp == PSP_FREE && segs <= memory[seg].size {
          FitHere(todo, segs);
          found := true;
          break;
        }
        FitNext(done, todo, segs);
        if memory[seg].kind == TYPE_END {
          break;
        }
        ChainNext(memory[..], firstMcb, done, seg, todo);
        done, todo, seg := done + [todo[0]], todo[1..], NextMcb(seg, todo);
      }
    }

    /** dp_dosblock_mem_allocate */
    method Allocate(psp: u16, segs: u16) returns (r: u16)
      requires Valid()
      modifies this`blocks, memory
      ensures Valid()
      ensures (blocks, r as nat) == Allocated(firstMcb, Compact(old(blocks)), psp, segs)
      ensures OnlyHeaders(old(memory[..]), memory[..], firstMcb, old(blocks), blocks)
    {
      hide Chain, Part, IsHeader, Cut, FirstFit, Allocated, Compact, OnlyHeaders;
      ghost var was := memory[..];
      CompactMcbs();
      ghost var m1 := memory[..];
      var found, seg;
      ghost var done, todo;
      found, seg, done, todo := FindFit(segs);
      if found {
        ChainHead(m1, seg, todo);
        FitFound(m1, firstMcb, done, seg, todo, psp, segs);
        TakeAt(seg, if psp == 0 then seg else psp, segs, done, todo);
        blocks := done + Cut(todo[0], OwnerFor(psp, seg), segs) + todo[1..];
        r := seg + 1;
      } else {
        NoFit(firstMcb, blocks, psp, segs);
        r := 0;
      }
      OnlyHeadersThen(was, m1, memory[..], firstMcb, old(blocks), blocks);
    }

    /** The stores of dp_dosblock_mem_resize into a block that gets smaller. */
    method ShrinkAt(seg: u16, newSize: u16, ghost done: seq<Block>, ghost todo: seq<Block>)
      requires memory.Length == PARAGRAPHS && seg > 0
      requires Part(memory[..], firstMcb, done, seg - 1) && Chain(memory[..], seg - 1, todo) && newSize < todo[0].size
      modifies memory
      ensures Chain(memory[..], firstMcb, done + Cut(todo[0], currentPsp, newSize) + todo[1..])
      ensures forall p: nat | p < PARAGRAPHS && memory[p] != old(memory[p]) ::
        IsHeader(firstMcb, done + Cut(todo[0], currentPsp, newSize) + todo[1..], p)
    {
      hide Chain, Part, IsHeader, Cut;
      ghost var m := memory[..];
      ChainHead(m, seg - 1, todo);
      var mcb := seg - 1;
      memory[seg + newSize] := ZEROED.(kind := memory[mcb].kind, psp := PSP_FREE, size := memory[mcb].size - 1 - newSize);
      memory[mcb] := memory[mcb].(size := newSize, kind := TYPE_CONT, psp := currentPsp);
      StoreTake(m, memory[..], firstMcb, done, mcb, todo, currentPsp, newSize);
      PartSpan(m, firstMcb, done, mcb);
      CutHeaders(firstMcb, done, todo[0], currentPsp, newSize, todo[1..]);
    }

    /** The walk of dp_dosblock_mem_resize over a block that is to grow and its free
        neighbour; after compaction there is at most one. */
    method GrowWalk(seg: u16, newSize: u16, ghost todo: seq<Block>) returns (total: u16, last: u16)
      requires memory.Length == PARAGRAPHS && seg > 0 && Chain(memory[..], seg - 1, todo) && todo[0].size < newSize
      requires |todo| > 2 && Free(todo[1]) ==> !Free(todo[2])
      ensures total == Room(todo, 0) && seg - 1 + total <= DOS_MEM_END
      ensures last == if |todo| > 1 && Free(todo[1]) then seg + todo[0].size else seg - 1
    {
      hide Chain;
      ghost var m, step := memory[..], 0;
      ChainHead(m, seg - 1, todo);
      var mcb, cur: u16, next: u16 := seg - 1, seg, seg - 1;
      total, last := 0, seg - 1;
      while newSize > total
        invariant 0 <= step <= 1
        invariant step == 0 ==> total == 0 && cur == seg && next == last == mcb
        invariant step == 1 ==> |todo| > 1 && Free(todo[1]) && total == todo[0].size
        invariant step == 1 ==> next == last == cur == seg + todo[0].size && Chain(m, next, todo[1..])
        decreases 2 - step
      {
        ChainHead(m, next, if step == 0 then todo else todo[1..]);
        var skip := if next == mcb then memory[next].size else memory[next].size + 1;
        total := (total + skip) % 0x1_0000;
        if memory[next].kind == TYPE_END {
          break;
        }
        var nextSeg: u16 := (cur + skip) % 0x1_0000;
        next := nextSeg;
        if memory[next].psp != PSP_FREE {
          break;
        }
        cur, last, step := nextSeg, next, step + 1;
      }
    }

    /** The stores of dp_dosblock_mem_resize into a block that grows. */
    method GrowAt(seg: u16, newSize: u16, total: u16, last: u16)
      requires memory.Length == PARAGRAPHS && seg > 0 && seg + newSize < PARAGRAPHS
      modifies memory
      ensures memory[seg - 1] == old(memory[seg - 1]).(size := newSize, kind := TYPE_CONT, psp := currentPsp)
      ensures memory[seg + newSize]
        == ZEROED.(kind := old(memory[last]).kind, psp := PSP_FREE, size := (total - 1 - newSize) % 0x1_0000)
      ensures forall p: nat | p < PARAGRAPHS && p != seg - 1 && p != seg + newSize :: memory[p] == old(memory[p])
    {
      var lastType := memory[last].kind;
      memory[seg - 1] := memory[seg - 1].(size := newSize, kind := TYPE_CONT, psp := currentPsp);
      memory[seg + newSize] := ZEROED.(kind := lastType, psp := PSP_FREE, size := (total - 1 - newSize) % 0x1_0000);
    }

    /** dp_dosblock_mem_resize of an allocated block. A block that grows by exactly
        its free neighbour wrecks the chain; in every other case the call is sound. */
    method Resize(seg: u16, newSize: u16) returns (ok: bool, size: u16)
      requires Valid() && seg > 0 && LiveAt(firstMcb, blocks, seg - 1)
      modifies this`blocks, memory
      ensures var c, k := Compact(old(blocks)), Position(firstMcb, old(blocks), seg - 1);
        if ExactGrow(c, k, newSize) then
          ok && size == newSize && forall bs :: !Chain(memory[..], firstMcb, bs)
        else
          && Valid() && (blocks, ok, size as nat) == Resized(c, k, currentPsp, newSize)
          && OnlyHeaders(old(memory[..]), memory[..], firstMcb, old(blocks), blocks)
    {
      hide Chain, Part, IsHeader, Cut, Compact, OnlyHeaders, LiveAt, IndexAt, Position, NoFreePair;
      ghost var was := memory[..];
      ghost var k := Position(firstMcb, blocks, seg - 1);
      CompactedHasNoPairs(blocks);
      CompactMcbs();
      ghost var m1, c := memory[..], blocks;
      ghost var done, todo := c[..k], c[k..];
      assert c == done + todo;
      ChainSplit(m1, firstMcb, done, todo);
      ChainHead(m1, seg - 1, todo);
      OnlyHeadersThen(was, m1, m1, firstMcb, old(blocks), c);
      if newSize == memory[seg - 1].size {
        return true, newSize;
      }
      if newSize < memory[seg - 1].size {
        ShrinkAt(seg, newSize, done, todo);
        blocks := done + Cut(todo[0], currentPsp, newSize) + todo[1..];
        OnlyHeadersThen(was, m1, memory[..], firstMcb, old(blocks), blocks);
        return true, newSize;
      }
      var total, last := GrowWalk(seg, newSize, todo);
      if total < newSize {
        return false, total;
      }
      GrowAt(seg, newSize, total, last);
      if total == newSize {
        ExactGrowBreaks(m1, memory[..], firstMcb, done, seg - 1, currentPsp, newSize);
      } else {
        StoreGrow(m1, memory[..], firstMcb, done, seg - 1, todo, currentPsp, newSize);
        blocks := done + Cut(Block(currentPsp, total), currentPsp, newSize) + todo[2..];
        OnlyHeadersThen(was, m1, memory[..], firstMcb, old(blocks), blocks);
      }
      ok, size := true, newSize;
    }
  }

  /** Paragraph p is the header of an allocated block. */
  predicate LiveAt(seg: nat, bs: seq<Block>, p: nat)
    decreases |bs|
  {
    bs != [] && if p == seg then !Free(bs[0]) else LiveAt(seg + bs[0].size + 1, bs[1..], p)
  }

  function IndexAt(seg: nat, bs: seq<Block>, p: nat): (k: nat)
    requires LiveAt(seg, bs, p)
    ensures k < |bs| && seg + Span(bs[..k]) == p && !Free(bs[k])
    decreases |bs|
  {
    if p == seg then 0
    else
      var k := IndexAt(seg + bs[0].size + 1, bs[1..], p);
      assert bs[..k + 1][1..] == bs[1..][..k];
      k + 1
  }

  lemma {:induction false} LiveRange(seg: nat, bs: seq<Block>, p: nat)
    ensures LiveAt(seg, bs, p) ==> seg <= p
    decreases |bs|
  {
    if bs != [] {
      LiveRange(seg + bs[0].size + 1, bs[1..], p);
    }
  }

  lemma MergedLive(seg: nat, bs: seq<Block>, p: nat)
    requires MergeFirst(bs)
    ensures LiveAt(seg, bs, p) <==> LiveAt(seg, Merged(bs), p)
    ensures LiveAt(seg, bs, p) ==> bs[IndexAt(seg, bs, p)] == Merged(bs)[IndexAt(seg, Merged(bs), p)]
  {
    var next, rest := seg + bs[0].size + 1, bs[1..];
    assert Merged(bs)[1..] == rest[1..];
    LiveRange(next + bs[1].size + 1, rest[1..], p);
    assert LiveAt(seg, bs, p) ==> p != seg && LiveAt(next, rest, p) && p != next;
    assert LiveAt(seg, bs, p) ==> IndexAt(seg, bs, p) == 1 + IndexAt(next, rest, p);
  }

  lemma LiveCons(seg: nat, bs: seq<Block>, p: nat)
    requires bs != []
    ensures LiveAt(seg, bs, p) <==> if p == seg then !Free(bs[0]) else LiveAt(seg + bs[0].size + 1, bs[1..], p)
    ensures LiveAt(seg, bs, p) ==>
      bs[IndexAt(seg, bs, p)] == if p == seg then bs[0] else bs[1..][IndexAt(seg + bs[0].size + 1, bs[1..], p)]
  {
  }

  lemma CompactCons(bs: seq<Block>)
    requires |bs| > 1 && !MergeFirst(bs)
    ensures Compact(bs) == [bs[0]] + Compact(bs[1..]) && Compact(bs)[1..] == Compact(bs[1..])
  {
  }

  /** Compaction moves no allocated block and changes none. */
  lemma {:induction false} CompactLive(seg: nat, bs: seq<Block>, p: nat)
    ensures LiveAt(seg, bs, p) <==> LiveAt(seg, Compact(bs), p)
    ensures LiveAt(seg, bs, p) ==> bs[IndexAt(seg, bs, p)] == Compact(bs)[IndexAt(seg, Compact(bs), p)]
    decreases |bs|
  {
    hide LiveAt, IndexAt, Merged;
    if |bs| > 1 {
      if MergeFirst(bs) {
        CompactMerges(bs);
        MergedLive(seg, bs, p);
        MergedShorter(bs);
        CompactLive(seg, Merged(bs), p);
      } else {
        CompactCons(bs);
        LiveCons(seg, bs, p);
        LiveCons(seg, Compact(bs), p);
        CompactLive(seg + bs[0].size + 1, bs[1..], p);
      }
    }
  }

  lemma MergedShorter(bs: seq<Block>)
    requires MergeFirst(bs)
    ensures |Merged(bs)| == |bs| - 1
  {
  }

  /** Where the block at p stands after compaction. */
  function Position(seg: nat, bs: seq<Block>, p: nat): (k: nat)
    requires LiveAt(seg, bs, p)
    ensures k < |Compact(bs)| && seg + Span(Compact(bs)[..k]) == p
    ensures Compact(bs)[k] == bs[IndexAt(seg, bs, p)]
  {
    CompactLive(seg, bs, p);
    IndexAt(seg, Compact(bs), p)
  }

  /** A block and its free neighbour turned into the larger block and the rest. */
  lemma StoreGrow(m: seq<Paragraph>, m': seq<Paragraph>, first: nat, done: seq<Block>, seg: nat, todo: seq<Block>, psp: u16, n: nat)
    requires |m| == |m'| == PARAGRAPHS && Part(m, first, done, seg) && Chain(m, seg, todo)
    requires |todo| > 1 && Free(todo[1]) && todo[0].size < n < Room(todo, 0)
    requires HeaderOf(m', seg, Block(psp, n), TYPE_CONT)
    requires HeaderOf(m', seg + 1 + n, Block(PSP_FREE, Room(todo, 0) - 1 - n), m[seg + todo[0].size + 1].kind)
    requires forall p: nat | p < PARAGRAPHS && p != seg && p != seg + 1 + n :: m'[p] == m[p]
    ensures var bs := done + Cut(Block(psp, Room(todo, 0)), psp, n) + todo[2..];
      Chain(m', first, bs) && IsHeader(first, bs, seg) && IsHeader(first, bs, seg + 1 + n)
  {
    hide Chain, Part, IsHeader, Cut;
    var next, big, rest := seg + todo[0].size + 1, Block(psp, Room(todo, 0)), todo[2..];
    PartSpan(m, first, done, seg);
    PartFrame(m, m', first, done, seg);
    ChainHead(m, seg, todo);
    ChainHead(m, next, todo[1..]);
    assert todo[1..][1..] == rest;
    ClosesJoin(m, seg, todo[0].size, todo[1], m[next].kind, rest);
    StoreCut(m, m', seg, big, m[next].kind, psp, n, rest);
    PartChain(m', first, done, seg, Cut(big, psp, n) + rest);
    assert done + (Cut(big, psp, n) + rest) == done + Cut(big, psp, n) + rest;
    CutHeaders(first, done, big, psp, n, rest);
  }

  /** A chain has no choice: it starts with any headers found in its place. */
  lemma {:induction false} ChainFollows(m: seq<Paragraph>, seg: nat, done: seq<Block>, to: nat, bs: seq<Block>)
    requires |m| == PARAGRAPHS && Part(m, seg, done, to) && Chain(m, seg, bs)
    ensures |done| < |bs| && Chain(m, to, bs[|done|..])
    decreases |done|
  {
    if done != [] {
      ChainFollows(m, seg + done[0].size + 1, done[1..], to, bs[1..]);
      assert bs[1..][|done| - 1..] == bs[|done|..];
    } else {
      assert bs[0..] == bs;
    }
  }

  /** Growing by exactly the free neighbour leaves a header of 0xffff paragraphs, and
      no list of blocks fits the memory any more. */
  lemma ExactGrowBreaks(m: seq<Paragraph>, m': seq<Paragraph>, first: nat, done: seq<Block>, seg: nat, psp: u16, n: u16)
    requires |m| == |m'| == PARAGRAPHS && Part(m, first, done, seg)
    requires seg + n <= DOS_MEM_END
    requires m'[seg].size == n && m'[seg].kind == TYPE_CONT && m'[seg].psp == psp
    requires m'[seg + 1 + n].size == 0xffff
    requires forall p: nat | p < PARAGRAPHS && p != seg && p != seg + 1 + n :: m'[p] == m[p]
    ensures forall bs :: !Chain(m', first, bs)
  {
    PartSpan(m, first, done, seg);
    PartFrame(m, m', first, done, seg);
    PartAppend(m', first, done, seg, Block(psp, n));
    forall bs ensures !Chain(m', first, bs) {
      if Chain(m', first, bs) {
        ChainFollows(m', first, done + [Block(psp, n)], seg + n + 1, bs);
      }
    }
  }

  predicate NoFreePair(bs: seq<Block>) {
    forall i | 0 <= i < |bs| - 1 :: !(Free(bs[i]) && Free(bs[i + 1]))
  }

  lemma {:induction false} CompactedHasNoPairs(bs: seq<Block>)
    ensures NoFreePair(Compact(bs))
    ensures bs != [] ==> Compact(bs) != [] && (Free(Compact(bs)[0]) <==> Free(bs[0]))
    decreases |bs|
  {
    if |bs| > 1 {
      if MergeFirst(bs) {
        CompactedHasNoPairs(Merged(bs));
      } else {
        CompactedHasNoPairs(bs[1..]);
      }
    }
  }

  /** The case dp_dosblock_mem_resize does not handle. */
  predicate ExactGrow(c: seq<Block>, k: nat, n: nat)
    requires k < |c|
  {
    c[k].size < n == Room(c, k)
  }

  lemma FitHere(todo: seq<Block>, segs: nat)
    requires todo != [] && Free(todo[0]) && segs <= todo[0].size
    ensures FirstFit(todo, segs) == 0
  {
  }

  lemma NoFit(first: nat, c: seq<Block>, psp: u16, segs: nat)
    requires FirstFit(c, segs) == |c|
    ensures Allocated(first, c, psp, segs) == (c, 0)
  {
  }

  lemma LargestNext(largest: nat, todo: seq<Block>)
    requires todo != []
    ensures Max(largest, Largest(todo)) == Max(Max(largest, if Free(todo[0]) then todo[0].size else 0), Largest(todo[1..]))
    ensures |todo| == 1 ==> Largest(todo[1..]) == 0
  {
  }

  lemma FitNext(done: seq<Block>, todo: seq<Block>, segs: nat)
    requires todo != [] && !(Free(todo[0]) && segs <= todo[0].size)
    requires FirstFit(done + todo, segs) == |done| + FirstFit(todo, segs)
    ensures done + todo == (done + [todo[0]]) + todo[1..]
    ensures FirstFit(done + todo, segs) == |done + [todo[0]]| + FirstFit(todo[1..], segs)
    ensures |todo| == 1 ==> FirstFit(done + todo, segs) == |done + todo|
  {
  }

  lemma FitFound(m: seq<Paragraph>, first: nat, done: seq<Block>, seg: u16, todo: seq<Block>, psp: u16, segs: nat)
    requires |m| == PARAGRAPHS && Part(m, first, done, seg)
    requires todo != [] && Free(todo[0]) && segs <= todo[0].size
    requires FirstFit(done + todo, segs) == |done|
    ensures Allocated(first, done + todo, psp, segs)
         == (done + Cut(todo[0], OwnerFor(psp, seg), segs) + todo[1..], seg + 1)
  {
    PartSpan(m, first, done, seg);
    assert (done + todo)[..|done|] == done && (done + todo)[|done| + 1..] == todo[1..];
  }

  /** Handing out the block under the walk, whole or cut. */
  lemma StoreTake(m: seq<Paragraph>, m': seq<Paragraph>, first: nat, done: seq<Block>, seg: nat, todo: seq<Block>, owner: u16, n: nat)
    requires |m| == |m'| == PARAGRAPHS && Part(m, first, done, seg) && Chain(m, seg, todo) && n <= todo[0].size
    requires n == todo[0].size ==> m'[seg] == m[seg].(psp := owner)
    requires n < todo[0].size ==> (
      && HeaderOf(m', seg, Block(owner, n), TYPE_CONT)
      && HeaderOf(m', seg + 1 + n, Block(PSP_FREE, todo[0].size - 1 - n), m[seg].kind))
    requires forall p | 0 <= p < PARAGRAPHS && p != seg && (n < todo[0].size ==> p != seg + 1 + n) :: m'[p] == m[p]
    ensures Chain(m', first, done + Cut(todo[0], owner, n) + todo[1..])
  {
    hide Part, Chain;
    ChainHead(m, seg, todo);
    var rest := todo[1..];
    PartSpan(m, first, done, seg);
    PartFrame(m, m', first, done, seg);
    if n == todo[0].size {
      StoreOwner(m, m', seg, todo, owner);
    } else {
      StoreCut(m, m', seg, todo[0], m[seg].kind, owner, n, rest);
    }
    PartChain(m', first, done, seg, Cut(todo[0], owner, n) + rest);
    assert done + (Cut(todo[0], owner, n) + rest) == done + Cut(todo[0], owner, n) + rest;
  }

  lemma StoreOwner(m: seq<Paragraph>, m': seq<Paragraph>, seg: nat, todo: seq<Block>, owner: u16)
    requires |m| == |m'| == PARAGRAPHS && Chain(m, seg, todo)
    requires m'[seg] == m[seg].(psp := owner)
    requires forall p | seg < p < PARAGRAPHS :: m'[p] == m[p]
    ensures Chain(m', seg, Cut(todo[0], owner, todo[0].size) + todo[1..])
  {
    ChainHead(m, seg, todo);
    ClosesFrame(m, m', seg, todo[0], m[seg].kind, todo[1..]);
    ChainCons(m', seg, Block(owner, todo[0].size), m[seg].kind, todo[1..]);
  }

  /** The headers a cut leaves. */
  lemma CutHeaders(first: nat, done: seq<Block>, b: Block, owner: u16, n: nat, rest: seq<Block>)
    requires n <= b.size
    ensures var seg, bs := first + Span(done), done + Cut(b, owner, n) + rest;
      && IsHeader(first, bs, seg)
      && (n < b.size ==> IsHeader(first, bs, seg + 1 + n))
  {
    var seg, tail := first + Span(done), Cut(b, owner, n) + rest;
    assert done + tail == done + Cut(b, owner, n) + rest;
    AcrossConcat(first, done, tail, seg);
    if n < b.size {
      AcrossConcat(first, done, tail, seg + 1 + n);
      assert tail[1..] == [Block(PSP_FREE, b.size - 1 - n)] + rest;
    }
  }

  lemma OnlyHeadersThen(m: seq<Paragraph>, m1: seq<Paragraph>, m2: seq<Paragraph>, first: nat, bs: seq<Block>, bs': seq<Block>)
    requires OnlyHeaders(m, m1, first, bs, []) && |m2| == |m1|
    requires forall p: nat | p < |m| && m2[p] != m1[p] :: IsHeader(first, bs', p)
    ensures OnlyHeaders(m, m2, first, bs, bs')
  {
  }

  lemma CompactMerges(todo: seq<Block>)
    requires MergeFirst(todo)
    ensures Compact(todo) == Compact(Merged(todo))
  {
  }

  lemma WalkStarts(m: seq<Paragraph>, seg: nat, bs: seq<Block>)
    requires |m| == PARAGRAPHS
    ensures Part(m, seg, [], seg) && [] + bs == bs && [] + Compact(bs) == Compact(bs)
  {
  }

  lemma WalkEnds(m: seq<Paragraph>, first: nat, done: seq<Block>, seg: nat, todo: seq<Block>)
    requires |m| == PARAGRAPHS && Part(m, first, done, seg) && Chain(m, seg, todo)
    ensures Chain(m, first, done + todo)
    ensures m[seg].kind == TYPE_END ==> |todo| == 1 && Compact(todo) == todo
  {
    PartChain(m, first, done, seg, todo);
  }

  // ----- when an allocation succeeds

  /** The paragraphs of the run of free blocks that starts here, their inner headers
      reclaimed. */
  function FreeRun(bs: seq<Block>): nat
    decreases |bs|
  {
    if bs == [] || !Free(bs[0]) then 0
    else bs[0].size + if |bs| > 1 && Free(bs[1]) then 1 + FreeRun(bs[1..]) else 0
  }

  /** Some run of adjacent free blocks holds n paragraphs. */
  ghost predicate RunHolds(bs: seq<Block>, n: nat) {
    exists i :: 0 <= i < |bs| && RunAt(bs, i, n)
  }

  ghost predicate RunAt(bs: seq<Block>, i: nat, n: nat)
    requires i < |bs|
  {
    Free(bs[i]) && FreeRun(bs[i..]) >= n
  }

  lemma RunFirst(bs: seq<Block>, n: nat)
    requires bs != []
    ensures RunHolds(bs, n) <==> (Free(bs[0]) && FreeRun(bs) >= n) || RunHolds(bs[1..], n)
  {
    assert bs[0..] == bs;
    if RunHolds(bs, n) && !RunAt(bs, 0, n) {
      var i :| 0 <= i < |bs| && RunAt(bs, i, n);
      assert bs[1..][i - 1..] == bs[i..];
      assert RunAt(bs[1..], i - 1, n);
    }
    if RunHolds(bs[1..], n) {
      var i :| 0 <= i < |bs[1..]| && RunAt(bs[1..], i, n);
      assert bs[1..][i..] == bs[i + 1..];
      assert RunAt(bs, i + 1, n);
    }
    if RunAt(bs, 0, n) {
      assert RunHolds(bs, n);
    }
  }

  lemma RunMerged(bs: seq<Block>, n: nat)
    requires MergeFirst(bs)
    ensures FreeRun(Merged(bs)) == FreeRun(bs)
    ensures RunHolds(Merged(bs), n) <==> RunHolds(bs, n)
  {
    assert Merged(bs)[1..] == bs[1..][1..];
    RunFirst(bs, n);
    RunFirst(bs[1..], n);
    RunFirst(Merged(bs), n);
  }

  lemma {:induction false} CompactRuns(bs: seq<Block>, n: nat)
    ensures RunHolds(Compact(bs), n) <==> RunHolds(bs, n)
    ensures FreeRun(Compact(bs)) == FreeRun(bs)
    decreases |bs|
  {
    if |bs| > 1 {
      if MergeFirst(bs) {
        RunMerged(bs, n);
        CompactRuns(Merged(bs), n);
      } else {
        CompactRuns(bs[1..], n);
        CompactedHasNoPairs(bs[1..]);
        RunFirst(bs, n);
        RunFirst(Compact(bs), n);
        assert Compact(bs)[1..] == Compact(bs[1..]);
      }
    }
  }

  /** In a compacted list the runs are single blocks. */
  lemma FitIsRun(c: seq<Block>, n: nat)
    requires NoFreePair(c)
    ensures FirstFit(c, n) < |c| <==> RunHolds(c, n)
  {
    forall i | 0 <= i < |c| ensures RunAt(c, i, n) <==> Free(c[i]) && n <= c[i].size {
      assert i + 1 < |c| ==> c[i..][1] == c[i + 1];
    }
    if FirstFit(c, n) < |c| {
      assert RunAt(c, FirstFit(c, n), n);
    }
  }

  /** dp_dosblock_mem_allocate returns 0 exactly when no run of adjacent free blocks,
      headers reclaimed, holds the request. */
  lemma AllocateFailsIff(first: nat, bs: seq<Block>, psp: u16, n: nat)
    ensures Allocated(first, Compact(bs), psp, n).1 == 0 <==> !RunHolds(bs, n)
  {
    CompactedHasNoPairs(bs);
    FitIsRun(Compact(bs), n);
    CompactRuns(bs, n);
  }

  ghost predicate SomeFree(bs: seq<Block>) {
    exists i :: 0 <= i < |bs| && Free(bs[i])
  }

  /** dp_dosblock_mem_get_largest_block finds the size of a free block and no free
      block is larger. */
  lemma {:induction false} LargestIsMax(bs: seq<Block>)
    ensures forall i | 0 <= i < |bs| && Free(bs[i]) :: bs[i].size <= Largest(bs)
    ensures SomeFree(bs) ==> exists i :: 0 <= i < |bs| && Free(bs[i]) && bs[i].size == Largest(bs)
    ensures !SomeFree(bs) ==> Largest(bs) == 0
  {
    if bs != [] {
      LargestIsMax(bs[1..]);
      if SomeFree(bs) && !Free(bs[0]) {
        var i :| 0 <= i < |bs| && Free(bs[i]);
        assert Free(bs[1..][i - 1]);
      }
    }
  }

  /** The request dp_dosblock_load makes, cut down to the largest block it saw before
      compaction, succeeds exactly when some block is free. */
  lemma CappedRequestSucceedsIff(first: nat, bs: seq<Block>, psp: u16, n: nat)
    ensures Allocated(first, Compact(bs), psp, if Largest(bs) < n then Largest(bs) else n).1 != 0 <==> SomeFree(bs)
  {
    var capped := if Largest(bs) < n then Largest(bs) else n;
    AllocateFailsIff(first, bs, psp, capped);
    CappedRun(bs, capped);
  }

  lemma CappedRun(bs: seq<Block>, n: nat)
    requires n <= Largest(bs)
    ensures RunHolds(bs, n) <==> SomeFree(bs)
  {
    if SomeFree(bs) {
      LargestIsMax(bs);
      var i :| 0 <= i < |bs| && Free(bs[i]) && bs[i].size == Largest(bs);
      assert RunAt(bs, i, n);
    }
  }

  // ----- runs

  /** Block b has its header at p. */
  predicate Holds(seg: nat, bs: seq<Block>, p: nat, b: Block)
    decreases |bs|
  {
    bs != [] && ((p == seg && b == bs[0]) || Holds(seg + bs[0].size + 1, bs[1..], p, b))
  }

  lemma {:induction false} HoldsConcat(seg: nat, a: seq<Block>, b: seq<Block>, p: nat, x: Block)
    ensures Holds(seg, a + b, p, x) <==> Holds(seg, a, p, x) || Holds(seg + Span(a), b, p, x)
    ensures Span(a + b) == Span(a) + Span(b)
    decreases |a|
  {
    if a == [] {
      assert a + b == b;
    } else {
      assert (a + b)[1..] == a[1..] + b;
      HoldsConcat(seg + a[0].size + 1, a[1..], b, p, x);
    }
  }

  lemma MergedKeeps(seg: nat, bs: seq<Block>, p: nat, x: Block)
    requires MergeFirst(bs)
    ensures Span(Merged(bs)) == Span(bs)
    ensures Holds(seg, bs, p, x) && !Free(x) ==> Holds(seg, Merged(bs), p, x)
  {
    assert Merged(bs)[1..] == bs[1..][1..];
    assert Span(bs[1..]) == bs[1].size + 1 + Span(bs[1..][1..]);
    var next := seg + bs[0].size + 1;
    assert Holds(next, bs[1..], p, x) && !Free(x) ==> Holds(next + bs[1].size + 1, bs[1..][1..], p, x);
  }

  /** One block on its own. */
  lemma HoldsOne(seg: nat, b: Block, p: nat, x: Block)
    ensures Span([b]) == b.size + 1
    ensures Holds(seg, [b], p, x) <==> p == seg && x == b
  {
    assert [b][1..] == [];
  }

  lemma {:induction false} CompactKeeps(seg: nat, bs: seq<Block>, p: nat, x: Block)
    ensures Span(Compact(bs)) == Span(bs)
    ensures Holds(seg, bs, p, x) && !Free(x) ==> Holds(seg, Compact(bs), p, x)
    decreases |bs|
  {
    if |bs| > 1 {
      if MergeFirst(bs) {
        MergedKeeps(seg, bs, p, x);
        CompactKeeps(seg, Merged(bs), p, x);
      } else {
        CompactKeeps(seg + bs[0].size + 1, bs[1..], p, x);
      }
    }
  }

  /** The k-th block and perhaps its successors replaced by blocks of the same span:
      the others stay. */
  lemma ReplaceKeeps(seg: nat, a: seq<Block>, old_: seq<Block>, new_: seq<Block>, rest: seq<Block>, p: nat, x: Block)
    requires Span(old_) == Span(new_)
    ensures Span(a + new_ + rest) == Span(a + old_ + rest)
    ensures Holds(seg, a + old_ + rest, p, x) && !Holds(seg + Span(a), old_, p, x) ==> Holds(seg, a + new_ + rest, p, x)
  {
    HoldsConcat(seg, a + old_, rest, p, x);
    HoldsConcat(seg, a + new_, rest, p, x);
    HoldsConcat(seg, a, old_, p, x);
    HoldsConcat(seg, a, new_, p, x);
  }

  /** The calls DOS programs make; a resize names the header of an allocated block. */
  datatype McbOp =
    | CompactOp
    | AllocateOp(psp: u16, segs: u16)
    | ResizeOp(header: nat, psp: u16, newSize: u16)

  predicate Sound(first: nat, bs: seq<Block>, op: McbOp) {
    op.ResizeOp? ==> (
      && LiveAt(first, bs, op.header)
      && !ExactGrow(Compact(bs), Position(first, bs, op.header), op.newSize))
  }

  function Step(first: nat, bs: seq<Block>, op: McbOp): seq<Block>
    requires Sound(first, bs, op)
  {
    match op
    case CompactOp => Compact(bs)
    case AllocateOp(psp, segs) => Allocated(first, Compact(bs), psp, segs).0
    case ResizeOp(header, psp, newSize) =>
      Resized(Compact(bs), Position(first, bs, header), psp, newSize).0
  }

  lemma AllocateKeeps(first: nat, c: seq<Block>, psp: u16, segs: nat, p: nat, x: Block)
    ensures var c' := Allocated(first, c, psp, segs).0;
      Span(c') == Span(c) && (Holds(first, c, p, x) && !Free(x) ==> Holds(first, c', p, x))
  {
    var k := FirstFit(c, segs);
    if k < |c| {
      var seg := first + Span(c[..k]);
      var owner := OwnerFor(psp, seg % 0x1_0000);
      CutSpan(c[k], owner, segs);
      HoldsOne(seg, c[k], p, x);
      assert c == c[..k] + [c[k]] + c[k+1..];
      ReplaceKeeps(first, c[..k], [c[k]], Cut(c[k], owner, segs), c[k+1..], p, x);
    }
  }

  lemma ResizeKeeps(first: nat, c: seq<Block>, k: nat, psp: u16, n: nat, p: nat, x: Block)
    requires k < |c| && !ExactGrow(c, k, n)
    ensures var c' := Resized(c, k, psp, n).0;
      && Span(c') == Span(c)
      && (Holds(first, c, p, x) && !Free(x) && p != first + Span(c[..k]) ==> Holds(first, c', p, x))
  {
    HoldsOne(first + Span(c[..k]), c[k], p, x);
    if n < c[k].size {
      CutSpan(c[k], psp, n);
      assert c == c[..k] + [c[k]] + c[k+1..];
      ReplaceKeeps(first, c[..k], [c[k]], Cut(c[k], psp, n), c[k+1..], p, x);
    } else if c[k].size < n < Room(c, k) {
      var big := Block(psp, Room(c, k));
      CutSpan(big, psp, n);
      var pair := [c[k]] + [c[k+1]];
      HoldsConcat(first + Span(c[..k]), [c[k]], [c[k+1]], p, x);
      HoldsOne(first + Span(c[..k]) + c[k].size + 1, c[k+1], p, x);
      assert c == c[..k] + pair + c[k+2..];
      ReplaceKeeps(first, c[..k], pair, Cut(big, psp, n), c[k+2..], p, x);
    }
  }

  /** No call moves, resizes or frees an allocated block it was not asked about. */
  lemma StepKeeps(first: nat, bs: seq<Block>, op: McbOp, p: nat, x: Block)
    requires Sound(first, bs, op)
    ensures Span(Step(first, bs, op)) == Span(bs)
    ensures Holds(first, bs, p, x) && !Free(x) && !(op.ResizeOp? && op.header == p)
      ==> Holds(first, Step(first, bs, op), p, x)
  {
    CompactKeeps(first, bs, p, x);
    match op
    case CompactOp =>
    case AllocateOp(psp, segs) => AllocateKeeps(first, Compact(bs), psp, segs, p, x);
    case ResizeOp(header, psp, newSize) =>
      ResizeKeeps(first, Compact(bs), Position(first, bs, header), psp, newSize, p, x);
  }

  function Run(first: nat, bs: seq<Block>, ops: seq<McbOp>): seq<Block>
    requires AllSound(first, bs, ops)
    decreases |ops|
  {
    if ops == [] then bs else Run(first, Step(first, bs, ops[0]), ops[1..])
  }

  predicate AllSound(first: nat, bs: seq<Block>, ops: seq<McbOp>)
    decreases |ops|
  {
    ops != [] ==> Sound(first, bs, ops[0]) && AllSound(first, Step(first, bs, ops[0]), ops[1..])
  }

  lemma {:induction false} SpanBounds(bs: seq<Block>, k: nat)
    requires k < |bs|
    ensures bs[k].size < Span(bs)
  {
    if k > 0 {
      SpanBounds(bs[1..], k - 1);
    }
  }

  /** Over any run the chain covers the same paragraphs, so no size leaves 16 bits,
      and an allocated block that no resize names stays where and what it was. */
  lemma {:induction false} RunKeepsTiling(first: nat, bs: seq<Block>, ops: seq<McbOp>, p: nat, x: Block)
    requires AllSound(first, bs, ops) && Span(bs) <= 0x1_0000
    ensures Span(Run(first, bs, ops)) == Span(bs)
    ensures forall k | 0 <= k < |Run(first, bs, ops)| :: Run(first, bs, ops)[k].size < 0x1_0000
    ensures Holds(first, bs, p, x) && !Free(x) && (forall op | op in ops :: !(op.ResizeOp? && op.header == p))
      ==> Holds(first, Run(first, bs, ops), p, x)
    decreases |ops|
  {
    if ops == [] {
      forall k | 0 <= k < |bs| ensures bs[k].size < 0x1_0000 {
        SpanBounds(bs, k);
      }
    } else {
      StepKeeps(first, bs, ops[0], p, x);
      RunKeepsTiling(first, Step(first, bs, ops[0]), ops[1..], p, x);
    }
  }

  /** An allocated block that is held owns its paragraphs. */
  lemma {:induction false} HeldIsOwned(seg: nat, bs: seq<Block>, p: nat, x: Block, q: nat)
    requires Holds(seg, bs, p, x) && !Free(x) && p < q <= p + x.size
    ensures Owned(seg, bs, q)
    decreases |bs|
  {
    if !(p == seg && x == bs[0]) {
      HeldIsOwned(seg + bs[0].size + 1, bs[1..], p, x, q);
    }
  }

  /** One call with the memory before and after it. */
  datatype Call = Call(op: McbOp, before: seq<Paragraph>, after: seq<Paragraph>)

  /** Calls one after the other; between them programs may write to memory. */
  ghost predicate Calls(first: nat, bs: seq<Block>, calls: seq<Call>)
    decreases |calls|
  {
    calls != [] ==> (
      && Sound(first, bs, calls[0].op)
      && OnlyHeaders(calls[0].before, calls[0].after, first, bs, Step(first, bs, calls[0].op))
      && Calls(first, Step(first, bs, calls[0].op), calls[1..]))
  }

  predicate Names(op: McbOp, header: nat) {
    op.ResizeOp? && op.header == header
  }

  lemma OneCallKeeps(first: nat, bs: seq<Block>, call: Call, p: nat, x: Block, q: nat)
    requires Sound(first, bs, call.op) && OnlyHeaders(call.before, call.after, first, bs, Step(first, bs, call.op))
    requires Holds(first, bs, p, x) && !Free(x) && !Names(call.op, p) && p < q <= p + x.size && q < |call.before|
    ensures Holds(first, Step(first, bs, call.op), p, x)
    ensures q < |call.after| && call.after[q] == call.before[q]
  {
    hide Holds, OnlyHeaders, Sound, Step, Owned;
    var bs' := Step(first, bs, call.op);
    StepKeeps(first, bs, call.op, p, x);
    HeldIsOwned(first, bs, p, x, q);
    HeldIsOwned(first, bs', p, x, q);
    SameLength(call.before, call.after, first, bs, bs');
    ContentsKept(call.before, call.after, first, bs, bs', q);
  }

  lemma SameLength(m: seq<Paragraph>, m': seq<Paragraph>, first: nat, bs: seq<Block>, bs': seq<Block>)
    requires OnlyHeaders(m, m', first, bs, bs')
    ensures |m| == |m'|
  {
  }

  /** Over any run of calls, none of them writes to an allocated block that no resize
      names; memory only programs could write is at the end as it was at the start. */
  lemma {:induction false} RunKeepsContents(first: nat, bs: seq<Block>, calls: seq<Call>, p: nat, x: Block, q: nat)
    requires Calls(first, bs, calls) && Holds(first, bs, p, x) && !Free(x) && p < q <= p + x.size
    requires forall i | 0 <= i < |calls| :: !Names(calls[i].op, p) && q < |calls[i].before|
    ensures forall i | 0 <= i < |calls| :: q < |calls[i].after| && calls[i].after[q] == calls[i].before[q]
    ensures calls != [] && (forall i | 0 < i < |calls| :: calls[i].before[q] == calls[i - 1].after[q])
      ==> calls[|calls| - 1].after[q] == calls[0].before[q]
    decreases |calls|
  {
    if calls != [] {
      hide Holds, OnlyHeaders, Sound, Step;
      var rest := calls[1..];
      OneCallKeeps(first, bs, calls[0], p, x, q);
      RunKeepsContents(first, Step(first, bs, calls[0].op), rest, p, x, q);
      assert forall i | 0 < i < |calls| :: calls[i] == rest[i - 1];
      if |calls| > 1 && forall i | 0 < i < |calls| :: calls[i].before[q] == calls[i - 1].after[q] {
        assert forall i | 0 < i < |rest| :: rest[i] == calls[i + 1] && rest[i - 1] == calls[i];
        assert forall i | 0 < i < |rest| :: rest[i].before[q] == rest[i - 1].after[q];
        assert rest[|rest| - 1] == calls[|calls| - 1];
      }
    }
  }

  // ----- what a successful call gives

  lemma HoldsInside(first: nat, a: seq<Block>, b: Block, rest: seq<Block>)
    ensures Holds(first, a + [b] + rest, first + Span(a), b)
  {
    HoldsConcat(first, a + [b], rest, first + Span(a), b);
    HoldsConcat(first, a, [b], first + Span(a), b);
    HoldsOne(first + Span(a), b, first + Span(a), b);
  }

  lemma CutHolds(first: nat, a: seq<Block>, b: Block, owner: u16, n: nat, rest: seq<Block>)
    requires n <= b.size
    ensures var seg, bs := first + Span(a), a + Cut(b, owner, n) + rest;
      && Holds(first, bs, seg, Block(owner, n))
      && (n < b.size ==> Holds(first, bs, seg + n + 1, Block(PSP_FREE, b.size - 1 - n)))
  {
    var taken := Block(owner, n);
    if n < b.size {
      var split := Block(PSP_FREE, b.size - 1 - n);
      assert a + Cut(b, owner, n) + rest == a + [taken] + ([split] + rest);
      HoldsInside(first, a, taken, [split] + rest);
      assert a + Cut(b, owner, n) + rest == (a + [taken]) + [split] + rest;
      HoldsInside(first, a + [taken], split, rest);
      HoldsConcat(first, a, [taken], 0, taken);
      HoldsOne(first, taken, 0, taken);
    } else {
      HoldsInside(first, a, taken, rest);
    }
  }

  /** A successful allocation hands out exactly the paragraphs asked for, in the lowest
      run that holds them, owned by the caller or by itself. */
  lemma AllocateGives(first: u16, bs: seq<Block>, psp: u16, n: nat)
    requires first + Span(bs) == DOS_MEM_END + 1 && first > 0 && RunHolds(bs, n)
    ensures var (bs', r) := Allocated(first, Compact(bs), psp, n);
      && first < r <= 0xffff
      && var owner := OwnerFor(psp, r - 1);
      && Holds(first, bs', r - 1, Block(owner, n)) && owner != PSP_FREE
      && forall i | 0 <= i < |Compact(bs)| && first + Span(Compact(bs)[..i]) < r - 1 ::
           !(Free(Compact(bs)[i]) && n <= Compact(bs)[i].size)
  {
    hide Compact, Holds, Cut, RunHolds;
    var c := Compact(bs);
    AllocateFailsIff(first, bs, psp, n);
    CompactKeeps(first, bs, 0, Block(0, 0));
    var k := FirstFit(c, n);
    SpanOrder(c, k);
    CutHolds(first, c[..k], c[k], OwnerFor(psp, (first + Span(c[..k])) % 0x1_0000), n, c[k+1..]);
  }

  lemma SpanOrder(c: seq<Block>, k: nat)
    requires k < |c|
    ensures Span(c[..k]) < Span(c)
    ensures forall i | 0 <= i < |c| && Span(c[..i]) < Span(c[..k]) :: i < k
  {
    assert c == c[..k] + c[k..];
    HoldsConcat(0, c[..k], c[k..], 0, c[k]);
    forall i | k <= i < |c| ensures Span(c[..k]) <= Span(c[..i]) {
      assert c[..i] == c[..k] + c[k..i];
      HoldsConcat(0, c[..k], c[k..i], 0, c[k]);
    }
  }

  /** A resize that keeps the chain and succeeds gives the block exactly the requested
      size and, when the size changes, the rest to one free block behind it; one that
      fails changes nothing but compaction and reports what the block could have had. */
  lemma ResizeGives(first: nat, bs: seq<Block>, header: nat, psp: u16, n: nat)
    requires LiveAt(first, bs, header)
    requires !ExactGrow(Compact(bs), Position(first, bs, header), n)
    ensures var c, k := Compact(bs), Position(first, bs, header);
      var (bs', ok, reported) := Resized(c, k, psp, n);
      && (ok <==> n <= Room(c, k))
      && (!ok ==> bs' == c && reported == Room(c, k))
      && (ok && n == c[k].size ==> bs' == c)
      && (ok && n != c[k].size ==> Holds(first, bs', header, Block(psp, n)))
      && (ok && n < c[k].size ==> Holds(first, bs', header + n + 1, Block(PSP_FREE, c[k].size - 1 - n)))
      && (ok && n > c[k].size ==> Holds(first, bs', header + n + 1, Block(PSP_FREE, Room(c, k) - 1 - n)))
  {
    hide Compact, Holds, Cut, LiveAt;
    var c, k := Compact(bs), Position(first, bs, header);
    if n < c[k].size {
      CutHolds(first, c[..k], c[k], psp, n, c[k+1..]);
    } else if c[k].size < n < Room(c, k) {
      CutHolds(first, c[..k], Block(psp, Room(c, k)), psp, n, c[k+2..]);
    }
  }

  // ----- dp_dosblock_init_mem

  const FIRST_FREE := DOS_MEM_START + 24

  const INITIAL_BLOCKS: seq<Block> :=
    [Block(PSP_DOS, 1), Block(PSP_DOS, 4), Block(0x40, 16), Block(PSP_FREE, DOS_MEM_END - FIRST_FREE)]

  lemma InitialChain(m: seq<Paragraph>)
    requires |m| == PARAGRAPHS
    requires HeaderOf(m, DOS_MEM_START, INITIAL_BLOCKS[0], TYPE_CONT)
    requires HeaderOf(m, DOS_MEM_START + 2, INITIAL_BLOCKS[1], TYPE_CONT)
    requires HeaderOf(m, DOS_MEM_START + 7, INITIAL_BLOCKS[2], TYPE_CONT)
    requires HeaderOf(m, FIRST_FREE, INITIAL_BLOCKS[3], TYPE_END)
    ensures Chain(m, DOS_MEM_START, INITIAL_BLOCKS)
  {
    ChainCons(m, FIRST_FREE, INITIAL_BLOCKS[3], TYPE_END, []);
    ChainCons(m, DOS_MEM_START + 7, INITIAL_BLOCKS[2], TYPE_CONT, [INITIAL_BLOCKS[3]]);
    ChainCons(m, DOS_MEM_START + 2, INITIAL_BLOCKS[1], TYPE_CONT, [INITIAL_BLOCKS[2]] + [INITIAL_BLOCKS[3]]);
    ChainCons(m, DOS_MEM_START, INITIAL_BLOCKS[0], TYPE_CONT, INITIAL_BLOCKS[1..]);
    assert INITIAL_BLOCKS[1..] == [INITIAL_BLOCKS[1]] + ([INITIAL_BLOCKS[2]] + [INITIAL_BLOCKS[3]]);
    assert INITIAL_BLOCKS == [INITIAL_BLOCKS[0]] + INITIAL_BLOCKS[1..];
  }

  /** The failing resize can be the first call made: the block of 16 paragraphs grown
      by the whole of the free memory behind it. */
  lemma FirstExactGrow()
    ensures var (header, n) := (DOS_MEM_START + 7, 16 + (DOS_MEM_END - FIRST_FREE) + 1);
      && n <= 0xffff && LiveAt(DOS_MEM_START, INITIAL_BLOCKS, header)
      && ExactGrow(Compact(INITIAL_BLOCKS), Position(DOS_MEM_START, INITIAL_BLOCKS, header), n)
  {
    var bs := INITIAL_BLOCKS;
    var header := DOS_MEM_START + 7;
    assert Compact(bs) == bs by {
      assert bs[1..][1..] == bs[2..];
      assert bs[2..][1..] == bs[3..];
      assert Compact(bs[3..]) == bs[3..];
      assert Compact(bs[2..]) == bs[2..];
      assert Compact(bs[1..]) == bs[1..];
    }
    assert LiveAt(header, bs[2..], header);
    assert LiveAt(header - 5, bs[1..], header);
    assert LiveAt(header - 7, bs, header);
    assert IndexAt(DOS_MEM_START, bs, header) == 2;
  }
}
