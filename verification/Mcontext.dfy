/** mco/swap.S and mco/Mcontext.cpp for x86_64: a machine of registers and 8-byte words of memory. */
module Mcontext {

  /** A machine word. Addresses are not near the ends of the address space: nothing wraps. */
  type Word = int

  type Memory = map<Word, Word>

  datatype Regs = Regs(
    rax: Word, rbx: Word, rcx: Word, rdx: Word, rdi: Word, rsi: Word, rbp: Word, r8: Word, r9: Word,
    r10: Word, r11: Word, r12: Word, r13: Word, r14: Word, r15: Word, rsp: Word)

  datatype Cpu = Cpu(r: Regs, rip: Word, mem: Memory)

  const REGS_BYTES: Word := 136      // sizeof regs: 17 words

  function Load(mem: Memory, a: Word): Word {
    if a in mem then mem[a] else 0
  }

  /** a lies in the regs array of the Mcontext at ctx. */
  predicate InRegs(a: Word, ctx: Word) {
    ctx <= a < ctx + REGS_BYTES
  }

  predicate Apart(c: Word, d: Word) {
    c + REGS_BYTES <= d || d + REGS_BYTES <= c
  }

  /** mem holds in the regs array at ctx what mco_swap saves of its caller c: the registers as they
      will be once the call has returned, the return address at 15 and the stack pointer at 16. */
  predicate Holds(mem: Memory, ctx: Word, c: Cpu) {
    && Load(mem, ctx) == c.r.rsp + 8
    && Load(mem, ctx + 8) == c.r.rbx && Load(mem, ctx + 16) == c.r.rcx && Load(mem, ctx + 24) == c.r.rdx
    && Load(mem, ctx + 32) == c.r.rdi && Load(mem, ctx + 40) == c.r.rsi && Load(mem, ctx + 48) == c.r.rbp
    && Load(mem, ctx + 56) == c.r.r8 && Load(mem, ctx + 64) == c.r.r9 && Load(mem, ctx + 72) == c.r.r10
    && Load(mem, ctx + 80) == c.r.r11 && Load(mem, ctx + 88) == c.r.r12 && Load(mem, ctx + 96) == c.r.r13
    && Load(mem, ctx + 104) == c.r.r14 && Load(mem, ctx + 112) == c.r.r15
    && Load(mem, ctx + 120) == Load(c.mem, c.r.rsp)
    && Load(mem, ctx + 128) == c.r.rsp + 8
  }

  /** The first half of mco_swap: the pushes. */
  method SaveContext(c: Cpu) returns (mem: Memory)
    requires !InRegs(c.r.rsp, c.r.rdi)
    ensures Holds(mem, c.r.rdi, c)
    ensures forall a: Word | !InRegs(a, c.r.rdi) :: Load(mem, a) == Load(c.mem, a)
  {
    mem := c.mem;
    var rax := c.r.rsp + 8;
    var rsp := c.r.rdi + 136;
    rsp := rsp - 8; mem := mem[rsp := rax];
    rsp := rsp - 8; mem := mem[rsp := Load(mem, rax - 8)];
    rsp := rsp - 8; mem := mem[rsp := c.r.r15];
    rsp := rsp - 8; mem := mem[rsp := c.r.r14];
    rsp := rsp - 8; mem := mem[rsp := c.r.r13];
    rsp := rsp - 8; mem := mem[rsp := c.r.r12];
    rsp := rsp - 8; mem := mem[rsp := c.r.r11];
    rsp := rsp - 8; mem := mem[rsp := c.r.r10];
    rsp := rsp - 8; mem := mem[rsp := c.r.r9];
    rsp := rsp - 8; mem := mem[rsp := c.r.r8];
    rsp := rsp - 8; mem := mem[rsp := c.r.rbp];
    rsp := rsp - 8; mem := mem[rsp := c.r.rsi];
    rsp := rsp - 8; mem := mem[rsp := c.r.rdi];
    rsp := rsp - 8; mem := mem[rsp := c.r.rdx];
    rsp := rsp - 8; mem := mem[rsp := c.r.rcx];
    rsp := rsp - 8; mem := mem[rsp := c.r.rbx];
    rsp := rsp - 8; mem := mem[rsp := rax];
  }

  /** d is the machine after the context saved at ctx in mem was loaded: execution goes on at the saved
      return address with the saved stack pointer and registers, and one word of memory was written. */
  predicate Resumes(mem: Memory, ctx: Word, d: Cpu) {
    && d.rip == Load(mem, ctx + 120) && d.r.rsp == Load(mem, ctx + 128) && d.r.rax == 0
    && d.r.rbx == Load(mem, ctx + 8) && d.r.rcx == Load(mem, ctx + 16) && d.r.rdx == Load(mem, ctx + 24)
    && d.r.rdi == Load(mem, ctx + 32) && d.r.rsi == Load(mem, ctx + 40) && d.r.rbp == Load(mem, ctx + 48)
    && d.r.r8 == Load(mem, ctx + 56) && d.r.r9 == Load(mem, ctx + 64) && d.r.r10 == Load(mem, ctx + 72)
    && d.r.r11 == Load(mem, ctx + 80) && d.r.r12 == Load(mem, ctx + 88) && d.r.r13 == Load(mem, ctx + 96)
    && d.r.r14 == Load(mem, ctx + 104) && d.r.r15 == Load(mem, ctx + 112)
    && d.mem == mem[d.r.rsp - 8 := d.rip]
  }

  /** The second half of mco_swap: the pops, and the return through the reloaded stack. */
  method LoadContext(r: Regs, m: Memory) returns (d: Cpu)
    ensures Resumes(m, r.rsi, d)
  {
    var mem := m;
    var rsp := r.rsi;
    var rax := Load(mem, rsp); rsp := rsp + 8;
    var rbx := Load(mem, rsp); rsp := rsp + 8;
    var rcx := Load(mem, rsp); rsp := rsp + 8;
    var rdx := Load(mem, rsp); rsp := rsp + 8;
    var rdi := Load(mem, rsp); rsp := rsp + 8;
    var rsi := Load(mem, rsp); rsp := rsp + 8;
    var rbp := Load(mem, rsp); rsp := rsp + 8;
    var r8 := Load(mem, rsp); rsp := rsp + 8;
    var r9 := Load(mem, rsp); rsp := rsp + 8;
    var r10 := Load(mem, rsp); rsp := rsp + 8;
    var r11 := Load(mem, rsp); rsp := rsp + 8;
    var r12 := Load(mem, rsp); rsp := rsp + 8;
    var r13 := Load(mem, rsp); rsp := rsp + 8;
    var r14 := Load(mem, rsp); rsp := rsp + 8;
    var r15 := Load(mem, rsp); rsp := rsp + 8;
    rax := Load(mem, rsp); rsp := rsp + 8;
    rsp := Load(mem, rsp);                      // popq %rsp
    rsp := rsp - 8; mem := mem[rsp := rax];     // pushq %rax
    rax := 0;                                   // xorl %eax, %eax
    var rip := Load(mem, rsp); rsp := rsp + 8;  // ret
    d := Cpu(Regs(rax, rbx, rcx, rdx, rdi, rsi, rbp, r8, r9, r10, r11, r12, r13, r14, r15, rsp), rip, mem);
  }

  /** mco_swap takes the machine from c, at its first instruction, to d. */
  ghost predicate Swaps(c: Cpu, d: Cpu) {
    exists mem: Memory ::
      && Holds(mem, c.r.rdi, c)
      && (forall a: Word | !InRegs(a, c.r.rdi) :: Load(mem, a) == Load(c.mem, a))
      && Resumes(mem, c.r.rsi, d)
  }

  method McoSwap(c: Cpu) returns (d: Cpu)
    requires !InRegs(c.r.rsp, c.r.rdi)
    ensures Swaps(c, d)
  {
    var mem := SaveContext(c);
    d := LoadContext(c.r, mem);
  }

  /** A swap writes the regs array of the leaver and the word just below the arriver's stack pointer. */
  lemma SwapWrites(c: Cpu, d: Cpu, a: Word)
    requires Swaps(c, d) && !InRegs(a, c.r.rdi) && a != d.r.rsp - 8
    ensures Load(d.mem, a) == Load(c.mem, a)
  {
  }

  // ---- Chains of swaps among several contexts ----

  /** One call of mco_swap: the machine when it is entered and when it has passed control. */
  datatype Leg = Leg(at: Cpu, after: Cpu)

  ghost predicate SameRegs(m: Memory, n: Memory, ctx: Word) {
    forall a: Word | InRegs(a, ctx) :: Load(n, a) == Load(m, a)
  }

  /** A swap between two of the contexts, none of which overlaps the words of the stacks in use. */
  ghost predicate LegOk(ctxs: set<Word>, l: Leg) {
    && l.at.r.rdi in ctxs && l.at.r.rsi in ctxs && l.at.r.rdi != l.at.r.rsi
    && Swaps(l.at, l.after)
    && (forall c | c in ctxs :: !InRegs(l.at.r.rsp, c) && !InRegs(l.after.r.rsp - 8, c))
  }

  /** Between two swaps whoever is running computes as it likes, but does not write to the contexts of
      the others; it leaves with its own context. */
  ghost predicate Follows(ctxs: set<Word>, l: Leg, next: Leg) {
    && next.at.r.rdi == l.at.r.rsi
    && forall c | c in ctxs && c != l.at.r.rsi :: SameRegs(l.after.mem, next.at.mem, c)
  }

  ghost predicate Chain(ctxs: set<Word>, legs: seq<Leg>) {
    && (forall c, d | c in ctxs && d in ctxs && c != d :: Apart(c, d))
    && (forall i | 0 <= i < |legs| :: LegOk(ctxs, legs[i]))
    && (forall i, j | 0 <= i < j < |legs| && j == i + 1 :: Follows(ctxs, legs[i], legs[j]))
  }

  /** A swap leaves the contexts of third parties and of the arriver alone. */
  lemma LegKeeps(ctxs: set<Word>, l: Leg, ctx: Word)
    requires LegOk(ctxs, l) && ctx in ctxs && ctx != l.at.r.rdi
    requires forall c, d | c in ctxs && d in ctxs && c != d :: Apart(c, d)
    ensures SameRegs(l.at.mem, l.after.mem, ctx)
  {
  }

  /** The context of a suspended coroutine is not touched until it is entered. */
  lemma {:induction false} ContextKept(ctxs: set<Word>, legs: seq<Leg>, i: nat, j: nat, ctx: Word)
    requires Chain(ctxs, legs) && i < j < |legs| && ctx in ctxs && legs[i].at.r.rsi != ctx
    requires forall k | i < k < j :: legs[k].at.r.rsi != ctx
    ensures SameRegs(legs[i].after.mem, legs[j].at.mem, ctx)
    decreases j
  {
    assert Follows(ctxs, legs[j - 1], legs[j]);
    if j - 1 > i {
      ContextKept(ctxs, legs, i, j - 1, ctx);
      assert legs[j - 1].at.r.rdi == legs[j - 2].at.r.rsi != ctx by {
        assert Follows(ctxs, legs[j - 2], legs[j - 1]);
      }
      LegKeeps(ctxs, legs[j - 1], ctx);
    }
  }

  /** d goes on where the call of mco_swap by c returns: at its return address, with its stack pointer
      and the registers that a call preserves; mco_swap returns 0. */
  predicate ReturnsTo(c: Cpu, d: Cpu) {
    && d.rip == Load(c.mem, c.r.rsp) && d.r.rsp == c.r.rsp + 8 && d.r.rax == 0
    && d.r.rbx == c.r.rbx && d.r.rbp == c.r.rbp
    && d.r.r12 == c.r.r12 && d.r.r13 == c.r.r13 && d.r.r14 == c.r.r14 && d.r.r15 == c.r.r15
  }

  lemma LegSaves(ctxs: set<Word>, l: Leg)
    requires LegOk(ctxs, l)
    requires forall c, d | c in ctxs && d in ctxs && c != d :: Apart(c, d)
    ensures Holds(l.after.mem, l.at.r.rdi, l.at)
  {
    var ctx := l.at.r.rdi;
    assert !InRegs(l.after.r.rsp - 8, ctx);
    assert forall k | 0 <= k < 17 :: InRegs(ctx + 8 * k, ctx);
  }

  lemma HoldsFrame(m: Memory, n: Memory, ctx: Word, c: Cpu)
    requires Holds(m, ctx, c) && SameRegs(m, n, ctx)
    ensures Holds(n, ctx, c)
  {
  }

  lemma LegRestores(ctxs: set<Word>, l: Leg, c: Cpu)
    requires LegOk(ctxs, l) && Holds(l.at.mem, l.at.r.rsi, c)
    requires forall c, d | c in ctxs && d in ctxs && c != d :: Apart(c, d)
    ensures ReturnsTo(c, l.after)
  {
  }

  /** Over any chain of swaps, a context that was left at swap i and is next entered at swap j goes on
      exactly where it left; mco_swap looks to it like a call that returned. */
  lemma RoundTrip(ctxs: set<Word>, legs: seq<Leg>, i: nat, j: nat)
    requires Chain(ctxs, legs) && i < j < |legs|
    requires legs[j].at.r.rsi == legs[i].at.r.rdi
    requires forall k | i < k < j :: legs[k].at.r.rsi != legs[i].at.r.rdi
    ensures ReturnsTo(legs[i].at, legs[j].after)
  {
    var ctx := legs[i].at.r.rdi;
    assert LegOk(ctxs, legs[i]) && LegOk(ctxs, legs[j]);
    LegSaves(ctxs, legs[i]);
    ContextKept(ctxs, legs, i, j, ctx);
    HoldsFrame(legs[i].after.mem, legs[j].at.mem, ctx, legs[i].at);
    LegRestores(ctxs, legs[j], legs[i].at);
  }

  // ---- The first entry ----

  /** x & -16 */
  function AlignDown16(x: Word): Word {
    x - x % 16
  }

  /** The stack top that McontextMake computes for a stack of size bytes at base. */
  function FirstTop(base: Word, size: Word): Word {
    AlignDown16(base + size - 1)
  }

  /** mem holds at ctx a hand-built context: all registers zero but the argument, a return address that
      is the entry point pfn, and a stack pointer. */
  predicate Made(mem: Memory, ctx: Word, top: Word, pfn: Word, conarg: Word) {
    && Load(mem, ctx) == 0 && Load(mem, ctx + 8) == 0 && Load(mem, ctx + 16) == 0 && Load(mem, ctx + 24) == 0
    && Load(mem, ctx + 32) == conarg && Load(mem, ctx + 40) == 0 && Load(mem, ctx + 48) == 0
    && Load(mem, ctx + 56) == 0 && Load(mem, ctx + 64) == 0 && Load(mem, ctx + 72) == 0 && Load(mem, ctx + 80) == 0
    && Load(mem, ctx + 88) == 0 && Load(mem, ctx + 96) == 0 && Load(mem, ctx + 104) == 0 && Load(mem, ctx + 112) == 0
    && Load(mem, ctx + 120) == pfn && Load(mem, ctx + 128) == top - 8
  }

  method Memset(m: Memory, at: Word, words: nat) returns (mem: Memory)
    ensures forall k | 0 <= k < words :: Load(mem, at + 8 * k) == 0
    ensures forall a: Word | !(at <= a < at + 8 * words) :: Load(mem, a) == Load(m, a)
  {
    mem := m;
    for i := 0 to words
      invariant forall k | 0 <= k < i :: Load(mem, at + 8 * k) == 0
      invariant forall a: Word | !(at <= a < at + 8 * i) :: Load(mem, a) == Load(m, a)
    {
      mem := mem[at + 8 * i := 0];
    }
  }

  method McontextMake(m: Memory, ctx: Word, ssSp: Word, ssSize: Word, pfn: Word, conarg: Word) returns (mem: Memory)
    ensures Made(mem, ctx, FirstTop(ssSp, ssSize), pfn, conarg)
    ensures var rsp := Load(mem, ctx + 128); (rsp + 8) % 16 == 0 && ssSp + ssSize - 16 <= rsp + 8 < ssSp + ssSize
    ensures forall a: Word | !InRegs(a, ctx) :: Load(mem, a) == Load(m, a)
  {
    mem := Memset(m, ctx, 17);
    ghost var zeroed := mem;
    var sp := ssSp + ssSize - 1;
    sp := AlignDown16(sp);
    mem := mem[ctx + 32 := conarg];
    mem := mem[ctx + 128 := sp - 8];
    mem := mem[ctx + 120 := pfn];
    assert forall k | 0 <= k < 17 && k != 4 && k != 15 && k != 16 ::
      Load(mem, ctx + 8 * k) == Load(zeroed, ctx + 8 * k);
    assert Load(mem, ctx + 8 * 0) == 0 && Load(mem, ctx + 8 * 1) == 0 && Load(mem, ctx + 8 * 2) == 0;
    assert Load(mem, ctx + 8 * 3) == 0 && Load(mem, ctx + 8 * 5) == 0 && Load(mem, ctx + 8 * 6) == 0;
    assert Load(mem, ctx + 8 * 7) == 0 && Load(mem, ctx + 8 * 8) == 0 && Load(mem, ctx + 8 * 9) == 0;
    assert Load(mem, ctx + 8 * 10) == 0 && Load(mem, ctx + 8 * 11) == 0 && Load(mem, ctx + 8 * 12) == 0;
    assert Load(mem, ctx + 8 * 13) == 0 && Load(mem, ctx + 8 * 14) == 0;
  }

  /** The machine as a function compiled for the System V AMD64 ABI expects it when it is entered with
      one argument (section 3.2.2: RSP + 8 is a multiple of 16), at the very end of the size bytes at base:
      no higher multiple of 16 lies among them. Below there is room for the word mco_swap writes. */
  predicate EntersWith(d: Cpu, pfn: Word, conarg: Word, base: Word, size: Word) {
    && d.rip == pfn && d.r.rdi == conarg && (d.r.rsp + 8) % 16 == 0
    && base + size - 16 <= d.r.rsp + 8 < base + size && base <= d.r.rsp - 8
  }

  /** A swap into a context that McontextMake built and nobody touched enters pfn as the ABI demands,
      for every stack of at least 32 bytes. */
  lemma FirstEntry(ctxs: set<Word>, l: Leg, base: Word, size: Word, pfn: Word, conarg: Word)
    requires LegOk(ctxs, l) && forall c, d | c in ctxs && d in ctxs && c != d :: Apart(c, d)
    requires Made(l.at.mem, l.at.r.rsi, FirstTop(base, size), pfn, conarg)
    requires size >= 32
    ensures EntersWith(l.after, pfn, conarg, base, size)
  {
  }

  /** 32 bytes is exactly enough: a smaller stack at some base is overrun from below. */
  lemma FirstEntryFits(size: Word)
    ensures size >= 32 <==> forall base: Word :: base <= FirstTop(base, size) - 16
  {
    if size < 32 {
      var base := 16 - size;
      assert FirstTop(base, size) == 0;
      assert !(base <= FirstTop(base, size) - 16) || size >= 32;
    }
  }

  /** On a chain of swaps, a made context that is first entered at swap j is entered as the ABI demands. */
  lemma FirstEntryInChain(ctxs: set<Word>, legs: seq<Leg>, j: nat, base: Word, size: Word, pfn: Word, conarg: Word)
    requires Chain(ctxs, legs) && j < |legs| && size >= 32
    requires Made(legs[0].at.mem, legs[j].at.r.rsi, FirstTop(base, size), pfn, conarg)
    requires forall k | 0 <= k < j :: legs[k].at.r.rsi != legs[j].at.r.rsi && legs[k].at.r.rdi != legs[j].at.r.rsi
    ensures EntersWith(legs[j].after, pfn, conarg, base, size)
  {
    var ctx := legs[j].at.r.rsi;
    assert LegOk(ctxs, legs[j]);
    if j > 0 {
      assert LegOk(ctxs, legs[0]);
      LegKeeps(ctxs, legs[0], ctx);
      ContextKept(ctxs, legs, 0, j, ctx);
      MadeFrame(legs[0].at.mem, legs[0].after.mem, ctx, FirstTop(base, size), pfn, conarg);
      MadeFrame(legs[0].after.mem, legs[j].at.mem, ctx, FirstTop(base, size), pfn, conarg);
    }
    FirstEntry(ctxs, legs[j], base, size, pfn, conarg);
  }

  lemma MadeFrame(m: Memory, n: Memory, ctx: Word, top: Word, pfn: Word, conarg: Word)
    requires Made(m, ctx, top, pfn, conarg) && SameRegs(m, n, ctx)
    ensures Made(n, ctx, top, pfn, conarg)
  {
  }

  // ---- The bit masks ----

  /** The mask of McontextMake is rounding down to a multiple of 16. */
  lemma Mask16(x: bv64)
    ensures var r := x & 0xFFFF_FFFF_FFFF_FFF0; r % 16 == 0 && r <= x && x - r < 16
  {
  }

  /** McoStackManager's adjustment of the common size. */
  function CommonSize(x: bv64): bv64 {
    if x & 0xFFF != 0 then (x & 0xFFFF_FFFF_FFFF_F000) + 0x1000 else x
  }

  /** It is rounding up to the next multiple of the page size, unless that wraps. */
  lemma CommonSizeRounds(x: bv64)
    ensures CommonSize(x) % 4096 == 0
    ensures x <= CommonSize(x) && CommonSize(x) - x < 4096 <==> x <= 0xFFFF_FFFF_FFFF_F000
    ensures x > 0xFFFF_FFFF_FFFF_F000 ==> CommonSize(x) == 0
  {
  }
}
