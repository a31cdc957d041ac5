/** bSwap and bContext::init on a register file and memory. */
module ContextSwitch {
  type Addr = int
  type Word = int

  /** The registers that bSwap names; rip is where the machine goes on. */
  datatype Cpu = Cpu(
    rax: Word, rbx: Word, rcx: Word, rdx: Word, rsi: Word, rdi: Word, rbp: Word, rsp: Word,
    r8: Word, r9: Word, r12: Word, r13: Word, r14: Word, r15: Word, rip: Word)

  /** The words of a bContext, by the offsets of bSwap. */
  datatype Context = Context(
    r15: Word, r14: Word, r13: Word, r12: Word, r9: Word, r8: Word, rbp: Word,
    rdi: Word, rsi: Word, ret: Word, rdx: Word, rcx: Word, rbx: Word, rsp: Word)

  /** Memory by the addresses of its 8-byte words; what was never written reads as 0. */
  type Memory = map<Addr, Word>

  const CONTEXT_BYTES := 128

  /** The registers, with which a bContext begins. */
  const REGISTER_BYTES := 112

  function Word8(mem: Memory, a: Addr): Word {
    if a in mem then mem[a] else 0
  }

  function LoadContext(mem: Memory, c: Addr): Context {
    Context(Word8(mem, c), Word8(mem, c + 8), Word8(mem, c + 16), Word8(mem, c + 24), Word8(mem, c + 32), Word8(mem, c + 40),
            Word8(mem, c + 48), Word8(mem, c + 56), Word8(mem, c + 64), Word8(mem, c + 72), Word8(mem, c + 80),
            Word8(mem, c + 88), Word8(mem, c + 96), Word8(mem, c + 104))
  }

  function StoreContext(mem: Memory, c: Addr, x: Context): Memory {
    mem[c + 104 := x.rsp][c + 96 := x.rbx][c + 88 := x.rcx][c + 80 := x.rdx][c + 72 := x.ret][c + 64 := x.rsi]
       [c + 56 := x.rdi][c + 48 := x.rbp][c + 40 := x.r8][c + 32 := x.r9][c + 24 := x.r12][c + 16 := x.r13]
       [c + 8 := x.r14][c := x.r15]
  }

  /** The word at a is not one of the context at c. */
  predicate Outside(a: Addr, c: Addr) {
    a + 8 <= c || c + CONTEXT_BYTES <= a
  }

  lemma StoreThenLoad(mem: Memory, c: Addr, x: Context)
    ensures LoadContext(StoreContext(mem, c, x), c) == x
  {
  }

  lemma StoreElsewhere(mem: Memory, c: Addr, x: Context, a: Addr)
    requires Outside(a, c)
    ensures Word8(StoreContext(mem, c, x), a) == Word8(mem, a)
  {
  }

  lemma LoadElsewhere(mem: Memory, c: Addr, x: Context, d: Addr)
    requires c + CONTEXT_BYTES <= d || d + CONTEXT_BYTES <= c
    ensures LoadContext(StoreContext(mem, c, x), d) == LoadContext(mem, d)
    ensures Word8(StoreContext(mem, c, x), d + 104) == LoadContext(mem, d).rsp
  {
    forall a | d <= a <= d + 104 ensures Word8(StoreContext(mem, c, x), a) == Word8(mem, a) {
      StoreElsewhere(mem, c, x, a);
    }
    hide StoreContext, Word8;
  }

  /** What a caller of bSwap leaves behind: its registers, and the return address on its stack. */
  function Outgoing(cpu: Cpu, mem: Memory): Context {
    Context(cpu.r15, cpu.r14, cpu.r13, cpu.r12, cpu.r9, cpu.r8, cpu.rbp, cpu.rdi, cpu.rsi,
            Word8(mem, cpu.rsp), cpu.rdx, cpu.rcx, cpu.rbx, cpu.rsp)
  }

  /** The machine after bSwap: the registers of the context x, running at its return address. */
  function Incoming(x: Context): Cpu {
    Cpu(0, x.rbx, x.rcx, x.rdx, x.rsi, x.rdi, x.rbp, x.rsp + 8, x.r8, x.r9, x.r12, x.r13, x.r14, x.r15, x.ret)
  }

  /** Memory after bSwap. */
  function Swapped(cpu: Cpu, mem: Memory): Memory {
    var x := LoadContext(mem, cpu.rsi);
    StoreContext(mem, cpu.rdi, Outgoing(cpu, mem))[x.rsp := x.ret]
  }

  /** The two halves of bSwap. */
  lemma Halves(cpu: Cpu, mem: Memory)
    requires cpu.rsi + CONTEXT_BYTES <= cpu.rdi || cpu.rdi + CONTEXT_BYTES <= cpu.rsi
    ensures var saved := StoreContext(mem, cpu.rdi, Outgoing(cpu, mem));
            var x := LoadContext(mem, cpu.rsi);
            LoadContext(saved, cpu.rsi) == x && Word8(saved, cpu.rsi + 104) == x.rsp && Swapped(cpu, mem) == saved[x.rsp := x.ret]
  {
    hide StoreContext, LoadContext, Outgoing;
    LoadElsewhere(mem, cpu.rdi, Outgoing(cpu, mem), cpu.rsi);
  }

  /** One word outside a context does not change the context. */
  lemma PushElsewhere(mem: Memory, a: Addr, v: Word, c: Addr)
    requires Outside(a, c)
    ensures LoadContext(mem[a := v], c) == LoadContext(mem, c)
  {
  }

  /** bSwap writes the context of its caller and one word of the stack that it enters. */
  lemma SwappedWord(cpu: Cpu, mem: Memory, a: Addr)
    requires Outside(a, cpu.rdi) && a != LoadContext(mem, cpu.rsi).rsp
    ensures Word8(Swapped(cpu, mem), a) == Word8(mem, a)
  {
    hide StoreContext, LoadContext, Outgoing;
    StoreElsewhere(mem, cpu.rdi, Outgoing(cpu, mem), a);
  }

  lemma SwappedContext(cpu: Cpu, mem: Memory, d: Addr)
    requires Outside(LoadContext(mem, cpu.rsi).rsp, d)
    requires cpu.rdi + CONTEXT_BYTES <= d || d + CONTEXT_BYTES <= cpu.rdi || d == cpu.rdi
    ensures LoadContext(Swapped(cpu, mem), d) == if d == cpu.rdi then Outgoing(cpu, mem) else LoadContext(mem, d)
  {
    var x := LoadContext(mem, cpu.rsi);
    hide StoreContext, LoadContext, Outgoing;
    if d == cpu.rdi {
      StoreThenLoad(mem, d, Outgoing(cpu, mem));
    } else {
      LoadElsewhere(mem, cpu.rdi, Outgoing(cpu, mem), d);
    }
    PushElsewhere(StoreContext(mem, cpu.rdi, Outgoing(cpu, mem)), x.rsp, x.ret, d);
  }

  /** The stack pointer that `bContext::init` gives: the last byte of the stack, rounded down to 16. */
  function InitialStackPointer(base: Addr, page: nat, size: nat): Addr {
    var sp := base + page + size - 1;
    sp - sp % 16
  }

  /** `bContext::init`: four registers, the size and the start of the stack. */
  function Init(mem: Memory, c: Addr, self: Word, base: Addr, page: nat, size: nat, entry: Word): Memory {
    mem[c + 112 := size][c + 120 := base][c + 104 := InitialStackPointer(base, page, size)][c + 56 := self][c + 64 := 0][c + 72 := entry]
  }

  /** A page size of the machine. */
  function Pow2(k: nat): nat {
    if k == 0 then 1 else 2 * Pow2(k - 1)
  }

  ghost predicate IsPageSize(page: nat) {
    exists k :: Pow2(k) == page && page >= 16
  }

  predicate IsStackSize(size: nat) {
    size == 128 * 1024 || size == 1024 * 1024 || size == 4096 * 1024
  }

  /** `bContext::init` writes its own context only. */
  lemma InitElsewhere(mem: Memory, c: Addr, self: Word, base: Addr, page: nat, size: nat, entry: Word, a: Addr)
    requires Outside(a, c)
    ensures Word8(Init(mem, c, self, base, page, size, entry), a) == Word8(mem, a)
  {
  }

  lemma InitOtherContext(mem: Memory, c: Addr, self: Word, base: Addr, page: nat, size: nat, entry: Word, d: Addr)
    requires c + CONTEXT_BYTES <= d || d + CONTEXT_BYTES <= c
    ensures LoadContext(Init(mem, c, self, base, page, size, entry), d) == LoadContext(mem, d)
  {
    forall a | d <= a <= d + 104 ensures Word8(Init(mem, c, self, base, page, size, entry), a) == Word8(mem, a) {
      InitElsewhere(mem, c, self, base, page, size, entry, a);
    }
    hide Init, Word8;
  }

  lemma InitContext(mem: Memory, c: Addr, self: Word, base: Addr, page: nat, size: nat, entry: Word)
    ensures var x := LoadContext(Init(mem, c, self, base, page, size, entry), c);
            x.rsp == InitialStackPointer(base, page, size) && x.ret == entry && x.rdi == self && x.rsi == 0
  {
    hide InitialStackPointer;
  }

  lemma Double16(p: nat)
    requires p % 16 == 0
    ensures (2 * p) % 16 == 0
  {
    assert p == 16 * (p / 16);
    assert 2 * p == 16 * (2 * (p / 16));
  }

  lemma {:induction false} Pow2Rounds(k: nat)
    ensures if k < 4 then Pow2(k) <= 8 else Pow2(k) % 16 == 0 && Pow2(k) >= 16
  {
    assert Pow2(0) == 1;
    if k <= 4 {
      assert Pow2(1) == 2 * Pow2(0);
      assert Pow2(2) == 2 * Pow2(1);
      assert Pow2(3) == 2 * Pow2(2);
      assert Pow2(4) == 2 * Pow2(3);
      assert k == 0 || k == 1 || k == 2 || k == 3 || k == 4;
    } else {
      Pow2Rounds(k - 1);
      Double16(Pow2(k - 1));
    }
  }

  lemma MultipleOf16(base: Addr, page: nat)
    requires page >= 16 && page % 16 == 0 && base % page == 0
    ensures base % 16 == 0
  {
    var q, r := base / page, page / 16;
    assert base == page * q && page == 16 * r;
    assert base == 16 * (r * q);
  }

  lemma SumOf16(a: int, b: int, c: int)
    requires a % 16 == 0 && b % 16 == 0 && c % 16 == 0
    ensures (a + b + c) % 16 == 0
  {
    assert a == 16 * (a / 16) && b == 16 * (b / 16) && c == 16 * (c / 16);
    assert a + b + c == 16 * (a / 16 + b / 16 + c / 16);
  }

  lemma Round16(t: int)
    requires t % 16 == 0
    ensures t - 1 - (t - 1) % 16 == t - 16
  {
  }

  /** The initial stack pointer leaves exactly 16 bytes of the stack above it. */
  lemma InitialStackPointerIs(base: Addr, page: nat, size: nat)
    requires IsPageSize(page) && base % page == 0 && IsStackSize(size)
    ensures InitialStackPointer(base, page, size) == base + page + size - 16
    ensures InitialStackPointer(base, page, size) % 16 == 0
  {
    var k :| Pow2(k) == page && page >= 16;
    Pow2Rounds(k);
    MultipleOf16(base, page);
    assert size % 16 == 0;
    hide *;
    SumOf16(base, page, size);
    Round16(base + page + size);
    SumOf16(base + page + size, -16, 0);
    StackPointerUnfolds(base, page, size);
  }

  lemma StackPointerUnfolds(base: Addr, page: nat, size: nat)
    ensures InitialStackPointer(base, page, size) == base + page + size - 1 - (base + page + size - 1) % 16
  {
  }

  /** The words of a context are the registers in the order of its struct, from r15 to rsp. */
  predicate Saved(mem: Memory, c: Addr, cpu: Cpu, ret: Word) {
    seq(14, k => Word8(mem, c + 8 * k))
      == [cpu.r15, cpu.r14, cpu.r13, cpu.r12, cpu.r9, cpu.r8, cpu.rbp, cpu.rdi, cpu.rsi, ret, cpu.rdx, cpu.rcx, cpu.rbx, cpu.rsp]
  }

  lemma SavedIs(cpu: Cpu, mem: Memory)
    ensures Outside(LoadContext(mem, cpu.rsi).rsp, cpu.rdi) ==> Saved(Swapped(cpu, mem), cpu.rdi, cpu, Word8(mem, cpu.rsp))
  {
  }

  class Machine {
    var cpu: Cpu
    var mem: Memory

    /** The stores of bSwap, up to `xorq`. */
    method Save()
      requires Outside(cpu.rsp, cpu.rdi)
      modifies this
      ensures mem == StoreContext(old(mem), cpu.rdi, Outgoing(old(cpu), old(mem))) && cpu == old(cpu).(rax := 0)
    {
      cpu := cpu.(rax := cpu.rsp);
      mem := mem[cpu.rdi + 104 := cpu.rax];
      mem := mem[cpu.rdi + 96 := cpu.rbx];
      mem := mem[cpu.rdi + 88 := cpu.rcx];
      mem := mem[cpu.rdi + 80 := cpu.rdx];
      cpu := cpu.(rax := Word8(mem, cpu.rax));
      mem := mem[cpu.rdi + 72 := cpu.rax];
      mem := mem[cpu.rdi + 64 := cpu.rsi];
      mem := mem[cpu.rdi + 56 := cpu.rdi];
      mem := mem[cpu.rdi + 48 := cpu.rbp];
      mem := mem[cpu.rdi + 40 := cpu.r8];
      mem := mem[cpu.rdi + 32 := cpu.r9];
      mem := mem[cpu.rdi + 24 := cpu.r12];
      mem := mem[cpu.rdi + 16 := cpu.r13];
      mem := mem[cpu.rdi + 8 := cpu.r14];
      mem := mem[cpu.rdi := cpu.r15];
      cpu := cpu.(rax := 0);
    }

    /** The loads of bSwap, the exchange of the return address, and `ret`. */
    method Restore()
      requires cpu.rax == 0 && Outside(Word8(mem, cpu.rsi + 104), cpu.rsi)
      modifies this
      ensures var x := LoadContext(old(mem), old(cpu.rsi));
              cpu == Incoming(x) && mem == old(mem)[x.rsp := x.ret]
    {
      cpu := cpu.(rbp := Word8(mem, cpu.rsi + 48), rsp := Word8(mem, cpu.rsi + 104));
      cpu := cpu.(r15 := Word8(mem, cpu.rsi), r14 := Word8(mem, cpu.rsi + 8), r13 := Word8(mem, cpu.rsi + 16),
                  r12 := Word8(mem, cpu.rsi + 24), r9 := Word8(mem, cpu.rsi + 32), r8 := Word8(mem, cpu.rsi + 40));
      cpu := cpu.(rdi := Word8(mem, cpu.rsi + 56), rdx := Word8(mem, cpu.rsi + 80), rcx := Word8(mem, cpu.rsi + 88),
                  rbx := Word8(mem, cpu.rsi + 96));
      cpu := cpu.(rsp := cpu.rsp + 8);
      // pushq
      cpu, mem := cpu.(rsp := cpu.rsp - 8), mem[cpu.rsp - 8 := Word8(mem, cpu.rsi + 72)];
      cpu := cpu.(rsi := Word8(mem, cpu.rsi + 64));
      // ret
      cpu := cpu.(rip := Word8(mem, cpu.rsp), rsp := cpu.rsp + 8);
    }

    /** bSwap from its entry to its `ret`; neither stack lies in a context. */
    method bSwap()
      requires cpu.rsi + CONTEXT_BYTES <= cpu.rdi || cpu.rdi + CONTEXT_BYTES <= cpu.rsi
      requires Outside(cpu.rsp, cpu.rdi) && Outside(LoadContext(mem, cpu.rsi).rsp, cpu.rsi)
      modifies this
      ensures cpu == Incoming(LoadContext(old(mem), old(cpu.rsi)))
      ensures mem == Swapped(old(cpu), old(mem))
      ensures Outside(LoadContext(old(mem), old(cpu.rsi)).rsp, old(cpu.rdi)) ==> Saved(mem, old(cpu.rdi), old(cpu), Word8(old(mem), old(cpu.rsp)))
    {
      SavedIs(cpu, mem);
      hide *;
      Halves(cpu, mem);
      Save();
      Restore();
    }

    /**
      `bContext::init` for the context at c and a stack of the given size between two guard pages,
      the first of which starts at base: the context will enter `entry` with the routine in rdi and
      an aligned stack pointer with 16 bytes of the stack above it, and no word outside the context
      changes.
     */
    method init(c: Addr, self: Word, base: Addr, page: nat, size: nat, entry: Word)
      modifies this`mem
      ensures mem == Init(old(mem), c, self, base, page, size, entry)
      ensures var x, was := LoadContext(mem, c), LoadContext(old(mem), c);
              x == was.(rsp := x.rsp, ret := entry, rdi := self, rsi := 0)
      ensures IsPageSize(page) && base % page == 0 && IsStackSize(size) ==>
                var sp := LoadContext(mem, c).rsp;
                sp == base + page + size - 16 && sp % 16 == 0
      ensures forall a :: Outside(a, c) ==> Word8(mem, a) == Word8(old(mem), a)
      ensures Word8(mem, c + REGISTER_BYTES) == size && Word8(mem, c + REGISTER_BYTES + 8) == base
    {
      mem := mem[c + 112 := size];
      mem := mem[c + 120 := base];
      var sp := Word8(mem, c + 120) + page + Word8(mem, c + 112) - 1;
      sp := sp - sp % 16;
      mem := mem[c + 104 := sp];
      mem := mem[c + 56 := self];
      mem := mem[c + 64 := 0];
      mem := mem[c + 72 := entry];
      InitMeans(old(mem), c, self, base, page, size, entry);
    }
  }

  /** What init makes of a context. */
  lemma InitMeans(mem: Memory, c: Addr, self: Word, base: Addr, page: nat, size: nat, entry: Word)
    ensures var x, was := LoadContext(Init(mem, c, self, base, page, size, entry), c), LoadContext(mem, c);
            x == was.(rsp := InitialStackPointer(base, page, size), ret := entry, rdi := self, rsi := 0)
    ensures IsPageSize(page) && base % page == 0 && IsStackSize(size) ==>
              InitialStackPointer(base, page, size) == base + page + size - 16 && InitialStackPointer(base, page, size) % 16 == 0
    ensures forall a :: Outside(a, c) ==> Word8(Init(mem, c, self, base, page, size, entry), a) == Word8(mem, a)
  {
    InitFields(mem, c, self, base, page, size, entry);
    hide InitialStackPointer, Init, LoadContext, Word8;
    if IsPageSize(page) && base % page == 0 && IsStackSize(size) {
      InitialStackPointerIs(base, page, size);
    }
    hide *;
    forall a | Outside(a, c) ensures Word8(Init(mem, c, self, base, page, size, entry), a) == Word8(mem, a) {
      InitElsewhere(mem, c, self, base, page, size, entry, a);
    }
  }

  lemma InitFields(mem: Memory, c: Addr, self: Word, base: Addr, page: nat, size: nat, entry: Word)
    ensures var x, was := LoadContext(Init(mem, c, self, base, page, size, entry), c), LoadContext(mem, c);
            x == was.(rsp := InitialStackPointer(base, page, size), ret := entry, rdi := self, rsi := 0)
  {
    hide InitialStackPointer;
  }
}
