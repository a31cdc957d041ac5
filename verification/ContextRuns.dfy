/** Runs of switches: each coroutine goes on where it left off; and the first switch into a new one. */
module ContextRuns {
  import opened ContextSwitch

  type Rid = nat

  /** Where a coroutine has its context, and the part [lo, hi) of its stack that is not guarded. */
  datatype Home = Home(ctx: Addr, lo: Addr, hi: Addr)

  predicate InStack(h: Home, a: Addr) {
    h.lo <= a && a + 8 <= h.hi
  }

  predicate Disjoint(lo: Addr, hi: Addr, lo': Addr, hi': Addr) {
    hi <= lo' || hi' <= lo
  }

  predicate HomesApart(g: Home, h: Home) {
    && Disjoint(g.ctx, g.ctx + CONTEXT_BYTES, h.ctx, h.ctx + CONTEXT_BYTES)
    && Disjoint(g.lo, g.hi, h.lo, h.hi)
    && Disjoint(g.ctx, g.ctx + CONTEXT_BYTES, h.lo, h.hi)
    && Disjoint(g.lo, g.hi, h.ctx, h.ctx + CONTEXT_BYTES)
  }

  predicate HomeOk(h: Home) {
    Disjoint(h.ctx, h.ctx + CONTEXT_BYTES, h.lo, h.hi)
  }

  /**
    home is the memory of each coroutine that has neither been given to another one nor freed;
    out are those that can be switched to, with what they left behind when they called bSwap, or
    were given by bContext::init.
   */
  datatype State = State(cpu: Cpu, mem: Memory, cur: Rid, home: map<Rid, Home>, out: map<Rid, Context>)

  /** The context of a coroutine that is switched out is as it left it, and its stack pointer in its own stack. */
  ghost predicate Intact(h: Home, mem: Memory, x: Context) {
    LoadContext(mem, h.ctx) == x && InStack(h, x.rsp)
  }

  ghost predicate AllIntact(s: State) {
    && s.cur in s.home && s.cur !in s.out && s.out.Keys <= s.home.Keys
    && (forall c :: c in s.home ==> HomeOk(s.home[c]))
    && (forall b, c :: b in s.home && c in s.home && b != c ==> HomesApart(s.home[b], s.home[c]))
    && forall c :: c in s.out && c in s.home ==> Intact(s.home[c], s.mem, s.out[c])
  }

  /**
    Spawn is `bContext::init` for coroutine c, whose context and stack may have been those of
    others, or of an earlier coroutine of the same name, before. Release is `bRoutine::Del`: context
    and stack of c are freed, and from then on are memory like any other.
   */
  datatype Step =
    | Compute(cpu: Cpu, writes: Memory)
    | Spawn(c: Rid, home: Home, self: Word, base: Addr, page: nat, size: nat, entry: Word)
    | Switch(next: Rid)
    | Release(c: Rid)

  /**
    Running code may write anywhere but to the saved registers of others: also to their stacks, to
    its own context, and to the two fields that follow the registers in a context.
   */
  ghost predicate MayWrite(s: State, a: Addr) {
    forall c :: c in s.home && c != s.cur ==> a + 8 <= s.home[c].ctx || s.home[c].ctx + REGISTER_BYTES <= a
  }

  ghost predicate Enabled(s: State, a: Step) {
    match a
    case Compute(_, writes) => forall b :: b in writes ==> MayWrite(s, b)
    case Spawn(c, h, _, base, page, size, _) =>
      && c != s.cur && s.cur in s.home && HomesApart(h, s.home[s.cur]) && HomeOk(h)
      && IsPageSize(page) && base % page == 0 && IsStackSize(size)
      && h.lo == base + page && h.hi == base + page + size
    case Switch(next) =>
      && next in s.out && s.cur in s.home && next in s.home
      && s.cpu.rdi == s.home[s.cur].ctx && s.cpu.rsi == s.home[next].ctx
      && InStack(s.home[s.cur], s.cpu.rsp)
    case Release(c) => c in s.home && c != s.cur
  }

  /** Those whose memory is not touched when the home h is given to coroutine c. */
  function Untouched(s: State, c: Rid, h: Home): set<Rid> {
    set d | d in s.home && d != c && HomesApart(h, s.home[d])
  }

  function Spawned(s: State, c: Rid, h: Home, mem: Memory): State {
    var rest := Untouched(s, c, h);
    State(s.cpu, mem, s.cur,
          (map d | d in s.home && d in rest :: s.home[d])[c := h],
          (map d | d in s.out && d in rest :: s.out[d])[c := LoadContext(mem, h.ctx)])
  }

  ghost function Do(s: State, a: Step): State
    requires Enabled(s, a)
  {
    match a
    case Compute(cpu, writes) => s.(cpu := cpu, mem := s.mem + writes)
    case Spawn(c, h, self, base, page, size, entry) =>
      Spawned(s, c, h, Init(s.mem, h.ctx, self, base, page, size, entry))
    case Switch(next) =>
      State(Incoming(LoadContext(s.mem, s.cpu.rsi)), Swapped(s.cpu, s.mem), next, s.home,
            (s.out - {next})[s.cur := Outgoing(s.cpu, s.mem)])
    case Release(c) => s.(home := s.home - {c}, out := s.out - {c})
  }

  // ---- what one step keeps ---------------------------------------------------------------------------

  lemma ComputeContext(s: State, writes: Memory, c: Rid)
    requires c in s.home && c != s.cur && forall b :: b in writes ==> MayWrite(s, b)
    ensures LoadContext(s.mem + writes, s.home[c].ctx) == LoadContext(s.mem, s.home[c].ctx)
  {
    var x := s.home[c].ctx;
    forall a | x <= a < x + REGISTER_BYTES ensures Word8(s.mem + writes, a) == Word8(s.mem, a) {}
  }

  /** What a switch finds: two homes apart, and the stack pointer of the one that it enters in its own stack. */
  lemma SwitchKnows(s: State, next: Rid)
    requires AllIntact(s) && Enabled(s, Switch(next))
    ensures next != s.cur && LoadContext(s.mem, s.cpu.rsi) == s.out[next]
    ensures InStack(s.home[next], s.out[next].rsp) && Outside(s.out[next].rsp, s.cpu.rdi)
    ensures forall c :: c in s.home ==> Outside(s.out[next].rsp, s.home[c].ctx)
  {
    hide LoadContext;
    assert Intact(s.home[next], s.mem, s.out[next]);
  }

  /** bSwap leaves the contexts of third coroutines alone. */
  lemma SwitchContext(s: State, next: Rid, c: Rid)
    requires AllIntact(s) && Enabled(s, Switch(next)) && c in s.home && c != s.cur && c != next
    ensures LoadContext(Swapped(s.cpu, s.mem), s.home[c].ctx) == LoadContext(s.mem, s.home[c].ctx)
  {
    SwitchKnows(s, next);
    assert HomesApart(s.home[c], s.home[s.cur]);
    hide LoadContext, Swapped, Intact, AllIntact, Enabled;
    SwappedContext(s.cpu, s.mem, s.home[c].ctx);
  }

  /** The caller of bSwap is out, as it was at the call. */
  lemma SwitchLeaves(s: State, next: Rid)
    requires AllIntact(s) && Enabled(s, Switch(next))
    ensures Intact(s.home[s.cur], Swapped(s.cpu, s.mem), Outgoing(s.cpu, s.mem))
  {
    SwitchKnows(s, next);
    hide LoadContext, Swapped, AllIntact;
    SwappedContext(s.cpu, s.mem, s.home[s.cur].ctx);
  }

  /** A new coroutine is out with its entry as return address. */
  lemma SpawnIntact(mem: Memory, h: Home, self: Word, base: Addr, page: nat, size: nat, entry: Word)
    requires IsPageSize(page) && base % page == 0 && IsStackSize(size) && h.lo == base + page && h.hi == base + page + size
    ensures var mem' := Init(mem, h.ctx, self, base, page, size, entry);
            var x := LoadContext(mem', h.ctx);
            && Intact(h, mem', x)
            && x.rsp == h.hi - 16 && x.ret == entry && x.rdi == self && x.rsi == 0 && x.rsp % 16 == 0 && h.lo <= x.rsp
  {
    assert size >= 16;
    InitialStackPointerIs(base, page, size);
    hide Init, LoadContext, InitialStackPointer, IsPageSize, IsStackSize, Word8;
    InitContext(mem, h.ctx, self, base, page, size, entry);
  }

  // ---- steps and runs ---------------------------------------------------------------------------------------

  /** The step neither enters coroutine c nor frees its memory nor gives it to another coroutine. */
  predicate LeavesAlone(a: Step, c: Rid, h: Home) {
    a != Switch(c) && a != Release(c) && (a.Spawn? ==> a.c != c && HomesApart(a.home, h))
  }

  lemma OneStaysIntact(s: State, a: Step, c: Rid)
    requires AllIntact(s) && Enabled(s, a) && c in s.out && LeavesAlone(a, c, s.home[c])
    ensures Intact(s.home[c], Do(s, a).mem, s.out[c])
  {
    var h := s.home[c];
    hide LoadContext, Swapped, Init, MayWrite;
    match a
    case Compute(_, writes) =>
      ComputeContext(s, writes, c);
    case Spawn(_, g, self, base, page, size, entry) =>
      InitOtherContext(s.mem, g.ctx, self, base, page, size, entry, h.ctx);
    case Switch(next) =>
      SwitchContext(s, next, c);
    case Release(_) =>
  }

  /** Who is out after a step, and where everybody lives. */
  lemma OutAfter(s: State, a: Step, c: Rid)
    requires AllIntact(s) && Enabled(s, a)
    ensures var t := Do(s, a);
            && t.cur == (if a.Switch? then a.next else s.cur)
            && (c in s.out && LeavesAlone(a, c, s.home[c]) ==> c in t.out && c in t.home && t.out[c] == s.out[c] && t.home[c] == s.home[c])
            && (a.Switch? && c == s.cur ==> c in t.out && t.out[c] == Outgoing(s.cpu, s.mem) && t.home[c] == s.home[c])
            && (a.Spawn? && c == a.c ==> c in t.out && t.home[c] == a.home)
            && (c in t.out ==> (c in s.out && LeavesAlone(a, c, s.home[c])) || (a.Switch? && c == s.cur) || (a.Spawn? && c == a.c))
  {
    hide LoadContext, Swapped, Init, MayWrite, Outgoing, Intact;
  }

  lemma OneIsIntact(s: State, a: Step, c: Rid)
    requires AllIntact(s) && Enabled(s, a) && c in Do(s, a).out
    ensures c in Do(s, a).home && Intact(Do(s, a).home[c], Do(s, a).mem, Do(s, a).out[c])
  {
    OutAfter(s, a, c);
    hide LoadContext, Swapped, Init, Intact, MayWrite, Outgoing, InitialStackPointer, HomesApart;
    if a.Switch? && c == s.cur {
      SwitchLeaves(s, a.next);
    } else if a.Spawn? && c == a.c {
      SpawnIntact(s.mem, a.home, a.self, a.base, a.page, a.size, a.entry);
    } else {
      OneStaysIntact(s, a, c);
    }
  }

  /** After a step the homes are apart again. */
  lemma HomesAfter(s: State, a: Step)
    requires AllIntact(s) && Enabled(s, a)
    ensures var t := Do(s, a);
            && t.cur in t.home && t.cur !in t.out
            && (forall c :: c in t.home ==> HomeOk(t.home[c]))
            && (forall b, c :: b in t.home && c in t.home && b != c ==> HomesApart(t.home[b], t.home[c]))
  {
    if a.Switch? {
      SwitchKnows(s, a.next);
    } else if a.Spawn? {
      SpawnHomes(s, a.c, a.home, Do(s, a).mem);
    }
    hide LoadContext, Swapped, Init, MayWrite, Outgoing, Incoming, Intact, IsPageSize, IsStackSize, InStack, HomesApart, HomeOk, Untouched;
  }

  lemma SpawnHomes(s: State, c: Rid, h: Home, mem: Memory)
    requires AllIntact(s) && c != s.cur && HomesApart(h, s.home[s.cur]) && HomeOk(h)
    ensures var t := Spawned(s, c, h, mem);
            && t.cur in t.home && t.cur !in t.out
            && (forall d :: d in t.home ==> HomeOk(t.home[d]))
            && (forall b, d :: b in t.home && d in t.home && b != d ==> HomesApart(t.home[b], t.home[d]))
  {
    hide LoadContext, Intact, HomeOk;
    assert forall d :: d in s.home && HomesApart(h, s.home[d]) ==> HomesApart(s.home[d], h);
    hide HomesApart;
  }

  /** Every step keeps the context of every coroutine that can be switched to. */
  lemma StepKeepsIntact(s: State, a: Step)
    requires AllIntact(s) && Enabled(s, a)
    ensures AllIntact(Do(s, a))
  {
    var t := Do(s, a);
    HomesAfter(s, a);
    hide Do, Enabled, Intact, HomesApart, HomeOk;
    forall c | c in t.out ensures c in t.home && Intact(t.home[c], t.mem, t.out[c]) {
      OneIsIntact(s, a, c);
    }
  }

  /** The machine goes on as the context says: every register that bSwap names is the context's, but for rax, which is 0. */
  predicate GoesOn(x: Context, cpu: Cpu) {
    && cpu.rip == x.ret && cpu.rsp == x.rsp + 8 && cpu.rax == 0
    && cpu.rdi == x.rdi && cpu.rsi == x.rsi && cpu.rdx == x.rdx && cpu.rcx == x.rcx && cpu.r8 == x.r8 && cpu.r9 == x.r9
    && cpu.rbx == x.rbx && cpu.rbp == x.rbp
    && cpu.r12 == x.r12 && cpu.r13 == x.r13 && cpu.r14 == x.r14 && cpu.r15 == x.r15
  }

  /** A coroutine that is entered has its return address below its stack pointer, whatever was there before. */
  lemma SwitchGoesOn(s: State, next: Rid)
    requires AllIntact(s) && Enabled(s, Switch(next))
    ensures var t := Do(s, Switch(next));
            && next in s.home && GoesOn(s.out[next], t.cpu) && Word8(t.mem, s.out[next].rsp) == s.out[next].ret
            && forall b :: InStack(s.home[next], b) && b != s.out[next].rsp ==> Word8(t.mem, b) == Word8(s.mem, b)
  {
    SwitchKnows(s, next);
    var h, x := s.home[next], s.out[next];
    assert HomesApart(h, s.home[s.cur]);
    hide LoadContext, StoreContext, AllIntact;
    forall b | InStack(h, b) && b != x.rsp
      ensures Word8(Swapped(s.cpu, s.mem), b) == Word8(s.mem, b)
    {
      SwappedWord(s.cpu, s.mem, b);
    }
  }

  // ---- stacks -------------------------------------------------------------------------------------------

  /** What the step makes of a word v at address b, if it is running code. */
  function WrittenBy(a: Step, b: Addr, v: Word): Word {
    if a.Compute? && b in a.writes then a.writes[b] else v
  }

  /** bSwap writes to no stack but the one that it enters. */
  lemma SwitchStack(s: State, next: Rid, c: Rid, b: Addr)
    requires AllIntact(s) && Enabled(s, Switch(next)) && c in s.home && c != next && InStack(s.home[c], b)
    ensures Word8(Swapped(s.cpu, s.mem), b) == Word8(s.mem, b)
  {
    SwitchKnows(s, next);
    assert HomesApart(s.home[c], s.home[next]);
    assert c != s.cur ==> HomesApart(s.home[c], s.home[s.cur]);
    assert HomeOk(s.home[c]);
    hide LoadContext, Swapped, Intact, AllIntact;
    SwappedWord(s.cpu, s.mem, b);
  }

  /** Of a stack that is left alone, only running code changes a word. */
  lemma StackStep(s: State, a: Step, c: Rid, b: Addr)
    requires AllIntact(s) && Enabled(s, a) && c in s.out && c in s.home && LeavesAlone(a, c, s.home[c]) && InStack(s.home[c], b)
    ensures Word8(Do(s, a).mem, b) == WrittenBy(a, b, Word8(s.mem, b))
  {
    hide LoadContext, Swapped, Init, Intact, MayWrite;
    match a
    case Compute(_, _) =>
    case Spawn(_, g, self, base, page, size, entry) =>
      InitElsewhere(s.mem, g.ctx, self, base, page, size, entry, b);
    case Switch(next) =>
      SwitchStack(s, next, c, b);
    case Release(_) =>
  }

  // ---- runs ---------------------------------------------------------------------------------------------

  ghost predicate IsRun(states: seq<State>, steps: seq<Step>) {
    && |states| == |steps| + 1
    && states[0].home.Keys == {states[0].cur} && states[0].out == map[] && HomeOk(states[0].home[states[0].cur])
    && forall k :: 0 <= k < |steps| ==> Enabled(states[k], steps[k]) && states[k + 1] == Do(states[k], steps[k])
  }

  lemma RunStep(states: seq<State>, steps: seq<Step>, k: nat)
    requires IsRun(states, steps) && k < |steps|
    ensures |states| == |steps| + 1 && Enabled(states[k], steps[k]) && states[k + 1] == Do(states[k], steps[k])
  {
  }

  lemma {:induction false} RunIntact(states: seq<State>, steps: seq<Step>, n: nat)
    requires IsRun(states, steps) && n <= |steps|
    ensures |states| == |steps| + 1 && AllIntact(states[n])
  {
    if n == 0 {
      assert states[0].home.Keys == {states[0].cur};
    } else {
      hide *;
      RunIntact(states, steps, n - 1);
      RunStep(states, steps, n - 1);
      StepKeepsIntact(states[n - 1], steps[n - 1]);
    }
  }

  /** From state i to state j nobody switches to coroutine c, and its memory is neither freed nor given to another. */
  predicate LeftAlone(steps: seq<Step>, i: nat, j: nat, c: Rid, h: Home)
    requires j <= |steps|
  {
    forall k :: i <= k < j ==> LeavesAlone(steps[k], c, h)
  }

  lemma AloneLast(steps: seq<Step>, i: nat, j: nat, c: Rid, h: Home)
    requires i < j <= |steps| && LeftAlone(steps, i, j, c, h)
    ensures LeavesAlone(steps[j - 1], c, h) && LeftAlone(steps, i, j - 1, c, h)
  {
  }

  /** While a coroutine is left alone, what it left behind, or was given, is remembered. */
  lemma {:induction false} Remembered(states: seq<State>, steps: seq<Step>, i: nat, j: nat, c: Rid, h: Home, x: Context)
    requires IsRun(states, steps) && i <= j <= |steps| && LeftAlone(steps, i, j, c, h)
    requires |states| == |steps| + 1 && c in states[i].out && c in states[i].home && states[i].out[c] == x && states[i].home[c] == h
    ensures c in states[j].out && c in states[j].home && states[j].out[c] == x && states[j].home[c] == h
    decreases j
  {
    hide *;
    if i < j {
      AloneLast(steps, i, j, c, h);
      Remembered(states, steps, i, j - 1, c, h, x);
      RunIntact(states, steps, j - 1);
      RunStep(states, steps, j - 1);
      OutAfter(states[j - 1], steps[j - 1], c);
    }
  }

  /** What running code makes, from state i to state j, of a word v at address b. */
  function Written(steps: seq<Step>, i: nat, j: nat, b: Addr, v: Word): Word
    requires i <= j <= |steps|
    decreases j
  {
    if i == j then v else WrittenBy(steps[j - 1], b, Written(steps, i, j - 1, b, v))
  }

  /** Nothing is written to address b from state i to state j. */
  predicate Unwritten(steps: seq<Step>, i: nat, j: nat, b: Addr)
    requires j <= |steps|
  {
    forall k :: i <= k < j && steps[k].Compute? ==> b !in steps[k].writes
  }

  lemma {:induction false} UnwrittenStays(steps: seq<Step>, i: nat, j: nat, b: Addr, v: Word)
    requires i <= j <= |steps| && Unwritten(steps, i, j, b)
    ensures Written(steps, i, j, b, v) == v
    decreases j
  {
    if i < j {
      UnwrittenStays(steps, i, j - 1, b, v);
    }
  }

  /** While a coroutine is left alone, the words of its stack are what running code makes of them. */
  lemma {:induction false} StackRemembered(states: seq<State>, steps: seq<Step>, i: nat, j: nat, c: Rid, h: Home, b: Addr)
    requires IsRun(states, steps) && i <= j <= |steps| && LeftAlone(steps, i, j, c, h) && InStack(h, b)
    requires |states| == |steps| + 1 && c in states[i].out && c in states[i].home && states[i].home[c] == h
    ensures Word8(states[j].mem, b) == Written(steps, i, j, b, Word8(states[i].mem, b))
    decreases j
  {
    WrittenLast(steps, i, j, b, Word8(states[i].mem, b));
    hide *;
    if i < j {
      AloneLast(steps, i, j, c, h);
      Remembered(states, steps, i, j - 1, c, h, states[i].out[c]);
      StackRemembered(states, steps, i, j - 1, c, h, b);
      RunIntact(states, steps, j - 1);
      RunStep(states, steps, j - 1);
      StackStep(states[j - 1], steps[j - 1], c, b);
    }
  }

  lemma WrittenLast(steps: seq<Step>, i: nat, j: nat, b: Addr, v: Word)
    requires i <= j <= |steps|
    ensures Written(steps, i, j, b, v) == if i == j then v else WrittenBy(steps[j - 1], b, Written(steps, i, j - 1, b, v))
  {
  }

  /**
    In every run, a coroutine that calls bSwap at step i and is next switched to at step j goes on
    at its own return address, with every register as it was at the call but for rax, and its stack
    pointer just above the return address, whatever was computed and written, its own stack
    included, whatever coroutines were started meanwhile on contexts and stacks of finished ones,
    and whatever was freed, as long as its own context and stack were neither freed nor given to
    another. The return address is in its place, and every other word of the stack is as it was,
    but for what running code wrote to it.
   */
  lemma EveryCoroutineGoesOn(states: seq<State>, steps: seq<Step>, i: nat, j: nat)
    requires IsRun(states, steps) && i < j < |steps| && steps[i].Switch? && steps[j] == Switch(states[i].cur)
    requires states[i].cur in states[i].home && LeftAlone(steps, i + 1, j, states[i].cur, states[i].home[states[i].cur])
    ensures var out, back := states[i], states[j + 1];
            && back.cpu == out.cpu.(rip := Word8(out.mem, out.cpu.rsp), rsp := out.cpu.rsp + 8, rax := 0)
            && Word8(back.mem, out.cpu.rsp) == Word8(out.mem, out.cpu.rsp)
    ensures var out, back := states[i], states[j + 1];
            forall b :: InStack(out.home[out.cur], b) && b != out.cpu.rsp ==>
              && Word8(back.mem, b) == Written(steps, i + 1, j, b, Word8(out.mem, b))
              && (Unwritten(steps, i + 1, j, b) ==> Word8(back.mem, b) == Word8(out.mem, b))
  {
    var c, h := states[i].cur, states[i].home[states[i].cur];
    var x := Outgoing(states[i].cpu, states[i].mem);
    RunStep(states, steps, i);
    RunIntact(states, steps, i);
    OutAfter(states[i], steps[i], c);
    OutgoingIs(states[i].cpu, states[i].mem);
    hide *;
    SwitchHome(states[i], steps[i].next, c);
    Remembered(states, steps, i + 1, j, c, h, x);
    RunIntact(states, steps, j);
    RunStep(states, steps, j);
    SwitchGoesOn(states[j], c);
    SameRegisters(states[i].cpu, states[i].mem, states[j + 1].cpu);
    forall b | InStack(h, b) && b != x.rsp
      ensures Word8(states[j + 1].mem, b) == Written(steps, i + 1, j, b, Word8(states[i].mem, b))
      ensures Unwritten(steps, i + 1, j, b) ==> Word8(states[j + 1].mem, b) == Word8(states[i].mem, b)
    {
      LeftStack(states[i], steps[i].next, b);
      StackRemembered(states, steps, i + 1, j, c, h, b);
      if Unwritten(steps, i + 1, j, b) {
        UnwrittenStays(steps, i + 1, j, b, Word8(states[i].mem, b));
      }
    }
  }

  /** A switch leaves the stack of its caller as it is. */
  lemma LeftStack(s: State, next: Rid, b: Addr)
    requires AllIntact(s) && Enabled(s, Switch(next)) && s.cur in s.home && InStack(s.home[s.cur], b)
    ensures Word8(Do(s, Switch(next)).mem, b) == Word8(s.mem, b)
  {
    SwitchKnows(s, next);
    hide Swapped, LoadContext;
    SwitchStack(s, next, s.cur, b);
  }

  lemma SwitchHome(s: State, next: Rid, c: Rid)
    requires Enabled(s, Switch(next)) && c in s.home
    ensures c in Do(s, Switch(next)).home && Do(s, Switch(next)).home[c] == s.home[c]
  {
  }

  lemma OutgoingIs(cpu: Cpu, mem: Memory)
    ensures Outgoing(cpu, mem).rsp == cpu.rsp && Outgoing(cpu, mem).ret == Word8(mem, cpu.rsp)
  {
  }

  /** Who went out with the registers of one machine goes on with them on another. */
  lemma SameRegisters(cpu: Cpu, mem: Memory, back: Cpu)
    requires GoesOn(Outgoing(cpu, mem), back)
    ensures back == cpu.(rip := Word8(mem, cpu.rsp), rsp := cpu.rsp + 8, rax := 0)
  {
  }

  lemma GoesOnIs(x: Context, cpu: Cpu)
    requires GoesOn(x, cpu)
    ensures cpu.rip == x.ret && cpu.rsp == x.rsp + 8 && cpu.rdi == x.rdi && cpu.rsi == x.rsi
  {
  }

  // ---- the first switch into a new coroutine -------------------------------------------------------------------

  predicate Aligned16(a: Addr) {
    a % 16 == 0
  }

  /** The context of a new coroutine. */
  lemma SpawnOut(s: State, a: Step)
    requires Enabled(s, a) && a.Spawn?
    ensures var t := Do(s, a);
            && a.c in t.out && a.c in t.home && t.home[a.c] == a.home
            && var x := t.out[a.c];
               x.rsp == a.home.hi - 16 && x.ret == a.entry && x.rdi == a.self && x.rsi == 0 && Aligned16(x.rsp) && a.home.lo <= x.rsp
  {
    hide Init, LoadContext, InStack, HomesApart, IsPageSize, IsStackSize;
    SpawnIntact(s.mem, a.home, a.self, a.base, a.page, a.size, a.entry);
  }

  /** A coroutine has just been entered for the first time, with its stack pointer in the part of its stack that is not guarded. */
  ghost predicate Entered(a: Step, cpu: Cpu)
    requires a.Spawn?
  {
    && cpu.rip == a.entry && cpu.rdi == a.self && cpu.rsi == 0 && Aligned16(cpu.rsp + 8)
    && a.home.lo <= cpu.rsp - 8 && cpu.rsp <= a.home.hi
  }

  lemma EnteredBy(a: Step, x: Context, cpu: Cpu)
    requires a.Spawn?
    requires x.rsp == a.home.hi - 16 && x.ret == a.entry && x.rdi == a.self && x.rsi == 0 && Aligned16(x.rsp) && a.home.lo <= x.rsp
    requires cpu.rip == x.ret && cpu.rsp == x.rsp + 8 && cpu.rdi == x.rdi && cpu.rsi == x.rsi
    ensures Entered(a, cpu)
  {
    assert Aligned16(x.rsp + 16);
  }

  /** bContext::init writes no word of a stack. */
  lemma SpawnStack(s: State, a: Step)
    requires Enabled(s, a) && a.Spawn?
    ensures forall b :: InStack(a.home, b) ==> Word8(Do(s, a).mem, b) == Word8(s.mem, b)
  {
    forall b | InStack(a.home, b) ensures Word8(Do(s, a).mem, b) == Word8(s.mem, b) {
      hide Init, Word8, LoadContext;
      InitElsewhere(s.mem, a.home.ctx, a.self, a.base, a.page, a.size, a.entry, b);
    }
  }

  /**
    In every run, the first switch into a coroutine that bContext::init prepared at step i, at
    whatever later step j, enters its function with the routine in rdi and the stack aligned as
    section 3.2.2 of the System V AMD64 psABI asks: rsp + 8 is a multiple of 16. Below the stack
    pointer is one word that the switch wrote; every other word of the stack is as it was before
    init, but for what running code wrote to it.
   */
  lemma FirstSwitchEntersAligned(states: seq<State>, steps: seq<Step>, i: nat, j: nat)
    requires IsRun(states, steps) && i < j < |steps| && steps[i].Spawn? && steps[j] == Switch(steps[i].c)
    requires LeftAlone(steps, i + 1, j, steps[i].c, steps[i].home)
    ensures Entered(steps[i], states[j + 1].cpu)
    ensures forall b :: InStack(steps[i].home, b) && b != states[j + 1].cpu.rsp - 8 ==>
              && Word8(states[j + 1].mem, b) == Written(steps, i + 1, j, b, Word8(states[i].mem, b))
              && (Unwritten(steps, i + 1, j, b) ==> Word8(states[j + 1].mem, b) == Word8(states[i].mem, b))
  {
    var a := steps[i];
    hide *;
    RunStep(states, steps, i);
    SpawnOut(states[i], a);
    SpawnStack(states[i], a);
    var x := states[i + 1].out[a.c];
    Remembered(states, steps, i + 1, j, a.c, a.home, x);
    RunIntact(states, steps, j);
    RunStep(states, steps, j);
    SwitchGoesOn(states[j], a.c);
    GoesOnIs(x, states[j + 1].cpu);
    EnteredBy(a, x, states[j + 1].cpu);
    forall b | InStack(a.home, b) && b != x.rsp
      ensures Word8(states[j + 1].mem, b) == Written(steps, i + 1, j, b, Word8(states[i].mem, b))
      ensures Unwritten(steps, i + 1, j, b) ==> Word8(states[j + 1].mem, b) == Word8(states[i].mem, b)
    {
      StackRemembered(states, steps, i + 1, j, a.c, a.home, b);
      if Unwritten(steps, i + 1, j, b) {
        UnwrittenStays(steps, i + 1, j, b, Word8(states[i].mem, b));
      }
    }
  }
}
