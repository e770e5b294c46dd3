/** Saving and restoring a processor context: the instructions of _set_jmp and _long_jmp on the
    general registers, the status flags, the FPU state and memory. */
module Jmp {

  const W := 0x1_0000_0000_0000_0000

  type Word = x: int | 0 <= x < 0x1_0000_0000_0000_0000

  datatype Regs = Regs(
    rax: Word, rdx: Word, rcx: Word, rbx: Word, rsp: Word, rbp: Word, rsi: Word, rdi: Word,
    r8: Word, r9: Word, r10: Word, r11: Word, r12: Word, r13: Word, r14: Word, r15: Word)

  datatype Flags = Flags(cf: bool, pf: bool, af: bool, zf: bool, sf: bool, of: bool)

  /** A processor and the memory it sees: quadwords at multiples of 8 (0 where nothing was written),
      and the images that fxsave writes, by address. The content of an image is opaque. */
  datatype State = State(r: Regs, flags: Flags, fpu: int, rip: Word, mem: map<int, Word>, images: map<int, int>)

  // ---------- Words, bytes and flags ----------

  function Plus(a: Word, b: Word): Word {
    if a + b < W then a + b else a + b - W
  }

  function Minus(a: Word, b: Word): Word {
    if b <= a then a - b else a - b + W
  }

  type Byte = x: int | 0 <= x < 256

  /** AL and AH of a register. */
  function Low(w: Word): Byte { w % 256 }
  function High(w: Word): Byte { w / 256 % 256 }

  function WithLow(w: Word, b: Byte): Word { w - w % 256 + b }

  function WithHigh(w: Word, b: Byte): Word {
    var q := w / 65536;
    assert 0 <= q <= 0xffff_ffff_ffff;
    (q * 256 + b) * 256 + w % 256
  }

  function Bit(b: bool, weight: Byte): Byte {
    if b then weight else 0
  }

  /** The low byte of the flags register, which lahf reads and sahf writes. */
  function FlagByte(f: Flags): Byte {
    Bit(f.cf, 1) + 2 + Bit(f.pf, 4) + Bit(f.af, 16) + Bit(f.zf, 64) + Bit(f.sf, 128)
  }

  function SetFlagByte(f: Flags, b: Byte): Flags {
    f.(cf := b % 2 == 1, pf := b / 4 % 2 == 1, af := b / 16 % 2 == 1, zf := b / 64 % 2 == 1, sf := b / 128 % 2 == 1)
  }

  function Ones(n: nat): nat {
    if n == 0 then 0 else n % 2 + Ones(n / 2)
  }

  /** The flags after an addition of m-valued operands. */
  function AddFlags(a: int, b: int, m: int): Flags
    requires 0 <= a < m && 0 <= b < m
  {
    var sum := if a + b < m then a + b else a + b - m;
    Flags(a + b >= m, Ones(sum % 256) % 2 == 0, a % 16 + b % 16 >= 16, sum == 0, sum >= m / 2,
          (a < m / 2 <==> b < m / 2) && (sum < m / 2 <==> a >= m / 2))
  }

  // ---------- Instructions ----------

  function Load(s: State, a: int): Word {
    if a in s.mem then s.mem[a] else 0
  }

  function Store(s: State, a: int, v: Word): State {
    s.(mem := s.mem[a := v])
  }

  function Push(s: State, v: Word): State {
    var sp := Minus(s.r.rsp, 8);
    Store(s, sp, v).(r := s.r.(rsp := sp))
  }

  function Lahf(s: State): State {
    s.(r := s.r.(rax := WithHigh(s.r.rax, FlagByte(s.flags))))
  }

  function Seto(s: State): State {
    s.(r := s.r.(rax := WithLow(s.r.rax, Bit(s.flags.of, 1))))
  }

  function Sahf(s: State): State {
    s.(flags := SetFlagByte(s.flags, High(s.r.rax)))
  }

  function AddToLow(s: State, b: Byte): State {
    var a := Low(s.r.rax);
    s.(r := s.r.(rax := WithLow(s.r.rax, (a + b) % 256)), flags := AddFlags(a, b, 256))
  }

  /** addq of a constant to the word at an address. */
  function AddToWord(s: State, a: int, b: Word): State {
    Store(s, a, Plus(Load(s, a), b)).(flags := AddFlags(Load(s, a), b, W))
  }

  function AddToSp(s: State, b: Word): State {
    s.(r := s.r.(rsp := Plus(s.r.rsp, b)), flags := AddFlags(s.r.rsp, b, W))
  }

  /** xorq of rax with itself; the adjust flag is left undefined by it, here as it was. */
  function ClearRax(s: State): State {
    s.(r := s.r.(rax := 0), flags := Flags(false, true, s.flags.af, true, false, false))
  }

  function PopRax(s: State): State {
    s.(r := s.r.(rax := Load(s, s.r.rsp), rsp := Plus(s.r.rsp, 8)))
  }

  function Ret(s: State): State {
    s.(rip := Load(s, s.r.rsp), r := s.r.(rsp := Plus(s.r.rsp, 8)))
  }

  function FxSave(s: State, a: int): State {
    s.(images := s.images[a := s.fpu])
  }

  function FxRestore(s: State, a: int): State {
    s.(fpu := if a in s.images then s.images[a] else 0)
  }

  // ---------- The context record ----------

  /** The fields of exec_context_t. */
  datatype Context = Context(
    rax: Word, rdx: Word, rcx: Word, rbx: Word, rsp: Word, rbp: Word, rsi: Word, rdi: Word,
    r8: Word, r9: Word, r10: Word, r11: Word, r12: Word, r13: Word, r14: Word, r15: Word,
    rip: Word, flags: Word, fpu: int)

  function ContextAt(s: State, a: int): Context {
    Context(Load(s, a), Load(s, a + 8), Load(s, a + 16), Load(s, a + 24), Load(s, a + 32), Load(s, a + 40),
            Load(s, a + 48), Load(s, a + 56), Load(s, a + 64), Load(s, a + 72), Load(s, a + 80), Load(s, a + 88),
            Load(s, a + 96), Load(s, a + 104), Load(s, a + 112), Load(s, a + 120), Load(s, a + 128), Load(s, a + 136),
            if a + 144 in s.images then s.images[a + 144] else 0)
  }

  /** The word _set_jmp pushes for the flags: rax with the flag byte in AH and the overflow flag in AL. */
  function FlagWord(rax: Word, f: Flags): Word {
    WithLow(WithHigh(rax, FlagByte(f)), Bit(f.of, 1))
  }

  /** The flags _long_jmp makes of that word. */
  function FlagsOf(w: Word): Flags {
    SetFlagByte(AddFlags(Low(w), 0x7f, 256), High(w))
  }

  lemma HighOfWithHigh(w: Word, b: Byte)
    ensures High(WithHigh(w, b)) == b && Low(WithHigh(w, b)) == Low(w)
  {
  }

  lemma LowOfWithLow(w: Word, b: Byte)
    ensures Low(WithLow(w, b)) == b && High(WithLow(w, b)) == High(w)
  {
    assert WithLow(w, b) == 256 * (w / 256) + b;
  }

  lemma FlagByteBits(f: Flags, g: Flags)
    ensures SetFlagByte(g, FlagByte(f)) == f.(of := g.of)
  {
  }

  /** All six status flags survive, whatever rax was: adding 0x7f to AL overflows exactly if it
      holds 1, and sahf does not touch the overflow flag. */
  lemma FlagsSurvive(rax: Word, f: Flags)
    ensures FlagsOf(FlagWord(rax, f)) == f
  {
    HighOfWithHigh(rax, FlagByte(f));
    LowOfWithLow(WithHigh(rax, FlagByte(f)), Bit(f.of, 1));
    FlagByteBits(f, AddFlags(Bit(f.of, 1), 0x7f, 256));
  }

  // ---------- What a call saves ----------

  /** The context at the call of set_jmp: rdi as the macro pushed it above the return address, and
      the stack pointer one word below the return address. */
  function CallerContext(s: State): Context {
    Context(s.r.rax, s.r.rdx, s.r.rcx, s.r.rbx, Minus(s.r.rsp, 8), s.r.rbp, s.r.rsi, Load(s, s.r.rsp + 8),
            s.r.r8, s.r.r9, s.r.r10, s.r.r11, s.r.r12, s.r.r13, s.r.r14, s.r.r15,
            Load(s, s.r.rsp), FlagWord(s.r.rax, s.flags), s.fpu)
  }

  /** The record at a, 16-byte aligned, is apart from the words from lo up to hi. */
  predicate Apart(a: int, lo: int, hi: int) {
    0 <= a && a + 656 <= W && a % 16 == 0 && lo % 8 == 0 && hi % 8 == 0 && (a + 656 <= lo || hi <= a)
  }

  /** _set_jmp uses three words below the return address, and reads the one above it. */
  predicate MaySave(s: State) {
    24 <= s.r.rsp && s.r.rsp + 16 <= W && Apart(s.r.rdi, s.r.rsp - 24, s.r.rsp + 16)
  }

  /** _long_jmp writes the return address back, and the return value below it. */
  predicate MayJump(s: State) {
    var sp := ContextAt(s, s.r.rdi).rsp;
    sp + 16 <= W && Apart(s.r.rdi, sp, sp + 16)
  }

  /** Memory is as before, except for the context record and the words from lo up to hi. */
  ghost predicate OnlyChanges(s: State, s': State, ctx: int, lo: int, hi: int) {
    && (forall a :: !(lo <= a < hi) && !(ctx <= a < ctx + 144) ==> Load(s', a) == Load(s, a))
    && (forall a :: a != ctx + 144 ==> (a in s'.images <==> a in s.images) && (a in s.images ==> s'.images[a] == s.images[a]))
  }

  /** The first return of set_jmp: the record holds the caller's context; the registers but rax,
      rdx and r11 are the caller's. */
  ghost predicate SavedBy(s: State, s': State) {
    && ContextAt(s', s.r.rdi) == CallerContext(s)
    && s'.rip == Load(s, s.r.rsp) && s'.fpu == s.fpu
    && s'.r == s.r.(rax := 0, rsp := Plus(s.r.rsp, 8), rdx := s'.r.rdx, r11 := s'.r.r11)
    && OnlyChanges(s, s', s.r.rdi, s.r.rsp - 24, s.r.rsp)
  }

  /** What a jump makes of a record, and of the value it is given. */
  ghost predicate JumpedTo(s: State, s': State) {
    var c := ContextAt(s, s.r.rdi);
    && s'.r == Regs(s.r.rsi, c.rdx, c.rcx, c.rbx, Plus(c.rsp, 16), c.rbp, c.rsi, c.rdi,
                    c.r8, c.r9, c.r10, c.r11, c.r12, c.r13, c.r14, c.r15)
    && s'.flags == FlagsOf(c.flags) && s'.fpu == c.fpu && s'.rip == c.rip
    && (forall a :: !(c.rsp <= a < c.rsp + 16) ==> Load(s', a) == Load(s, a)) && s'.images == s.images
  }

  /** Only the record's bytes from lo up to hi changed in memory. */
  ghost predicate SameButRecord(s: State, s': State, ctx: int, lo: int, hi: int) {
    s'.fpu == s.fpu && forall a :: !(ctx + lo <= a < ctx + hi) ==> Load(s', a) == Load(s, a)
  }

  ghost predicate HalfSaved(s: State, h: State) {
    var a := s.r.rdi;
    && 24 <= s.r.rsp && h.r == s.r.(rsp := s.r.rsp - 24, rax := a, r11 := h.r.r11) && h.fpu == s.fpu && h.images == s.images
    && Load(h, a) == s.r.rax && Load(h, a + 8) == s.r.rdx && Load(h, a + 16) == s.r.rcx && Load(h, a + 24) == s.r.rbx
    && Load(h, a + 32) == s.r.rsp - 8 && Load(h, a + 40) == s.r.rbp && Load(h, a + 48) == s.r.rsi
    && Load(h, a + 56) == Load(s, s.r.rsp + 8)
    && Load(h, s.r.rsp - 16) == s.r.r11 && Load(h, s.r.rsp - 24) == FlagWord(s.r.rax, s.flags)
    && forall b :: !(a <= b < a + 64) && !(s.r.rsp - 24 <= b < s.r.rsp) ==> Load(h, b) == Load(s, b)
  }

  ghost predicate RestSaved(h: State, s': State) {
    var a := h.r.rax;
    && s'.r == h.r.(rax := 0, rsp := Plus(h.r.rsp, 32), r11 := s'.r.r11, rdx := s'.r.rdx)
    && s'.fpu == h.fpu && s'.images == h.images[a + 144 := h.fpu] && s'.rip == Load(h, h.r.rsp + 24)
    && Load(s', a + 64) == h.r.r8 && Load(s', a + 72) == h.r.r9 && Load(s', a + 80) == h.r.r10
    && Load(s', a + 88) == Load(h, h.r.rsp + 8) && Load(s', a + 96) == h.r.r12 && Load(s', a + 104) == h.r.r13
    && Load(s', a + 112) == h.r.r14 && Load(s', a + 120) == h.r.r15
    && Load(s', a + 136) == Load(h, h.r.rsp) && Load(s', a + 128) == Load(h, h.r.rsp + 24)
    && forall b :: !(a + 64 <= b < a + 144) ==> Load(s', b) == Load(h, b)
  }

  lemma HalvesSave(s: State, h: State, s': State)
    requires MaySave(s) && HalfSaved(s, h) && RestSaved(h, s')
    ensures SavedBy(s, s')
  {
    assert Minus(s.r.rsp, 8) == s.r.rsp - 8;
    assert ContextAt(s', s.r.rdi) == CallerContext(s);
  }

  class Cpu {
    var state: State

    method MovToRax(v: Word)
      modifies this
      ensures state == old(state).(r := old(state).r.(rax := v))
    {
      state := state.(r := state.r.(rax := v));
    }

    method MovToR11(a: int)
      modifies this
      ensures state == old(state).(r := old(state).r.(r11 := Load(old(state), a)))
    {
      state := state.(r := state.r.(r11 := Load(state, a)));
    }

    /** Up to the push of the flags. */
    method PushThree()
      requires 24 <= state.r.rsp
      modifies this
      ensures var s, sp := old(state), old(state).r.rsp;
              && Load(state, sp - 8) == s.r.rax && Load(state, sp - 16) == s.r.r11
              && Load(state, sp - 24) == FlagWord(s.r.rax, s.flags)
              && (forall a :: !(sp - 24 <= a < sp) ==> Load(state, a) == Load(s, a))
              && state.r == s.r.(rsp := sp - 24, rax := state.r.rax) && state.fpu == s.fpu && state.images == s.images
    {
      state := Push(state, state.r.rax);
      state := Push(state, state.r.r11);
      state := Lahf(state);
      state := Seto(state);
      state := Push(state, state.r.rax);
    }

    /** rax, rdx, rcx and rbx. */
    method StoreFirst()
      requires state.r.rsp + 40 <= W && Apart(state.r.rdi, state.r.rsp, state.r.rsp + 40)
      modifies this
      ensures var s, a := old(state), old(state).r.rdi;
              && Load(state, a) == Load(s, s.r.rsp + 16) && Load(state, a + 8) == s.r.rdx
              && Load(state, a + 16) == s.r.rcx && Load(state, a + 24) == s.r.rbx
              && SameButRecord(s, state, a, 0, 32) && state.r == s.r.(rax := a, r11 := state.r.r11) && state.images == s.images
    {
      MovToRax(state.r.rdi);
      MovToR11(state.r.rsp + 16);
      state := Store(state, state.r.rax, state.r.r11);
      state := Store(state, state.r.rax + 8, state.r.rdx);
      state := Store(state, state.r.rax + 16, state.r.rcx);
      state := Store(state, state.r.rax + 24, state.r.rbx);
    }

    /** rsp, two words up from here, rbp, rsi, and rdi as the macro pushed it. */
    method StoreSecond()
      requires state.r.rsp + 40 <= W && Apart(state.r.rax, state.r.rsp, state.r.rsp + 40)
      modifies this
      ensures var s, a := old(state), old(state).r.rax;
              && Load(state, a + 32) == s.r.rsp + 16 && Load(state, a + 40) == s.r.rbp
              && Load(state, a + 48) == s.r.rsi && Load(state, a + 56) == Load(s, s.r.rsp + 32)
              && SameButRecord(s, state, a, 32, 64) && state.r == s.r.(r11 := state.r.r11) && state.images == s.images
    {
      state := Store(state, state.r.rax + 32, state.r.rsp);
      state := AddToWord(state, state.r.rax + 32, 16);
      state := Store(state, state.r.rax + 40, state.r.rbp);
      state := Store(state, state.r.rax + 48, state.r.rsi);
      MovToR11(state.r.rsp + 32);
      state := Store(state, state.r.rax + 56, state.r.r11);
    }

    /** r8 to r11. */
    method StoreThird()
      requires state.r.rsp + 40 <= W && Apart(state.r.rax, state.r.rsp, state.r.rsp + 40)
      modifies this
      ensures var s, a := old(state), old(state).r.rax;
              && Load(state, a + 64) == s.r.r8 && Load(state, a + 72) == s.r.r9
              && Load(state, a + 80) == s.r.r10 && Load(state, a + 88) == Load(s, s.r.rsp + 8)
              && SameButRecord(s, state, a, 64, 96) && state.r == s.r.(r11 := state.r.r11) && state.images == s.images
    {
      state := Store(state, state.r.rax + 64, state.r.r8);
      state := Store(state, state.r.rax + 72, state.r.r9);
      state := Store(state, state.r.rax + 80, state.r.r10);
      MovToR11(state.r.rsp + 8);
      state := Store(state, state.r.rax + 88, state.r.r11);
    }

    /** r12 to r15. */
    method StoreFourth()
      modifies this
      ensures var s, a := old(state), old(state).r.rax;
              && Load(state, a + 96) == s.r.r12 && Load(state, a + 104) == s.r.r13
              && Load(state, a + 112) == s.r.r14 && Load(state, a + 120) == s.r.r15
              && SameButRecord(s, state, a, 96, 128) && state.r == s.r && state.images == s.images
    {
      state := Store(state, state.r.rax + 96, state.r.r12);
      state := Store(state, state.r.rax + 104, state.r.r13);
      state := Store(state, state.r.rax + 112, state.r.r14);
      state := Store(state, state.r.rax + 120, state.r.r15);
    }

    /** The flags, the return address and the FPU state. */
    method StoreLast()
      requires state.r.rsp + 40 <= W && Apart(state.r.rax, state.r.rsp, state.r.rsp + 40)
      modifies this
      ensures var s, a := old(state), old(state).r.rax;
              && Load(state, a + 136) == Load(s, s.r.rsp) && Load(state, a + 128) == Load(s, s.r.rsp + 24)
              && SameButRecord(s, state, a, 128, 144) && state.r == s.r.(r11 := state.r.r11, rdx := state.r.rdx)
              && state.images == s.images[a + 144 := s.fpu]
    {
      state := state.(r := state.r.(rdx := Load(state, state.r.rsp)));
      state := Store(state, state.r.rax + 136, state.r.rdx);
      MovToR11(state.r.rsp + 24);
      state := Store(state, state.r.rax + 128, state.r.r11);
      state := FxSave(state, state.r.rax + 144);
    }

    method Return()
      requires state.r.rsp + 32 <= W
      modifies this
      ensures var s := old(state);
              && state.r == s.r.(rax := 0, rsp := Plus(s.r.rsp, 32)) && state.rip == Load(s, s.r.rsp + 24)
              && state.mem == s.mem && state.images == s.images && state.fpu == s.fpu
    {
      state := AddToSp(state, 24);
      state := ClearRax(state);
      state := Ret(state);
    }

    /** Up to the store of rdi. */
    method FirstHalf()
      requires MaySave(state)
      modifies this
      ensures HalfSaved(old(state), state)
    {
      PushThree();
      StoreFirst();
      StoreSecond();
    }

    /** From the store of r8 on. */
    method SecondHalf()
      requires state.r.rsp + 40 <= W && Apart(state.r.rax, state.r.rsp, state.r.rsp + 40)
      modifies this
      ensures RestSaved(old(state), state)
    {
      StoreThird();
      StoreFourth();
      StoreLast();
      Return();
    }

    /** _set_jmp, called by the macro with the address of the record in rdi. */
    method SetJmp()
      requires MaySave(state)
      modifies this
      ensures SavedBy(old(state), state)
    {
      FirstHalf();
      ghost var half := state;
      SecondHalf();
      HalvesSave(old(state), half, state);
    }
  
    /** The return address and the return value go to the stack of the record. */
    method PutReturn()
      requires MayJump(state)
      modifies this
      ensures var s, c := old(state), ContextAt(old(state), old(state).r.rdi);
              && Load(state, c.rsp) == s.r.rsi && Load(state, c.rsp + 8) == c.rip
              && (forall a :: !(c.rsp <= a < c.rsp + 16) ==> Load(state, a) == Load(s, a))
              && state.r == s.r.(rax := s.r.rdi, r10 := state.r.r10, r11 := state.r.r11) && state.images == s.images
    {
      MovToRax(state.r.rdi);
      state := state.(r := state.r.(r10 := Load(state, state.r.rax + 128)));
      MovToR11(state.r.rax + 32);
      state := Store(state, state.r.r11 + 8, state.r.r10);
      state := Store(state, state.r.r11, state.r.rsi);
    }

    method LoadMost()
      modifies this
      ensures var s, c := old(state), ContextAt(old(state), old(state).r.rax);
              state == s.(r := Regs(s.r.rax, c.rdx, c.rcx, c.rbx, c.rsp, c.rbp, c.rsi, s.r.rdi,
                                    c.r8, c.r9, c.r10, c.r11, c.r12, c.r13, c.r14, s.r.r15))
    {
      state := state.(r := state.r.(rdx := Load(state, state.r.rax + 8)));
      state := state.(r := state.r.(rcx := Load(state, state.r.rax + 16)));
      state := state.(r := state.r.(rbx := Load(state, state.r.rax + 24)));
      state := state.(r := state.r.(rsp := Load(state, state.r.rax + 32)));
      state := state.(r := state.r.(rbp := Load(state, state.r.rax + 40)));
      state := state.(r := state.r.(rsi := Load(state, state.r.rax + 48)));
      state := state.(r := state.r.(r8 := Load(state, state.r.rax + 64)));
      state := state.(r := state.r.(r9 := Load(state, state.r.rax + 72)));
      state := state.(r := state.r.(r10 := Load(state, state.r.rax + 80)));
      MovToR11(state.r.rax + 88);
      state := state.(r := state.r.(r12 := Load(state, state.r.rax + 96)));
      state := state.(r := state.r.(r13 := Load(state, state.r.rax + 104)));
      state := state.(r := state.r.(r14 := Load(state, state.r.rax + 112)));
    }

    method LoadFlags()
      modifies this
      ensures var s, w := old(state), Load(old(state), old(state).r.rax + 136);
              state == s.(r := s.r.(rax := state.r.rax), flags := FlagsOf(w))
    {
      MovToRax(Load(state, state.r.rax + 136));
      LowOfWithLow(state.r.rax, (Low(state.r.rax) + 0x7f) % 256);
      state := AddToLow(state, 0x7f);
      state := Sahf(state);
    }

    /** rdi, r15, the FPU state, the stack pointer, the value left on that stack, and away. */
    method LoadLast()
      modifies this
      ensures var s, c := old(state), ContextAt(old(state), old(state).r.rdi);
              state == s.(r := s.r.(rdi := c.rdi, r15 := c.r15, rax := Load(s, c.rsp), rsp := Plus(Plus(c.rsp, 8), 8)),
                          fpu := c.fpu, rip := Load(s, Plus(c.rsp, 8)))
    {
      MovToRax(state.r.rdi);
      state := state.(r := state.r.(rdi := Load(state, state.r.rax + 56)));
      state := state.(r := state.r.(r15 := Load(state, state.r.rax + 120)));
      state := FxRestore(state, state.r.rax + 144);
      state := state.(r := state.r.(rsp := Load(state, state.r.rax + 32)));
      state := PopRax(state);
      state := Ret(state);
    }

    /** _long_jmp, called with the address of the record in rdi and the value in rsi. */
    method LongJmp()
      requires MayJump(state)
      modifies this
      ensures JumpedTo(old(state), state)
    {
      PutReturn();
      KeepsRecord(old(state), state, old(state).r.rdi);
      LoadMost();
      LoadFlags();
      LoadLast();
    }
  }

  /** The two words a jump writes do not belong to the record. */
  lemma KeepsRecord(s: State, s': State, a: int)
    requires var sp := ContextAt(s, a).rsp;
             Apart(a, sp, sp + 16) && forall b :: !(sp <= b < sp + 16) ==> Load(s', b) == Load(s, b)
    requires s'.images == s.images
    ensures ContextAt(s', a) == ContextAt(s, a)
  {
  }

  // ---------- Round trip ----------

  /** At the entry of _set_jmp: the macro pushed rdi, and the call the address behind it. */
  function Called(s: State, ctx: Word, back: Word): State {
    var pushed := Push(s, s.r.rdi);
    Push(pushed.(r := pushed.r.(rdi := ctx)), back)
  }

  /** What the record of such a call holds. */
  function Snapshot(s: State, back: Word): Context
    requires 40 <= s.r.rsp
  {
    Context(s.r.rax, s.r.rdx, s.r.rcx, s.r.rbx, s.r.rsp - 24, s.r.rbp, s.r.rsi, s.r.rdi,
            s.r.r8, s.r.r9, s.r.r10, s.r.r11, s.r.r12, s.r.r13, s.r.r14, s.r.r15,
            back, FlagWord(s.r.rax, s.flags), s.fpu)
  }

  lemma CalledContext(s: State, ctx: Word, back: Word)
    requires 40 <= s.r.rsp
    ensures CallerContext(Called(s, ctx, back)) == Snapshot(s, back)
    ensures Called(s, ctx, back).r.rdi == ctx && Called(s, ctx, back).r.rsp == s.r.rsp - 16
    ensures Load(Called(s, ctx, back), s.r.rsp - 16) == back
  {
  }

  lemma SavedContext(s: State, ctx: Word, back: Word, first: State)
    requires 40 <= s.r.rsp && SavedBy(Called(s, ctx, back), first)
    ensures ContextAt(first, ctx) == Snapshot(s, back) && first.rip == back && first.r.rsp == s.r.rsp - 8
  {
    CalledContext(s, ctx, back);
  }

  /** A first return keeps what section 3.2.1 of the System V ABI AMD64 supplement asks of a
      function: rbx, rbp, r12 to r15, and the stack pointer. */
  lemma FirstReturnKeeps(s: State, ctx: Word, back: Word, first: State)
    requires 40 <= s.r.rsp && MaySave(Called(s, ctx, back)) && SavedBy(Called(s, ctx, back), first)
    ensures first.r.rax == 0 && first.rip == back && Plus(first.r.rsp, 8) == s.r.rsp
    ensures first.r.rbx == s.r.rbx && first.r.rbp == s.r.rbp
    ensures first.r.r12 == s.r.r12 && first.r.r13 == s.r.r13 && first.r.r14 == s.r.r14 && first.r.r15 == s.r.r15
  {
  }

  /** Execution goes on behind the call of set_jmp with the value of the jump, the stack pointer
      of the first return, and all else as it was when the macro was entered: the other general
      registers, the FPU state and the six status flags. Only two words of memory are written. */
  ghost predicate ResumedAs(s: State, back: Word, v: Word, later: State, resumed: State)
    requires 40 <= s.r.rsp
  {
    && resumed.r == s.r.(rax := v, rsp := s.r.rsp - 8) && resumed.rip == back
    && resumed.flags == s.flags && resumed.fpu == s.fpu && resumed.images == later.images
    && forall a :: !(s.r.rsp - 24 <= a < s.r.rsp - 8) ==> Load(resumed, a) == Load(later, a)
  }

  lemma Resumes(s: State, back: Word, later: State, resumed: State)
    requires 40 <= s.r.rsp && ContextAt(later, later.r.rdi) == Snapshot(s, back) && JumpedTo(later, resumed)
    ensures ResumedAs(s, back, later.r.rsi, later, resumed)
  {
    FlagsSurvive(s.r.rax, s.flags);
  }

  /** Whatever any processor does between a save and a jump to its record, as long as the record
      is intact. */
  lemma RoundTrip(s: State, ctx: Word, back: Word, first: State, later: State, resumed: State)
    requires 40 <= s.r.rsp && MaySave(Called(s, ctx, back)) && SavedBy(Called(s, ctx, back), first)
    requires later.r.rdi == ctx && ContextAt(later, ctx) == ContextAt(first, ctx)
    requires JumpedTo(later, resumed)
    ensures ResumedAs(s, back, later.r.rsi, later, resumed)
    ensures first.rip == back && first.r.rsp == s.r.rsp - 8
  {
    SavedContext(s, ctx, back, first);
    Resumes(s, back, later, resumed);
  }

  /** The record of a save may be jumped to. */
  lemma SavedMayJump(s: State, ctx: Word, back: Word, first: State, later: State)
    requires 40 <= s.r.rsp && MaySave(Called(s, ctx, back)) && SavedBy(Called(s, ctx, back), first)
    requires later.r.rdi == ctx && ContextAt(later, ctx) == ContextAt(first, ctx)
    ensures MayJump(later)
  {
  }

  /** A save by a processor, anything in between that leaves the record as it is, and a jump. */
  method SaveThenResume(cpu: Cpu, ctx: Word, back: Word, later: State)
    requires 40 <= cpu.state.r.rsp && MaySave(Called(cpu.state, ctx, back))
    requires later.r.rdi == ctx && ContextAt(later, ctx) == Snapshot(cpu.state, back)
    modifies cpu
    ensures ResumedAs(old(cpu.state), back, later.r.rsi, later, cpu.state)
  {
    ghost var s := cpu.state;
    cpu.state := Called(cpu.state, ctx, back);
    CalledContext(s, ctx, back);
    cpu.SetJmp();
    ghost var first := cpu.state;
    SavedContext(s, ctx, back, first);
    SavedMayJump(s, ctx, back, first, later);
    cpu.state := later;
    cpu.LongJmp();
    RoundTrip(s, ctx, back, first, later, cpu.state);
  }
}
